/**
 Result blocks: the JSON payload is shielded, so a rendered result is itself never taken for
 an action, whatever text it carries, and still decodes to the payload it was made from.
 */
module ResultRendering {
  import opened Common
  import opened Json
  import opened JsonDecoding
  import opened ActionScanner

  predicate IsIdStart(c: char) {
    ('A' <= c <= 'Z') || ('a' <= c <= 'z') || ('0' <= c <= '9')
  }

  predicate IsIdChar(c: char) {
    IsIdStart(c) || c == '.' || c == '_' || c == ':' || c == '-'
  }

  /** `_ACTION_ID.fullmatch`. */
  predicate IsActionId(id: string) {
    1 <= |id| <= 200 && IsIdStart(id[0]) && forall i :: 0 <= i < |id| ==> IsIdChar(id[i])
  }

  datatype Outcome = Returned(result: Value) | Error(kind: string, message: string)

  function Payload(o: Outcome): Value {
    match o
    case Returned(result) => Obj([Member("ok", Bool(true)), Member("result", result)])
    case Error(kind, message) =>
      var text := if message == "" then "action failed" else message;
      Obj([Member("ok", Bool(false)),
           Member("error", Obj([Member("type", Str(kind)), Member("message", Str(text))]))])
  }

  const HEAD: string := "<gptlink_result id=\""
  const FOOT: string := "</gptlink_result>"

  function Frame(id: string, body: string): string {
    HEAD + id + "\">\n" + body + "\n" + FOOT
  }

  /** `render_result`; it rejects identifiers outside the pattern. */
  function RenderResult(id: string, o: Outcome): Option<string> {
    if !IsActionId(id) then None else Some(Frame(id, Shield(Dumps(Payload(o)))))
  }

  lemma PayloadWellFormed(o: Outcome)
    requires o.Returned? ==> WellFormed(o.result)
    ensures WellFormed(Payload(o))
  {
    if o.Error? {
      assert WellFormed(Str(o.kind));
      var text := if o.message == "" then "action failed" else o.message;
      var inner := [Member("type", Str(o.kind)), Member("message", Str(text))];
      assert inner[0].key != inner[1].key;
      assert WellFormed(Obj(inner));
      var outer := [Member("ok", Bool(false)), Member("error", Obj(inner))];
      assert outer[0].key != outer[1].key;
    } else {
      var outer := [Member("ok", Bool(true)), Member("result", o.result)];
      assert outer[0].key != outer[1].key;
    }
  }

  /** No `<` in the text. */
  predicate NoTagStart(t: string) {
    forall i :: 0 <= i < |t| ==> t[i] != '<'
  }

  lemma FrameParts(id: string, body: string)
    ensures |HEAD| == 20 && |FOOT| == 17
    ensures |Frame(id, body)| == 20 + |id| + 3 + |body| + 1 + 17
    ensures Frame(id, body)[..20] == HEAD
    ensures Frame(id, body)[20 + |id| + 3 + |body| + 1..] == FOOT
    ensures Frame(id, body)[20..20 + |id| + 3 + |body| + 1] == id + "\">\n" + body + "\n"
  {
    assert Frame(id, body) == HEAD + (id + "\">\n" + body + "\n") + FOOT;
  }

  /** In a frame around plain text, `<` stands only where the head and the foot start. */
  lemma TagStartsInFrame(id: string, body: string, k: nat)
    requires NoTagStart(id) && NoTagStart(body)
    requires k < |Frame(id, body)|
    ensures Frame(id, body)[k] == '<' ==> k == 0 || k == 20 + |id| + 3 + |body| + 1
  {
    FrameParts(id, body);
    var text := Frame(id, body);
    var middle := id + "\">\n" + body + "\n";
    var foot := 20 + |id| + 3 + |body| + 1;
    assert NoTagStart(middle);
    if k < 20 {
      assert text[k] == text[..20][k] == HEAD[k];
    } else if k < foot {
      assert text[k] == text[20..foot][k - 20] == middle[k - 20];
    } else {
      assert text[k] == text[foot..][k - foot] == FOOT[k - foot];
    }
  }

  lemma FragmentsDiffer()
    ensures HEAD[1] != CLOSE_FRAGMENT[1] && HEAD[9] != OPEN_FRAGMENT[9]
    ensures FOOT[1] != OPEN_FRAGMENT[1] && FOOT[10] != CLOSE_FRAGMENT[10]
  {
  }

  lemma {:induction false} FrameIsInert(id: string, body: string)
    requires NoTagStart(id) && NoTagStart(body)
    ensures ParseAction(Frame(id, body)).NoAction?
  {
    var text := Frame(id, body);
    var foot := 20 + |id| + 3 + |body| + 1;
    FrameParts(id, body);
    TagsAreMarkup();
    FragmentsDiffer();
    assert text[1] == text[..20][1] && text[9] == text[..20][9];
    assert text[foot + 1] == text[foot..][1] && text[foot + 10] == text[foot..][10];
    forall i: nat | i <= |text|
      ensures !At(text, i, OPEN_FRAGMENT) && !At(text, i, CLOSE_FRAGMENT)
    {
      if i < |text| {
        TagStartsInFrame(id, body, i);
      }
    }
    NoActionIffNoFragment(text);
  }

  /** Whatever it reports, a rendered result parses as no action. */
  lemma {:induction false} RenderedIsInert(id: string, o: Outcome)
    requires IsActionId(id)
    ensures ParseAction(RenderResult(id, o).value).NoAction?
  {
    ShieldPrint(Payload(o));
    FrameIsInert(id, Shield(Dumps(Payload(o))));
  }

  /**
   A rendered result parses as no action, carries its own identifier in its head, and its body
   decodes to the payload without containing a markup character.
   */
  lemma RenderedResult(id: string, o: Outcome)
    requires IsActionId(id) && (o.Returned? ==> WellFormed(o.result))
    ensures var text := RenderResult(id, o).value;
            var body := Shield(Dumps(Payload(o)));
            && ParseAction(text).NoAction?
            && text == HEAD + id + "\">\n" + body + "\n" + FOOT
            && NoMarkup(body) && Decode(body) == Some(Payload(o))
  {
    PayloadWellFormed(o);
    ShieldingPreservesMeaning(Payload(o));
    RenderedIsInert(id, o);
  }

  /** The value of a member of an object. */
  function Field(v: Value, key: string): Option<Value> {
    if v.Obj? then Find(v.members, key) else None
  }

  function Find(members: seq<Member>, key: string): Option<Value> {
    if members == [] then None
    else if members[0].key == key then Some(members[0].value)
    else Find(members[1..], key)
  }

  /** The value a chat reads from a result says what happened. */
  predicate Says(v: Value, o: Outcome) {
    match o
    case Returned(result) => Field(v, "ok") == Some(Bool(true)) && Field(v, "result") == Some(result)
    case Error(kind, message) =>
      && Field(v, "ok") == Some(Bool(false)) && Field(v, "error").Some?
      && Field(Field(v, "error").value, "type") == Some(Str(kind))
      && Field(Field(v, "error").value, "message") == Some(Str(if message == "" then "action failed" else message))
  }

  /** The text is a result block with this identifier, and its body decodes to a value that says what happened. */
  ghost predicate Tells(text: string, id: string, o: Outcome) {
    exists body ::
      && text == "<gptlink_result id=\"" + id + "\">\n" + body + "\n</gptlink_result>"
      && NoMarkup(body) && Decode(body).Some? && Says(Decode(body).value, o)
  }

  lemma {:induction false} FindBoth(a: Member, b: Member)
    requires a.key != b.key
    ensures Find([a, b], a.key) == Some(a.value) && Find([a, b], b.key) == Some(b.value)
  {
    assert [a, b][1..] == [b] && [b][0] == b;
  }

  lemma {:induction false} PayloadSays(o: Outcome)
    ensures Says(Payload(o), o)
  {
    var v := Payload(o);
    FindBoth(v.members[0], v.members[1]);
    assert v.members == [v.members[0], v.members[1]];
    if o.Error? {
      var inner := v.members[1].value;
      FindBoth(inner.members[0], inner.members[1]);
      assert inner.members == [inner.members[0], inner.members[1]];
    }
  }

  /** A rendered result tells the chat the outcome, whatever text the outcome carries. */
  lemma {:induction false} RenderedTells(id: string, o: Outcome)
    requires IsActionId(id) && (o.Returned? ==> WellFormed(o.result))
    ensures Tells(RenderResult(id, o).value, id, o)
  {
    RenderedResult(id, o);
    PayloadSays(o);
    var body := Shield(Dumps(Payload(o)));
    assert RenderResult(id, o).value == "<gptlink_result id=\"" + id + "\">\n" + body + "\n</gptlink_result>";
  }

  /** `[A-Za-z0-9._:-]{0,n}` to the end of the text. */
  predicate TailMatches(s: string, n: nat) {
    s == "" || (n > 0 && (IsIdStart(s[0]) || s[0] in "._:-") && TailMatches(s[1..], n - 1))
  }

  lemma {:induction false} TailMatchesIff(s: string, n: nat)
    ensures TailMatches(s, n) <==> |s| <= n && forall i | 0 <= i < |s| :: IsIdChar(s[i])
  {
    if s != "" && n > 0 {
      TailMatchesIff(s[1..], n - 1);
      assert forall i | 1 <= i < |s| :: s[i] == s[1..][i - 1];
    }
  }

  /** The identifiers are those the pattern matches, read from the left. */
  lemma {:induction false} ActionIdIff(id: string)
    ensures IsActionId(id) <==> id != "" && IsIdStart(id[0]) && TailMatches(id[1..], 199)
  {
    if id != "" {
      TailMatchesIff(id[1..], 199);
      assert forall i | 1 <= i < |id| :: id[i] == id[1..][i - 1];
    }
  }

  /** What follows the identifier in a frame. */
  function AfterId(body: string): string { "\">\n" + body + "\n" + FOOT }

  lemma FrameTail(id: string, body: string)
    ensures Frame(id, body)[20..] == id + AfterId(body) && AfterId(body)[0] == '\"'
  {
    assert |HEAD| == 20;
    assert Frame(id, body) == HEAD + (id + AfterId(body));
  }

  lemma FramesDiffer(a: string, x: string, b: string, y: string)
    requires IsActionId(a) && IsActionId(b) && Frame(a, x) == Frame(b, y)
    ensures a == b
  {
    FrameTail(a, x);
    FrameTail(b, y);
    IdEndsAtQuote(a, AfterId(x), b, AfterId(y));
  }

  /** Results for different actions are different texts: the identifier can be read back. */
  lemma ResultsAreCorrelated(a: string, b: string, o: Outcome, p: Outcome)
    requires IsActionId(a) && IsActionId(b) && RenderResult(a, o) == RenderResult(b, p)
    ensures a == b
  {
    FramesDiffer(a, Shield(Dumps(Payload(o))), b, Shield(Dumps(Payload(p))));
  }

  lemma {:induction false} IdEndsAtQuote(a: string, restA: string, b: string, restB: string)
    requires a + restA == b + restB
    requires restA != "" && restB != "" && restA[0] == '\"' && restB[0] == '\"'
    requires (forall i :: 0 <= i < |a| ==> a[i] != '\"') && (forall i :: 0 <= i < |b| ==> b[i] != '\"')
    ensures a == b
  {
    var t := a + restA;
    assert t == b + restB && t[|a|] == '\"' && t[|b|] == '\"';
    assert a == t[..|a|] && b == t[..|b|];
  }
}
