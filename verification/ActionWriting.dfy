/**
 The way from a chat's action to the Gateway's reading of it: a JSON object written into a
 block, with any white space around it and any text without tags around the block, is examined
 as exactly that text and decodes to that object.
 */
module ActionWriting {
  import opened Common
  import opened Json
  import JsonDecoding
  import opened ActionScanner

  predicate Blank(s: string) {
    forall i | 0 <= i < |s| :: IsSpace(s[i])
  }

  predicate NoTagStart(s: string) {
    '<' !in s
  }

  lemma {:induction false} TrimLeftBlank(left: string, rest: string)
    requires Blank(left) && rest != "" && !IsSpace(rest[0])
    ensures TrimLeft(left + rest) == rest
  {
    if left == "" {
      assert left + rest == rest;
    } else {
      assert (left + rest)[1..] == left[1..] + rest;
      TrimLeftBlank(left[1..], rest);
    }
  }

  lemma {:induction false} TrimRightBlank(rest: string, right: string)
    requires Blank(right) && rest != "" && !IsSpace(rest[|rest| - 1])
    ensures TrimRight(rest + right) == rest
  {
    if right == "" {
      assert rest + right == rest;
    } else {
      assert (rest + right)[..|rest + right| - 1] == rest + right[..|right| - 1];
      TrimRightBlank(rest, right[..|right| - 1]);
    }
  }

  /** White space around a text that neither starts nor ends with it is trimmed away, and no more. */
  lemma {:induction false} TrimBlank(left: string, body: string, right: string)
    requires Blank(left) && Blank(right) && body != "" && !IsSpace(body[0]) && !IsSpace(body[|body| - 1])
    ensures Trim(left + body + right) == body
  {
    assert left + body + right == left + (body + right);
    TrimLeftBlank(left, body + right);
    TrimRightBlank(body, right);
  }

  lemma {:induction false} MembersEnd(members: seq<Member>, shield: bool)
    requires members != []
    ensures var text := PrintMembers(members, shield); text != "" && text[|text| - 1] == '}'
  {
    if |members| > 1 {
      MembersEnd(members[1..], shield);
    }
  }

  lemma ObjectEnds(v: Value)
    requires v.Obj?
    ensures var text := Print(v, true); |text| > 1 && text[0] == '{' && text[|text| - 1] == '}'
  {
    if v.members != [] {
      MembersEnd(v.members, true);
    }
  }

  /** The block around `inner`, with text before and after it. */
  function Written(before: string, inner: string, after: string): string {
    before + OPEN + inner + CLOSE + after
  }

  lemma WrittenParts(before: string, inner: string, after: string)
    ensures var text, i, j := Written(before, inner, after), |before|, |before| + 16 + |inner|;
            && |text| == j + 17 + |after|
            && text[..i] == before && text[i..i + 16] == OPEN && text[i + 16..j] == inner
            && text[j..j + 17] == CLOSE && text[j + 17..] == after
  {
    TagsAreMarkup();
  }

  lemma AtSlice(s: string, i: nat, pattern: string)
    requires i + |pattern| <= |s| && s[i..i + |pattern|] == pattern
    ensures At(s, i, pattern)
  {
    forall k | 0 <= k < |pattern|
      ensures s[i + k] == pattern[k]
    {
      assert s[i..i + |pattern|][k] == pattern[k];
    }
  }

  /** Without another `<`, the tags stand only at their two places. */
  lemma {:induction false} TagStarts(before: string, inner: string, after: string, k: nat)
    requires NoTagStart(before) && NoTagStart(inner) && NoTagStart(after)
    requires k < |Written(before, inner, after)|
    ensures Written(before, inner, after)[k] == '<' ==> k == |before| || k == |before| + 16 + |inner|
  {
    WrittenParts(before, inner, after);
    TagsAreMarkup();
    var text, i, j := Written(before, inner, after), |before|, |before| + 16 + |inner|;
    if k < i {
      assert text[k] == before[k];
    } else if k < i + 16 {
      assert text[k] == OPEN[k - i];
    } else if k < j {
      assert text[k] == inner[k - i - 16];
    } else if k < j + 17 {
      assert text[k] == CLOSE[k - j];
    } else {
      assert text[k] == after[k - j - 17];
    }
  }

  lemma {:induction false} WrittenIsOneBlock(before: string, inner: string, after: string)
    requires NoTagStart(before) && NoTagStart(inner) && NoTagStart(after)
    ensures Block(Written(before, inner, after), |before|, |before| + 16 + |inner|, OPEN, CLOSE, Trim(inner))
  {
    WrittenParts(before, inner, after);
    TagsAreMarkup();
    var text, i, j := Written(before, inner, after), |before|, |before| + 16 + |inner|;
    AtSlice(text, i, OPEN);
    AtSlice(text, j, CLOSE);
    forall k: nat | At(text, k, OPEN)
      ensures k == i
    {
      AtChar(text, k, OPEN, 0);
      TagStarts(before, inner, after, k);
      AtChar(text, k, OPEN, 1);
      AtChar(text, j, CLOSE, 1);
    }
    forall k: nat | At(text, k, CLOSE)
      ensures k == j
    {
      AtChar(text, k, CLOSE, 0);
      TagStarts(before, inner, after, k);
      AtChar(text, k, CLOSE, 1);
      AtChar(text, i, OPEN, 1);
    }
  }

  lemma NoMarkupNoTag(s: string)
    requires NoMarkup(s)
    ensures NoTagStart(s)
  {
  }

  /** White space is no `<`, so a padded text has no tag either. */
  lemma {:induction false} PaddedHasNoTag(left: string, body: string, right: string)
    requires Blank(left) && Blank(right) && NoTagStart(body)
    ensures NoTagStart(left + body + right)
  {
    SpacesAre('<');
  }

  lemma {:induction false} PaddedBlockIsExamined(before: string, left: string, body: string, right: string,
                                                 after: string)
    requires Blank(left) && Blank(right) && NoTagStart(before) && NoTagStart(body) && NoTagStart(after)
    requires body != "" && !IsSpace(body[0]) && !IsSpace(body[|body| - 1])
    ensures ParseAction(Written(before, left + body + right, after)) == Examine(body)
  {
    TrimBlank(left, body, right);
    PaddedHasNoTag(left, body, right);
    var inner := left + body + right;
    WrittenIsOneBlock(before, inner, after);
    OneBlockIsExamined(Written(before, inner, after), |before|, |before| + 16 + |inner|, body);
  }

  /** What is written is read: the block's payload is the object's own text, and decodes to the object. */
  lemma {:induction false} WrittenActionIsRead(before: string, left: string, v: Value, right: string, after: string)
    requires v.Obj? && WellFormed(v) && Blank(left) && Blank(right) && NoTagStart(before) && NoTagStart(after)
    ensures var body := Shield(Dumps(v));
            && ParseAction(Written(before, left + body + right, after)) == Examine(body)
            && JsonDecoding.Decode(body) == Some(v)
  {
    var body := Shield(Dumps(v));
    ShieldPrint(v);
    ObjectEnds(v);
    JsonDecoding.ShieldingPreservesMeaning(v);
    SpacesAre('{');
    SpacesAre('}');
    NoMarkupNoTag(body);
    PaddedBlockIsExamined(before, left, body, right, after);
  }
}
