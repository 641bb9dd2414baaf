/**
 The action block inside chat text. `FindAll` follows the regular expression's own search:
 left to right, white space greedily, the payload lazily, backtracking where it may. The
 lemmas show that it decides exactly "one opening tag before one closing tag, no other tag".
 */
module ActionScanner {
  import opened Common

  const OPEN: Tag := "<gptlink_action>"
  const CLOSE: Tag := "</gptlink_action>"
  const OPEN_FRAGMENT: Tag := "<gptlink_action"
  const CLOSE_FRAGMENT: Tag := "</gptlink_action"

  /** Only the first character of a tag is `<`. */
  predicate Markup(pattern: string) {
    pattern != "" && pattern[0] == '<' && forall k :: 0 < k < |pattern| ==> pattern[k] != '<'
  }

  type Tag = t: string | Markup(t) witness "<"

  /** `pattern` occurs in `s` at `i`. */
  predicate At(s: string, i: nat, pattern: string) {
    i + |pattern| <= |s| && forall k :: 0 <= k < |pattern| ==> s[i + k] == pattern[k]
  }

  predicate Occurs(s: string, pattern: string) {
    exists i: nat :: i <= |s| && At(s, i, pattern)
  }

  /** `str.count`: occurrences that do not overlap, found from the left. */
  function Count(s: string, i: nat, pattern: string): nat
    requires pattern != ""
    decreases |s| - i
  {
    if i >= |s| then 0
    else if At(s, i, pattern) then 1 + Count(s, i + |pattern|, pattern)
    else Count(s, i + 1, pattern)
  }

  /** White space as `\s` understands it for text. */
  predicate IsSpace(c: char) {
    var n := c as int;
    || 9 <= n <= 13 || 28 <= n <= 32 || n == 0x85 || n == 0xA0 || n == 0x1680 || 0x2000 <= n <= 0x200A
    || n == 0x2028 || n == 0x2029 || n == 0x202F || n == 0x205F || n == 0x3000
  }

  /** The code points of white space, one by one. */
  lemma SpacesAre(c: char)
    ensures IsSpace(c) <==> c as int in {
              0x09, 0x0A, 0x0B, 0x0C, 0x0D, 0x1C, 0x1D, 0x1E, 0x1F, 0x20, 0x85, 0xA0, 0x1680,
              0x2000, 0x2001, 0x2002, 0x2003, 0x2004, 0x2005, 0x2006, 0x2007, 0x2008, 0x2009, 0x200A,
              0x2028, 0x2029, 0x202F, 0x205F, 0x3000}
  {
  }

  function SkipSpace(s: string, i: nat): (j: nat)
    requires i <= |s|
    ensures i <= j <= |s|
    ensures forall k :: i <= k < j ==> IsSpace(s[k])
    ensures j < |s| ==> !IsSpace(s[j])
    decreases |s| - i
  {
    if i < |s| && IsSpace(s[i]) then SkipSpace(s, i + 1) else i
  }

  // ---------------------------------------------------------------- the search

  /** `\s*</gptlink_action>` from `k`, after the greedy match reached `p`: give characters back one by one. */
  function CloseFrom(s: string, k: nat, p: nat, close: Tag): (r: Option<nat>)
    requires k <= p
    ensures r.Some? ==> k <= r.value <= p && At(s, r.value, close)
    decreases p - k
  {
    if At(s, p, close) then Some(p) else if p > k then CloseFrom(s, k, p - 1, close) else None
  }

  /** `(.*?)\s*</gptlink_action>` from `k`: the shortest payload end, and where the closing tag starts. */
  function Lazy(s: string, k: nat, close: Tag): (r: Option<(nat, nat)>)
    requires k <= |s|
    ensures r.Some? ==> k <= r.value.0 <= r.value.1 && At(s, r.value.1, close)
    decreases |s| - k
  {
    match CloseFrom(s, k, SkipSpace(s, k), close)
    case Some(p) => Some((k, p))
    case None => if k < |s| then Lazy(s, k + 1, close) else None
  }

  /** `\s*(.*?)\s*</gptlink_action>` after an opening tag that ends at `start`, from the greedy `w` back. */
  function Payload(s: string, start: nat, w: nat, close: Tag): (r: Option<(nat, nat, nat)>)
    requires start <= w <= |s|
    ensures r.Some? ==> start <= r.value.0 <= r.value.1 <= r.value.2 && At(s, r.value.2, close)
    decreases w - start
  {
    match Lazy(s, w, close)
    case Some((k, p)) => Some((w, k, p))
    case None => if w > start then Payload(s, start, w - 1, close) else None
  }

  datatype Match = Match(payload: string, close: nat)

  function MatchAt(s: string, i: nat, open: Tag, close: Tag): (r: Option<Match>)
    ensures r.Some? ==> i + |open| <= r.value.close && r.value.close + |close| <= |s| && At(s, r.value.close, close)
  {
    if !At(s, i, open) then None
    else
      match Payload(s, i + |open|, SkipSpace(s, i + |open|), close)
      case None => None
      case Some((from, to, close)) => Some(Match(s[from..to], close))
  }

  /** The first place at or after `i` where a match starts. */
  function Search(s: string, i: nat, open: Tag, close: Tag): (r: Option<nat>)
    requires i <= |s|
    ensures r.Some? ==> i <= r.value && MatchAt(s, r.value, open, close).Some?
    decreases |s| - i
  {
    if MatchAt(s, i, open, close).Some? then Some(i)
    else if i < |s| then Search(s, i + 1, open, close)
    else None
  }

  /** The first match at or after `i`. */
  function Found(s: string, i: nat, open: Tag, close: Tag): (m: Option<Match>)
    requires i <= |s|
    ensures m.Some? ==> i + |open| <= m.value.close && m.value.close + |close| <= |s|
  {
    var k := Search(s, i, open, close);
    if k.Some? then MatchAt(s, k.value, open, close) else None
  }

  /** Every match lies behind the place it was searched from, and inside the text. */
  ghost predicate Advances(find: nat -> Option<Match>, size: nat, width: nat) {
    width > 0 && forall i: nat | i <= size && find(i).Some? ::
      i <= find(i).value.close && find(i).value.close + width <= size
  }

  /** After a match the search goes on behind its closing tag, which is `width` long. */
  function Collect(find: nat -> Option<Match>, i: nat, size: nat, width: nat): seq<string>
    requires i <= size && Advances(find, size, width)
    decreases size - i
  {
    match find(i)
    case None => []
    case Some(m) => [m.payload] + Collect(find, m.close + width, size, width)
  }

  function Finder(s: string, open: Tag, close: Tag): (find: nat -> Option<Match>)
    ensures Advances(find, |s|, |close|)
  {
    (i: nat) => if i <= |s| then Found(s, i, open, close) else None
  }

  /** `findall`. */
  function FindAll(s: string, open: Tag, close: Tag): seq<string> {
    Collect(Finder(s, open, close), 0, |s|, |close|)
  }

  datatype Verdict = NoAction | Examine(payload: string) | Rejected

  /** `parse_action`, up to the examination of the payload. */
  function ParseAction(s: string): Verdict {
    var matches := FindAll(s, OPEN, CLOSE);
    var tags := Count(s, 0, OPEN) + Count(s, 0, CLOSE);
    if matches == [] then
      if tags > 0 || Occurs(s, OPEN_FRAGMENT) || Occurs(s, CLOSE_FRAGMENT) then Rejected else NoAction
    else if |matches| != 1 || tags != 2 then Rejected
    else Examine(matches[0])
  }

  // ---------------------------------------------------------------- the declarative reading

  function TrimLeft(t: string): string {
    if t != "" && IsSpace(t[0]) then TrimLeft(t[1..]) else t
  }

  function TrimRight(t: string): string {
    if t != "" && IsSpace(t[|t| - 1]) then TrimRight(t[..|t| - 1]) else t
  }

  function Trim(t: string): string { TrimRight(TrimLeft(t)) }

  /** `i` and `j` are the places of the only opening and the only closing tag, in this order. */
  ghost predicate OneBlock(s: string, i: nat, j: nat, open: Tag, close: Tag) {
    && At(s, i, open) && At(s, j, close) && i + |open| <= j
    && (forall k: nat :: At(s, k, open) ==> k == i)
    && (forall k: nat :: At(s, k, close) ==> k == j)
  }

  // ---------------------------------------------------------------- tags do not overlap

  lemma TagsAreMarkup()
    ensures Markup(OPEN) && Markup(CLOSE) && Markup(OPEN_FRAGMENT) && Markup(CLOSE_FRAGMENT)
    ensures |OPEN| == 16 && |CLOSE| == 17 && |OPEN_FRAGMENT| == 15 && |CLOSE_FRAGMENT| == 16
    ensures OPEN[..15] == OPEN_FRAGMENT && CLOSE[..16] == CLOSE_FRAGMENT
    ensures OPEN[1] != CLOSE[1]
  {
  }

  lemma AtChar(s: string, i: nat, pattern: string, k: nat)
    requires At(s, i, pattern) && k < |pattern|
    ensures s[i + k] == pattern[k]
  {
  }

  /** Two tags at different places do not overlap. */
  lemma NoOverlap(s: string, i: nat, p: string, j: nat, q: string)
    requires Markup(p) && Markup(q) && At(s, i, p) && At(s, j, q) && i < j
    ensures i + |p| <= j
  {
    if j < i + |p| {
      AtChar(s, i, p, j - i);
    }
  }

  /** With a tag as pattern, `count` counts every place where it occurs. */
  lemma {:induction false} CountsAll(s: string, i: nat, p: string)
    requires Markup(p)
    ensures Count(s, i, p) == 0 <==> forall k: nat :: i <= k ==> !At(s, k, p)
    ensures forall k: nat, l: nat :: i <= k < l && At(s, k, p) && At(s, l, p) ==> Count(s, i, p) >= 2
    ensures Count(s, i, p) >= 2 ==> exists k: nat, l: nat :: i <= k < l && At(s, k, p) && At(s, l, p)
    decreases |s| - i
  {
    if i >= |s| {
    } else if At(s, i, p) {
      CountsAll(s, i + |p|, p);
      forall l: nat | i < l && At(s, l, p)
        ensures i + |p| <= l
      {
        NoOverlap(s, i, p, l, p);
      }
      if Count(s, i, p) >= 2 {
        var l: nat :| i + |p| <= l && At(s, l, p);
        assert i < l && At(s, i, p) && At(s, l, p);
      }
    } else {
      CountsAll(s, i + 1, p);
    }
  }

  // ---------------------------------------------------------------- what one match finds

  ghost predicate NoCloseFrom(s: string, k: nat, close: Tag) {
    forall c: nat :: k <= c ==> !At(s, c, close)
  }

  /** `c` is the first closing tag at or after `k`. */
  ghost predicate FirstClose(s: string, k: nat, c: nat, close: Tag) {
    k <= c && At(s, c, close) && forall d: nat :: k <= d < c ==> !At(s, d, close)
  }

  lemma CloseIsNotSpace(s: string, c: nat, close: Tag)
    requires At(s, c, close)
    ensures c < |s| && !IsSpace(s[c])
  {
    TagsAreMarkup();
    AtChar(s, c, close, 0);
  }

  /** Giving white space back never finds a closing tag that the greedy match missed. */
  lemma CloseAfterSpace(s: string, k: nat, close: Tag)
    requires k <= |s|
    ensures CloseFrom(s, k, SkipSpace(s, k), close) ==
            if At(s, SkipSpace(s, k), close) then Some(SkipSpace(s, k)) else None
  {
    var r := CloseFrom(s, k, SkipSpace(s, k), close);
    if r.Some? {
      CloseIsNotSpace(s, r.value, close);
    }
  }

  /** From `k`, the shortest payload ends at `to`, and only white space stands before the first closing tag. */
  ghost predicate PayloadEnd(s: string, k: nat, to: nat, c: nat, close: Tag) {
    && FirstClose(s, k, c, close) && k <= to <= c <= |s|
    && (forall x :: to <= x < c ==> IsSpace(s[x]))
    && (to > k ==> !IsSpace(s[to - 1]))
  }

  lemma LazyHere(s: string, k: nat, close: Tag)
    requires k <= |s| && At(s, SkipSpace(s, k), close)
    ensures PayloadEnd(s, k, k, SkipSpace(s, k), close)
  {
    forall c: nat | k <= c < SkipSpace(s, k)
      ensures !At(s, c, close)
    {
      if At(s, c, close) { CloseIsNotSpace(s, c, close); }
    }
  }

  lemma NotHere(s: string, k: nat, close: Tag)
    requires k < |s| && !At(s, SkipSpace(s, k), close)
    ensures !At(s, k, close)
    ensures IsSpace(s[k]) ==> SkipSpace(s, k) == SkipSpace(s, k + 1)
  {
    if At(s, k, close) { CloseIsNotSpace(s, k, close); }
  }

  lemma LazyLater(s: string, k: nat, to: nat, c: nat, close: Tag)
    requires k < |s| && !At(s, SkipSpace(s, k), close) && PayloadEnd(s, k + 1, to, c, close)
    ensures PayloadEnd(s, k, to, c, close)
  {
    NotHere(s, k, close);
    CloseIsNotSpace(s, c, close);
  }

  lemma LazyStep(s: string, k: nat, close: Tag)
    requires k <= |s|
    ensures Lazy(s, k, close) == if At(s, SkipSpace(s, k), close) then Some((k, SkipSpace(s, k)))
                          else if k < |s| then Lazy(s, k + 1, close) else None
  {
    CloseAfterSpace(s, k, close);
  }

  ghost predicate LazyOk(s: string, k: nat, r: Option<(nat, nat)>, close: Tag) {
    match r
    case None => NoCloseFrom(s, k, close)
    case Some((to, c)) => PayloadEnd(s, k, to, c, close)
  }

  lemma {:induction false} LazyFinds(s: string, k: nat, close: Tag)
    requires k <= |s|
    ensures LazyOk(s, k, Lazy(s, k, close), close)
    decreases |s| - k
  {
    LazyStep(s, k, close);
    if At(s, SkipSpace(s, k), close) {
      LazyHere(s, k, close);
    } else if k < |s| {
      NotHere(s, k, close);
      LazyFinds(s, k + 1, close);
      if Lazy(s, k + 1, close).Some? {
        LazyLater(s, k, Lazy(s, k + 1, close).value.0, Lazy(s, k + 1, close).value.1, close);
      }
    }
  }

  lemma {:induction false} PayloadFinds(s: string, start: nat, w: nat, close: Tag)
    requires start <= w <= |s| && forall x :: start <= x < w ==> IsSpace(s[x])
    ensures Payload(s, start, w, close).None? <==> NoCloseFrom(s, start, close)
    ensures !NoCloseFrom(s, start, close) ==>
              Lazy(s, w, close).Some? && Payload(s, start, w, close) ==
              Some((w, Lazy(s, w, close).value.0, Lazy(s, w, close).value.1))
    decreases w - start
  {
    LazyFinds(s, w, close);
    forall c: nat | start <= c < w
      ensures !At(s, c, close)
    {
      if At(s, c, close) { CloseIsNotSpace(s, c, close); }
    }
    assert NoCloseFrom(s, w, close) ==> NoCloseFrom(s, start, close);
    if Lazy(s, w, close).None? && w > start {
      PayloadFinds(s, start, w - 1, close);
    }
  }

  lemma {:induction false} TrimLeftSlice(s: string, a: nat, c: nat)
    requires a <= c < |s| && !IsSpace(s[c])
    ensures SkipSpace(s, a) <= c && TrimLeft(s[a..c]) == s[SkipSpace(s, a)..c]
    decreases c - a
  {
    if a < c && IsSpace(s[a]) {
      assert s[a..c][1..] == s[a + 1..c];
      TrimLeftSlice(s, a + 1, c);
    }
  }

  lemma {:induction false} TrimRightSlice(s: string, w: nat, to: nat, c: nat)
    requires w <= to <= c <= |s| && (forall x :: to <= x < c ==> IsSpace(s[x]))
    requires to > w ==> !IsSpace(s[to - 1])
    ensures TrimRight(s[w..c]) == s[w..to]
    decreases c - to
  {
    if to < c {
      var t := s[w..c];
      assert t[|t| - 1] == s[c - 1] && t[..|t| - 1] == s[w..c - 1];
      TrimRightSlice(s, w, to, c - 1);
    }
  }

  lemma FirstAfterSpace(s: string, start: nat, w: nat, c: nat, close: Tag)
    requires start <= w <= |s| && FirstClose(s, w, c, close)
    requires forall x :: start <= x < w ==> IsSpace(s[x])
    ensures FirstClose(s, start, c, close)
  {
    forall d: nat | start <= d < c
      ensures !At(s, d, close)
    {
      if At(s, d, close) { CloseIsNotSpace(s, d, close); }
    }
  }

  /** A match starts at an opening tag, ends at the first closing tag after it, and trims what is between. */
  lemma MatchFinds(s: string, i: nat, open: Tag, close: Tag)
    ensures MatchAt(s, i, open, close).Some? <==> At(s, i, open) && !NoCloseFrom(s, i + |open|, close)
    ensures MatchAt(s, i, open, close).Some? ==>
              var m := MatchAt(s, i, open, close).value;
              FirstClose(s, i + |open|, m.close, close) && m.payload == Trim(s[i + |open|..m.close])
  {
    if At(s, i, open) {
      var start := i + |open|;
      var w := SkipSpace(s, start);
      PayloadFinds(s, start, w, close);
      if !NoCloseFrom(s, start, close) {
        LazyFinds(s, w, close);
        var (to, c) := Lazy(s, w, close).value;
        CloseIsNotSpace(s, c, close);
        TrimLeftSlice(s, start, c);
        TrimRightSlice(s, w, to, c);
        FirstAfterSpace(s, start, w, c, close);
      }
    }
  }

  // ---------------------------------------------------------------- what the whole search finds

  /** An opening tag at `x` with some closing tag after it. */
  ghost predicate Starts(s: string, x: nat, open: Tag, close: Tag) {
    At(s, x, open) && !NoCloseFrom(s, x + |open|, close)
  }

  lemma SearchStep(s: string, i: nat, open: Tag, close: Tag)
    requires i <= |s|
    ensures Search(s, i, open, close) ==
            if Starts(s, i, open, close) then Some(i)
            else if i < |s| then Search(s, i + 1, open, close) else None
  {
    MatchFinds(s, i, open, close);
  }

  /** The first place in `i..n` that satisfies `p`. */
  function FirstWhere(p: nat -> bool, i: nat, n: nat): (r: Option<nat>)
    requires i <= n
    ensures r.Some? ==> i <= r.value <= n && p(r.value) && forall x: nat :: i <= x < r.value ==> !p(x)
    ensures r.None? ==> forall x: nat :: i <= x <= n ==> !p(x)
    decreases n - i
  {
    if p(i) then Some(i) else if i < n then FirstWhere(p, i + 1, n) else None
  }

  lemma {:induction false} SearchIsFirst(s: string, i: nat, open: Tag, close: Tag, p: nat -> bool)
    requires i <= |s| && forall x: nat :: p(x) <==> Starts(s, x, open, close)
    ensures Search(s, i, open, close) == FirstWhere(p, i, |s|)
    decreases |s| - i
  {
    SearchStep(s, i, open, close);
    if !p(i) && i < |s| {
      SearchIsFirst(s, i + 1, open, close, p);
    }
  }

  lemma {:induction false} SearchFindsFirst(s: string, i: nat, open: Tag, close: Tag)
    requires i <= |s|
    ensures match Search(s, i, open, close)
            case None => forall x: nat :: i <= x ==> !Starts(s, x, open, close)
            case Some(k) =>
              Starts(s, k, open, close) && i <= k && forall x: nat :: i <= x < k ==> !Starts(s, x, open, close)
  {
    ghost var p: nat -> bool := (x: nat) => Starts(s, x, open, close);
    SearchIsFirst(s, i, open, close, p);
    forall x: nat | i <= x && Starts(s, x, open, close)
      ensures x <= |s| && p(x)
    {
    }
  }

  lemma TagHasFragment(s: string, i: nat)
    ensures At(s, i, OPEN) ==> At(s, i, OPEN_FRAGMENT)
    ensures At(s, i, CLOSE) ==> At(s, i, CLOSE_FRAGMENT)
  {
    TagsAreMarkup();
    assert forall k :: 0 <= k < 15 ==> OPEN_FRAGMENT[k] == OPEN[..15][k] == OPEN[k];
    assert forall k :: 0 <= k < 16 ==> CLOSE_FRAGMENT[k] == CLOSE[..16][k] == CLOSE[k];
  }

  /** No action is reported exactly when no fragment of a tag occurs. */
  lemma {:induction false} NoActionIffNoFragment(s: string)
    ensures ParseAction(s).NoAction? <==> !Occurs(s, OPEN_FRAGMENT) && !Occurs(s, CLOSE_FRAGMENT)
  {
    CollectShape(Finder(s, OPEN, CLOSE), 0, |s|, |CLOSE|);
    TagsAreMarkup();
    CountsAll(s, 0, OPEN);
    CountsAll(s, 0, CLOSE);
    if !Occurs(s, OPEN_FRAGMENT) && !Occurs(s, CLOSE_FRAGMENT) {
      forall k: nat
        ensures !At(s, k, OPEN) && !At(s, k, CLOSE)
      {
        TagHasFragment(s, k);
      }
    }
  }

  /** When nothing, one payload, or more than one is found. */
  lemma CollectShape(find: nat -> Option<Match>, i: nat, size: nat, width: nat)
    requires i <= size && Advances(find, size, width)
    ensures Collect(find, i, size, width) == [] <==> find(i).None?
    ensures find(i).Some? ==>
              var found, next := Collect(find, i, size, width), find(i).value.close + width;
              found[0] == find(i).value.payload && (|found| == 1 <==> find(next).None?)
  {
  }

  /** The text has one block, and `payload` is the trimmed text inside it. */
  ghost predicate Block(s: string, i: nat, j: nat, open: Tag, close: Tag, payload: string) {
    OneBlock(s, i, j, open, close) && payload == Trim(s[i + |open|..j])
  }

  lemma {:induction false} FindsOnlyBlock(s: string, i: nat, j: nat, open: Tag, close: Tag, payload: string)
    requires Block(s, i, j, open, close, payload)
    ensures FindAll(s, open, close) == [payload]
  {
    CollectShape(Finder(s, open, close), 0, |s|, |close|);
    assert Starts(s, i, open, close);
    SearchFindsFirst(s, 0, open, close);
    MatchFinds(s, i, open, close);
    SearchFindsFirst(s, j + |close|, open, close);
  }

  lemma {:induction false} OneBlockIsExamined(s: string, i: nat, j: nat, payload: string)
    requires Block(s, i, j, OPEN, CLOSE, payload)
    ensures ParseAction(s) == Examine(payload)
  {
    TagsAreMarkup();
    CountsAll(s, 0, OPEN);
    CountsAll(s, 0, CLOSE);
    FindsOnlyBlock(s, i, j, OPEN, CLOSE, payload);
  }

  /** One tag of each kind, and a match: the match is the only block. */
  lemma {:induction false} MatchIsBlock(s: string, open: Tag, close: Tag) returns (i: nat, j: nat)
    requires Count(s, 0, open) == 1 && Count(s, 0, close) == 1 && FindAll(s, open, close) != []
    ensures Block(s, i, j, open, close, FindAll(s, open, close)[0])
  {
    CollectShape(Finder(s, open, close), 0, |s|, |close|);
    CountsAll(s, 0, open);
    CountsAll(s, 0, close);
    i := Search(s, 0, open, close).value;
    MatchFinds(s, i, open, close);
    j := MatchAt(s, i, open, close).value.close;
  }

  lemma {:induction false} ExaminedIsOneBlock(s: string, payload: string) returns (i: nat, j: nat)
    requires ParseAction(s) == Examine(payload)
    ensures Block(s, i, j, OPEN, CLOSE, payload)
  {
    CollectShape(Finder(s, OPEN, CLOSE), 0, |s|, |CLOSE|);
    TagsAreMarkup();
    CountsAll(s, 0, OPEN);
    CountsAll(s, 0, CLOSE);
    var k := Search(s, 0, OPEN, CLOSE).value;
    MatchFinds(s, k, OPEN, CLOSE);
    assert At(s, k, OPEN) && Count(s, 0, OPEN) != 0;
    assert At(s, MatchAt(s, k, OPEN, CLOSE).value.close, CLOSE) && Count(s, 0, CLOSE) != 0;
    i, j := MatchIsBlock(s, OPEN, CLOSE);
  }

  /** A payload is examined exactly when the text has one block, and it is the trimmed text between. */
  lemma {:induction false} ExaminesIffOneBlock(s: string, payload: string)
    ensures ParseAction(s) == Examine(payload) <==> exists i: nat, j: nat :: Block(s, i, j, OPEN, CLOSE, payload)
  {
    if ParseAction(s) == Examine(payload) {
      var i, j := ExaminedIsOneBlock(s, payload);
    }
    if exists i: nat, j: nat :: Block(s, i, j, OPEN, CLOSE, payload) {
      var i: nat, j: nat :| Block(s, i, j, OPEN, CLOSE, payload);
      OneBlockIsExamined(s, i, j, payload);
    }
  }
}
