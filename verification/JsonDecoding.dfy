/**
 The decoder `json.loads` applies, and the round trip: printed JSON, shielded or not, decodes
 to the value that was printed (section 7 of RFC 8259 for the escapes inside strings).
 */
module JsonDecoding {
  import opened Common
  import opened Json

  // ---------------------------------------------------------------- the decoder

  predicate IsSpace(c: char) { c == ' ' || c == '\t' || c == '\n' || c == '\r' }

  function Skip(s: string): (r: string)
    ensures |r| <= |s| && (r == "" || !IsSpace(r[0]))
  {
    if s != "" && IsSpace(s[0]) then Skip(s[1..]) else s
  }

  function HexValue(c: char): (r: Option<nat>)
    ensures r.Some? ==> r.value < 16
  {
    if '0' <= c <= '9' then Some(c as int - 48)
    else if 'a' <= c <= 'f' then Some(c as int - 87)
    else if 'A' <= c <= 'F' then Some(c as int - 55)
    else None
  }

  function Hex4(s: string): (r: Option<nat>)
    ensures r.Some? ==> |s| >= 4 && r.value < 0x1_0000
  {
    if |s| < 4 || HexValue(s[0]).None? || HexValue(s[1]).None? || HexValue(s[2]).None? || HexValue(s[3]).None? then None
    else Some(HexValue(s[0]).value * 4096 + HexValue(s[1]).value * 256
              + HexValue(s[2]).value * 16 + HexValue(s[3]).value)
  }

  predicate IsHigh(n: nat) { 0xD800 <= n < 0xDC00 }

  predicate IsLow(n: nat) { 0xDC00 <= n < 0xE000 }

  /** The escape after `\u`; a surrogate must come as a pair. */
  function ScanUnicode(s: string): (r: Option<(char, string)>)
    ensures r.Some? ==> |r.value.1| < |s|
  {
    match Hex4(s)
    case None => None
    case Some(n) =>
      if !IsHigh(n) && !IsLow(n) then Some((n as char, s[4..]))
      else if IsHigh(n) && |s| >= 10 && s[4] == '\\' && s[5] == 'u' &&
              Hex4(s[6..]).Some? && IsLow(Hex4(s[6..]).value) then
        Some(((0x1_0000 + (n - 0xD800) * 0x400 + (Hex4(s[6..]).value - 0xDC00)) as char, s[10..]))
      else None
  }

  /** The escape after a backslash. */
  function ScanEscape(s: string): (r: Option<(char, string)>)
    ensures r.Some? ==> |r.value.1| < |s|
  {
    if s == "" then None
    else if s[0] == '\"' then Some(('\"', s[1..]))
    else if s[0] == '\\' then Some(('\\', s[1..]))
    else if s[0] == '/' then Some(('/', s[1..]))
    else if s[0] == 'b' then Some((8 as char, s[1..]))
    else if s[0] == 'f' then Some((12 as char, s[1..]))
    else if s[0] == 'n' then Some(('\n', s[1..]))
    else if s[0] == 'r' then Some(('\r', s[1..]))
    else if s[0] == 't' then Some(('\t', s[1..]))
    else if s[0] == 'u' then ScanUnicode(s[1..])
    else None
  }

  function Prepend(c: char, r: Option<(string, string)>): Option<(string, string)> {
    match r
    case None => None
    case Some((text, rest)) => Some(([c] + text, rest))
  }

  /** The string that follows an opening quote, and what follows its closing quote. */
  function ScanString(s: string): (r: Option<(string, string)>)
    ensures r.Some? ==> |r.value.1| < |s|
    decreases |s|
  {
    if s == "" then None
    else if s[0] == '\"' then Some(("", s[1..]))
    else if s[0] == '\\' then
      (match ScanEscape(s[1..])
       case None => None
       case Some((c, rest)) => Prepend(c, ScanString(rest)))
    else if s[0] as int < 32 then None
    else Prepend(s[0], ScanString(s[1..]))
  }

  predicate IsDigit(c: char) { '0' <= c <= '9' }

  function TakeDigits(s: string, value: nat): (r: (nat, string))
    ensures |r.1| <= |s|
  {
    if s != "" && IsDigit(s[0]) then TakeDigits(s[1..], value * 10 + (s[0] as int - 48)) else (value, s)
  }

  /** A number without fraction or exponent. */
  function ScanNat(s: string): (r: Option<(nat, string)>)
    ensures r.Some? ==> |r.value.1| < |s|
  {
    if s == "" || !IsDigit(s[0]) then None
    else
      var (n, rest) := if s[0] == '0' then (0, s[1..]) else TakeDigits(s[1..], s[0] as int - 48);
      if rest != "" && (rest[0] == '.' || rest[0] == 'e' || rest[0] == 'E') then None else Some((n, rest))
  }

  function Signed(negative: bool, n: int): int { if negative then -n else n }

  function ScanInt(s: string): (r: Option<(int, string)>)
    ensures r.Some? ==> |r.value.1| < |s|
  {
    var negative := s != "" && s[0] == '-';
    match ScanNat(if negative then s[1..] else s)
    case None => None
    case Some((n, rest)) =>
      Some((Signed(negative, n), rest))
  }

  /** A dictionary assignment: a repeated key keeps its place and takes the new value. */
  function Put(members: seq<Member>, m: Member): seq<Member> {
    if members == [] then [m]
    else if members[0].key == m.key then [m] + members[1..]
    else [members[0]] + Put(members[1..], m)
  }

  function ParseValue(s: string): (r: Option<(Value, string)>)
    ensures r.Some? ==> |r.value.1| < |s|
    decreases |s|, 0
  {
    if s == "" then None
    else if s[0] == '\"' then
      (match ScanString(s[1..])
       case None => None
       case Some((text, rest)) => Some((Str(text), rest)))
    else if s[0] == '[' then ParseArray(s[1..])
    else if s[0] == '{' then ParseObject(s[1..])
    else if s[0] == 'n' && "null" <= s then Some((Null, s[4..]))
    else if s[0] == 't' && "true" <= s then Some((Bool(true), s[4..]))
    else if s[0] == 'f' && "false" <= s then Some((Bool(false), s[5..]))
    else
      match ScanInt(s)
      case None => None
      case Some((n, rest)) => Some((Int(n), rest))
  }

  function ParseArray(s: string): (r: Option<(Value, string)>)
    ensures r.Some? ==> |r.value.1| < |s|
    decreases |s|, 2
  {
    var t := Skip(s);
    if t != "" && t[0] == ']' then Some((Arr([]), t[1..]))
    else
      match ParseItems(t)
      case None => None
      case Some((items, rest)) => Some((Arr(items), rest))
  }

  function ParseItems(s: string): (r: Option<(seq<Value>, string)>)
    ensures r.Some? ==> |r.value.1| < |s|
    decreases |s|, 1
  {
    match ParseValue(s)
    case None => None
    case Some((v, rest)) =>
      var t := Skip(rest);
      if t == "" then None
      else if t[0] == ']' then Some(([v], t[1..]))
      else if t[0] != ',' then None
      else
        match ParseItems(Skip(t[1..]))
        case None => None
        case Some((items, rest)) => Some(([v] + items, rest))
  }

  function ParseObject(s: string): (r: Option<(Value, string)>)
    ensures r.Some? ==> |r.value.1| < |s|
    decreases |s|, 2
  {
    var t := Skip(s);
    if t != "" && t[0] == '}' then Some((Obj([]), t[1..]))
    else
      match ParseMembers(t, [])
      case None => None
      case Some((members, rest)) => Some((Obj(members), rest))
  }

  /** One member, from its key to its value. */
  function ParseMember(s: string): (r: Option<(Member, string)>)
    ensures r.Some? ==> |r.value.1| < |s|
    decreases |s|, 0
  {
    if s == "" || s[0] != '\"' then None
    else
      match ScanString(s[1..])
      case None => None
      case Some((key, rest)) =>
        var t := Skip(rest);
        if t == "" || t[0] != ':' then None
        else
          match ParseValue(Skip(t[1..]))
          case None => None
          case Some((v, rest)) => Some((Member(key, v), rest))
  }

  function ParseMembers(s: string, before: seq<Member>): (r: Option<(seq<Member>, string)>)
    ensures r.Some? ==> |r.value.1| < |s|
    decreases |s|, 1
  {
    match ParseMember(s)
    case None => None
    case Some((m, rest)) =>
      var t := Skip(rest);
      if t == "" then None
      else if t[0] == '}' then Some((Put(before, m), t[1..]))
      else if t[0] != ',' then None
      else ParseMembers(Skip(t[1..]), Put(before, m))
  }

  function Decode(text: string): Option<Value> {
    match ParseValue(Skip(text))
    case None => None
    case Some((v, rest)) => if Skip(rest) == "" then Some(v) else None
  }

  // ---------------------------------------------------------------- strings read back

  lemma HexDigitValue(n: nat)
    requires n < 16
    ensures HexValue(HexDigit(n)) == Some(n)
  {
  }

  lemma ScanUnicodeBack(n: nat, rest: string)
    requires n < 256
    ensures ScanUnicode(Unicode(n)[2..] + rest) == Some((n as char, rest))
  {
    HexDigitValue(n / 16);
    HexDigitValue(n % 16);
    var s := Unicode(n)[2..] + rest;
    assert s[0] == '0' && s[1] == '0' && s[2] == HexDigit(n / 16) && s[3] == HexDigit(n % 16) && s[4..] == rest;
  }

  /** What an escaped character scans as: itself, then the rest of the string. */
  ghost predicate ReadsAs(escaped: string, c: char, rest: string) {
    ScanString(escaped + rest) == Prepend(c, ScanString(rest))
  }

  lemma PlainReads(c: char, rest: string)
    requires c != '\"' && c != '\\' && c as int >= 32
    ensures ReadsAs([c], c, rest)
  {
    assert ([c] + rest)[1..] == rest;
  }

  lemma PairReads(e: char, c: char, rest: string)
    requires ScanEscape([e] + rest) == Some((c, rest))
    ensures ReadsAs(['\\', e], c, rest)
  {
    var s := ['\\', e] + rest;
    assert s[0] == '\\' && s[1..] == [e] + rest;
  }

  lemma UnicodeReads(n: nat, rest: string)
    requires n < 256
    ensures ReadsAs(Unicode(n), n as char, rest)
  {
    var s := Unicode(n) + rest;
    assert s[0] == '\\' && s[1..][0] == 'u' && s[1..][1..] == Unicode(n)[2..] + rest;
    ScanUnicodeBack(n, rest);
  }

  lemma MarkupReads(c: char, rest: string)
    requires IsMarkup(c)
    ensures ReadsAs(Escape(c, true), c, rest)
  {
    var n := c as int;
    assert n / 16 == (if c == '&' then 2 else 3) && n % 16 == (if c == '&' then 6 else if c == '<' then 12 else 14);
    assert Escape(c, true) == Unicode(n);
    UnicodeReads(n, rest);
  }

  lemma EscapeReads(c: char, shield: bool, rest: string)
    ensures ReadsAs(Escape(c, shield), c, rest)
  {
    var e := Escape(c, shield);
    if e == [c] {
      PlainReads(c, rest);
    } else if IsMarkup(c) {
      MarkupReads(c, rest);
    } else if |e| == 2 {
      assert ([e[1]] + rest)[1..] == rest;
      PairReads(e[1], c, rest);
      assert e == ['\\', e[1]];
    } else {
      UnicodeReads(c as int, rest);
    }
  }

  lemma ReadsOn(escaped: string, c: char, body: string, s: string, rest: string)
    requires ReadsAs(escaped, c, body) && ScanString(body) == Some((s, rest))
    ensures ScanString(escaped + body) == Some(([c] + s, rest))
  {
  }

  lemma {:induction false} StringReadsBack(s: string, shield: bool, rest: string)
    ensures ScanString(EscapeAll(s, shield) + (['\"'] + rest)) == Some((s, rest))
  {
    var close := ['\"'] + rest;
    if s == "" {
      assert EscapeAll(s, shield) + close == close && close[1..] == rest;
    } else {
      var body := EscapeAll(s[1..], shield) + close;
      StringReadsBack(s[1..], shield, rest);
      EscapeReads(s[0], shield, body);
      ReadsOn(Escape(s[0], shield), s[0], body, s[1..], rest);
      Associate(Escape(s[0], shield), EscapeAll(s[1..], shield), close);
      assert [s[0]] + s[1..] == s;
    }
  }

  lemma Associate(a: string, b: string, c: string)
    ensures (a + b) + c == a + (b + c)
  {
  }

  lemma QuoteReadsBack(s: string, shield: bool, rest: string)
    ensures var text := Quote(s, shield) + rest;
            text[0] == '\"' && ScanString(text[1..]) == Some((s, rest))
  {
    var text := Quote(s, shield) + rest;
    assert text[1..] == EscapeAll(s, shield) + (['\"'] + rest);
    StringReadsBack(s, shield, rest);
  }

  // ---------------------------------------------------------------- numbers read back

  /** What may follow a printed value: nothing that could continue a number. */
  predicate Delimited(rest: string) {
    rest == "" || rest[0] == ',' || rest[0] == ']' || rest[0] == '}'
  }

  lemma {:induction false} DigitsReadBack(n: nat, rest: string)
    ensures TakeDigits(Digits(n) + rest, 0) == TakeDigits(rest, n)
    decreases n
  {
    if n < 10 {
      assert (Digits(n) + rest)[1..] == rest;
    } else {
      var d := [HexDigit(n % 10)];
      DigitsReadBack(n / 10, d + rest);
      assert Digits(n) + rest == Digits(n / 10) + (d + rest);
      assert (d + rest)[1..] == rest;
    }
  }

  lemma NatReadsBack(n: nat, rest: string)
    requires Delimited(rest)
    ensures ScanNat(Digits(n) + rest) == Some((n, rest))
  {
    DigitsAreDigits(n);
    var text := Digits(n) + rest;
    if Digits(n)[0] == '0' {
      assert text[1..] == rest;
    } else {
      DigitsReadBack(n, rest);
      assert TakeDigits(text, 0) == TakeDigits(text[1..], text[0] as int - 48);
    }
  }

  lemma SignReadsBack(n: int, rest: string)
    requires Delimited(rest)
    ensures ScanInt(PrintInt(n) + rest) == Some((n, rest))
  {
    DigitsAreDigits(if n < 0 then -n else n);
    NatReadsBack(if n < 0 then -n else n, rest);
    if n < 0 {
      assert (PrintInt(n) + rest)[1..] == Digits(-n) + rest;
    }
  }

  /** A text that starts like a number is parsed as one. */
  lemma NumberIsInt(text: string)
    requires text != "" && (text[0] == '-' || IsDigit(text[0]))
    ensures ParseValue(text) == match ScanInt(text) case None => None case Some((n, rest)) => Some((Int(n), rest))
  {
  }

  lemma IntReadsBack(n: int, rest: string)
    requires Delimited(rest)
    ensures ParseValue(PrintInt(n) + rest) == Some((Int(n), rest))
  {
    DigitsAreDigits(if n < 0 then -n else n);
    SignReadsBack(n, rest);
    NumberIsInt(PrintInt(n) + rest);
  }

  // ---------------------------------------------------------------- values read back

  lemma SkipNothing(s: string)
    requires s != "" && !IsSpace(s[0])
    ensures Skip(s) == s
  {
  }

  /** Printed values start with a character that is not white space and not a closing bracket. */
  lemma PrintStarts(v: Value, shield: bool)
    ensures Print(v, shield) != "" && !IsSpace(Print(v, shield)[0])
    ensures Print(v, shield)[0] != ']' && Print(v, shield)[0] != '}'
  {
    if v.Int? { DigitsAreDigits(if v.n < 0 then -v.n else v.n); }
  }

  lemma LiteralReadsBack(v: Value, shield: bool, rest: string)
    requires v.Null? || v.Bool?
    ensures ParseValue(Print(v, shield) + rest) == Some((v, rest))
  {
    var text := Print(v, shield) + rest;
    if v == Bool(false) {
      assert text[..5] == "false" && text[5..] == rest;
    } else {
      assert text[..4] == Print(v, shield) && text[4..] == rest;
    }
  }

  lemma {:induction false} ReadsBack(v: Value, shield: bool, rest: string)
    requires WellFormed(v) && Delimited(rest)
    ensures ParseValue(Print(v, shield) + rest) == Some((v, rest))
    decreases v, 2
  {
    match v
    case Null => LiteralReadsBack(v, shield, rest);
    case Bool(b) => LiteralReadsBack(v, shield, rest);
    case Int(n) => IntReadsBack(n, rest);
    case Str(s) => QuoteReadsBack(s, shield, rest);
    case Arr(items) => ArrayReadsBack(items, shield, rest);
    case Obj(members) => ObjectReadsBack(members, shield, rest);
  }

  lemma {:induction false} ArrayReadsBack(items: seq<Value>, shield: bool, rest: string)
    requires (forall i :: 0 <= i < |items| ==> WellFormed(items[i])) && Delimited(rest)
    ensures ParseValue(Print(Arr(items), shield) + rest) == Some((Arr(items), rest))
    decreases items, 1
  {
    var text := Print(Arr(items), shield) + rest;
    if items == [] {
      assert text[1..] == [']'] + rest && ([']'] + rest)[1..] == rest;
      SkipNothing([']'] + rest);
    } else {
      var body := PrintItems(items, shield) + rest;
      assert text[1..] == body;
      PrintStarts(items[0], shield);
      assert body[0] == Print(items[0], shield)[0];
      SkipNothing(body);
      ItemsReadBack(items, shield, rest);
    }
  }

  lemma LastItem(text: string, v: Value, rest: string)
    requires ParseValue(text) == Some((v, [']'] + rest))
    ensures ParseItems(text) == Some(([v], rest))
  {
    var tail := [']'] + rest;
    SkipNothing(tail);
    assert tail[1..] == rest;
  }

  lemma AnotherItem(text: string, v: Value, others: string, items: seq<Value>, rest: string)
    requires ParseValue(text) == Some((v, [','] + others)) && Skip(others) == others
    requires ParseItems(others) == Some((items, rest))
    ensures ParseItems(text) == Some(([v] + items, rest))
  {
    var tail := [','] + others;
    SkipNothing(tail);
    assert tail[1..] == others;
  }

  lemma {:induction false} ItemsReadBack(items: seq<Value>, shield: bool, rest: string)
    requires items != [] && (forall i :: 0 <= i < |items| ==> WellFormed(items[i])) && Delimited(rest)
    ensures ParseItems(PrintItems(items, shield) + rest) == Some((items, rest))
    decreases items, 0
  {
    var text := PrintItems(items, shield) + rest;
    if |items| == 1 {
      Associate(Print(items[0], shield), [']'], rest);
      ReadsBack(items[0], shield, [']'] + rest);
      LastItem(text, items[0], rest);
      assert [items[0]] == items;
    } else {
      var others := PrintItems(items[1..], shield) + rest;
      Associate(Print(items[0], shield), [','] + PrintItems(items[1..], shield), rest);
      Associate([','], PrintItems(items[1..], shield), rest);
      ReadsBack(items[0], shield, [','] + others);
      PrintItemsStarts(items[1..], shield);
      SkipNothing(others);
      ItemsReadBack(items[1..], shield, rest);
      AnotherItem(text, items[0], others, items[1..], rest);
      assert [items[0]] + items[1..] == items;
    }
  }

  lemma PrintItemsStarts(items: seq<Value>, shield: bool)
    requires items != []
    ensures PrintItems(items, shield) != "" && !IsSpace(PrintItems(items, shield)[0])
  {
    PrintStarts(items[0], shield);
  }

  predicate DistinctKeys(members: seq<Member>) {
    forall i, j :: 0 <= i < j < |members| ==> members[i].key != members[j].key
  }

  lemma {:induction false} PutNew(members: seq<Member>, m: Member)
    requires forall i :: 0 <= i < |members| ==> members[i].key != m.key
    ensures Put(members, m) == members + [m]
  {
    if members != [] {
      PutNew(members[1..], m);
      assert [members[0]] + (members[1..] + [m]) == members + [m];
    }
  }

  lemma {:induction false} ObjectReadsBack(members: seq<Member>, shield: bool, rest: string)
    requires (forall i :: 0 <= i < |members| ==> WellFormed(members[i].value)) &&
             DistinctKeys(members) && Delimited(rest)
    ensures ParseValue(Print(Obj(members), shield) + rest) == Some((Obj(members), rest))
    decreases members, 3
  {
    if members == [] {
      EmptyObject(shield, rest);
    } else {
      assert [] + members == members;
      MembersReadBack([], members, shield, rest);
      BracedMembers(members, shield, rest);
    }
  }

  lemma EmptyObject(shield: bool, rest: string)
    ensures ParseValue(Print(Obj([]), shield) + rest) == Some((Obj([]), rest))
  {
    var text, tail := "{}" + rest, ['}'] + rest;
    assert text[1..] == tail && tail[1..] == rest;
    SkipNothing(tail);
  }

  lemma BracedMembers(members: seq<Member>, shield: bool, rest: string)
    requires members != [] && ParseMembers(PrintMembers(members, shield) + rest, []) == Some((members, rest))
    ensures ParseValue(Print(Obj(members), shield) + rest) == Some((Obj(members), rest))
  {
    var body := PrintMembers(members, shield) + rest;
    PrintMembersStarts(members, shield);
    SkipNothing(body);
    OpenBrace(body, members, rest);
    Associate(['{'], PrintMembers(members, shield), rest);
  }

  lemma PrintMembersStarts(members: seq<Member>, shield: bool)
    requires members != []
    ensures PrintMembers(members, shield) != "" && PrintMembers(members, shield)[0] == '\"'
  {
  }

  lemma OpenBrace(body: string, members: seq<Member>, rest: string)
    requires Skip(body) == body && body != "" && body[0] == '\"' && ParseMembers(body, []) == Some((members, rest))
    ensures ParseValue(['{'] + body) == Some((Obj(members), rest))
  {
    assert (['{'] + body)[1..] == body;
  }

  lemma MembersText(members: seq<Member>, shield: bool, rest: string)
    requires members != []
    ensures PrintMembers(members, shield) + rest ==
            Quote(members[0].key, shield) + ([':'] +
              (Print(members[0].value, shield) + (MembersTail(members, shield) + rest)))
  {
    var value, tail := Print(members[0].value, shield), MembersTail(members, shield);
    Associate(Quote(members[0].key, shield), [':'] + (value + tail), rest);
    Associate([':'], value + tail, rest);
    Associate(value, tail, rest);
  }

  /** One member read from `text`, with a comma and the others after it. */
  lemma AnotherMember(text: string, m: Member, others: string, before: seq<Member>, r: (seq<Member>, string))
    requires ParseMember(text) == Some((m, [','] + others)) && Skip(others) == others
    requires ParseMembers(others, Put(before, m)) == Some(r)
    ensures ParseMembers(text, before) == Some(r)
  {
    var tail := [','] + others;
    SkipNothing(tail);
    assert tail[1..] == others;
  }

  lemma LastMember(text: string, m: Member, rest: string, before: seq<Member>)
    requires ParseMember(text) == Some((m, ['}'] + rest))
    ensures ParseMembers(text, before) == Some((Put(before, m), rest))
  {
    var tail := ['}'] + rest;
    SkipNothing(tail);
    assert tail[1..] == rest;
  }

  lemma {:induction false} MemberReadsBack(m: Member, shield: bool, tail: string)
    requires WellFormed(m.value) && Delimited(tail)
    ensures ParseMember(Quote(m.key, shield) + ([':'] + (Print(m.value, shield) + tail))) == Some((m, tail))
    decreases m, 2
  {
    var value := Print(m.value, shield) + tail;
    QuoteReadsBack(m.key, shield, [':'] + value);
    assert ([':'] + value)[1..] == value;
    SkipNothing([':'] + value);
    PrintStarts(m.value, shield);
    assert value[0] == Print(m.value, shield)[0];
    SkipNothing(value);
    ReadsBack(m.value, shield, tail);
  }

  lemma PutNext(before: seq<Member>, members: seq<Member>)
    requires members != [] && DistinctKeys(before + members)
    ensures Put(before, members[0]) == before + [members[0]]
    ensures before + [members[0]] + members[1..] == before + members
  {
    var all := before + members;
    assert all[|before|] == members[0];
    forall i | 0 <= i < |before|
      ensures before[i].key != members[0].key
    {
      assert all[i] == before[i];
    }
    PutNew(before, members[0]);
  }

  lemma {:induction false} MembersReadBack(before: seq<Member>, members: seq<Member>, shield: bool, rest: string)
    requires members != [] && (forall i :: 0 <= i < |members| ==> WellFormed(members[i].value))
    requires DistinctKeys(before + members) && Delimited(rest)
    ensures ParseMembers(PrintMembers(members, shield) + rest, before) == Some((before + members, rest))
    decreases members, 2
  {
    var m := members[0];
    var text := PrintMembers(members, shield) + rest;
    MembersText(members, shield, rest);
    PutNext(before, members);
    MemberReadsBack(m, shield, MembersTail(members, shield) + rest);
    if |members| == 1 {
      LastMember(text, m, rest, before);
      assert before + [m] == before + members;
    } else {
      var others := PrintMembers(members[1..], shield) + rest;
      Associate([','], PrintMembers(members[1..], shield), rest);
      PrintMembersStarts(members[1..], shield);
      SkipNothing(others);
      MembersReadBack(before + [m], members[1..], shield, rest);
      AnotherMember(text, m, others, before, (before + members, rest));
    }
  }

  lemma DecodesBack(v: Value, shield: bool)
    requires WellFormed(v)
    ensures Decode(Print(v, shield)) == Some(v)
  {
    PrintStarts(v, shield);
    SkipNothing(Print(v, shield));
    assert Print(v, shield) + "" == Print(v, shield);
    ReadsBack(v, shield, "");
  }

  /** Shielding preserves meaning: the text decodes to the same value and has no markup left. */
  lemma {:induction false} ShieldingPreservesMeaning(v: Value)
    requires WellFormed(v)
    ensures Decode(Dumps(v)) == Some(v)
    ensures Decode(Shield(Dumps(v))) == Some(v)
    ensures NoMarkup(Shield(Dumps(v)))
  {
    ShieldPrint(v);
    DecodesBack(v, false);
    DecodesBack(v, true);
  }
}
