/**
 JSON as `json.dumps(..., ensure_ascii=False, separators=(",", ":"))` prints it, the shielding
 of `&`, `<` and `>` that follows, and the decoder that reads it back. Numbers are integers.
 */
module Json {
  datatype Value =
    | Null
    | Bool(b: bool)
    | Int(n: int)
    | Str(s: string)
    | Arr(items: seq<Value>)
    | Obj(members: seq<Member>)

  datatype Member = Member(key: string, value: Value)

  /** Object keys are distinct, as in any dictionary. */
  predicate WellFormed(v: Value)
    decreases v
  {
    match v
    case Arr(items) => forall i :: 0 <= i < |items| ==> WellFormed(items[i])
    case Obj(members) =>
      && (forall i :: 0 <= i < |members| ==> WellFormed(members[i].value))
      && (forall i, j :: 0 <= i < j < |members| ==> members[i].key != members[j].key)
    case _ => true
  }

  // ---------------------------------------------------------------- printing

  function HexDigit(n: nat): char
    requires n < 16
  {
    if n < 10 then (n + 48) as char else (n + 87) as char
  }

  function Unicode(n: nat): string
    requires n < 256
  {
    ['\\', 'u', '0', '0', HexDigit(n / 16), HexDigit(n % 16)]
  }

  /** One character inside a string literal; `shield` also escapes the three markup characters. */
  function Escape(c: char, shield: bool): string {
    if c == '\"' then "\\\""
    else if c == '\\' then "\\\\"
    else if c == '\n' then "\\n"
    else if c == '\r' then "\\r"
    else if c == '\t' then "\\t"
    else if c as int == 12 then "\\f"
    else if c as int == 8 then "\\b"
    else if c as int < 32 then Unicode(c as int)
    else if shield && c == '&' then "\\u0026"
    else if shield && c == '<' then "\\u003c"
    else if shield && c == '>' then "\\u003e"
    else [c]
  }

  function EscapeAll(s: string, shield: bool): string {
    if s == "" then "" else Escape(s[0], shield) + EscapeAll(s[1..], shield)
  }

  function Quote(s: string, shield: bool): string {
    ['\"'] + EscapeAll(s, shield) + ['\"']
  }

  function Digits(n: nat): string {
    if n < 10 then [HexDigit(n)] else Digits(n / 10) + [HexDigit(n % 10)]
  }

  function PrintInt(n: int): string {
    if n < 0 then ['-'] + Digits(-n) else Digits(n)
  }

  function Print(v: Value, shield: bool): string
    decreases v, 1
  {
    match v
    case Null => "null"
    case Bool(b) => if b then "true" else "false"
    case Int(n) => PrintInt(n)
    case Str(s) => Quote(s, shield)
    case Arr(items) => if items == [] then "[]" else ['['] + PrintItems(items, shield)
    case Obj(members) => if members == [] then "{}" else ['{'] + PrintMembers(members, shield)
  }

  /** The items, separated by commas, with the closing bracket. */
  function PrintItems(items: seq<Value>, shield: bool): string
    requires items != []
    decreases items, 0
  {
    Print(items[0], shield) + if |items| == 1 then [']'] else [','] + PrintItems(items[1..], shield)
  }

  function PrintMembers(members: seq<Member>, shield: bool): string
    requires members != []
    decreases members, 0
  {
    var value := members[0].value;
    var tail := if |members| == 1 then ['}'] else [','] + PrintMembers(members[1..], shield);
    Quote(members[0].key, shield) + ([':'] + (Print(value, shield) + tail))
  }

  function Dumps(v: Value): string { Print(v, false) }

  // ---------------------------------------------------------------- shielding

  /** `str.replace` of one character. */
  function Replace(s: string, c: char, with: string): string {
    if s == "" then "" else (if s[0] == c then with else [s[0]]) + Replace(s[1..], c, with)
  }

  /** The three replacements, in the order the source makes them. */
  function Shield(s: string): string {
    Replace(Replace(Replace(s, '&', "\\u0026"), '<', "\\u003c"), '>', "\\u003e")
  }

  predicate IsMarkup(c: char) { c == '&' || c == '<' || c == '>' }

  predicate NoMarkup(s: string) {
    forall i :: 0 <= i < |s| ==> !IsMarkup(s[i])
  }

  lemma {:induction false} ReplaceConcat(a: string, b: string, c: char, with: string)
    ensures Replace(a + b, c, with) == Replace(a, c, with) + Replace(b, c, with)
  {
    if a == "" {
      assert a + b == b;
    } else {
      assert (a + b)[1..] == a[1..] + b;
      ReplaceConcat(a[1..], b, c, with);
    }
  }

  lemma ShieldConcat(a: string, b: string)
    ensures Shield(a + b) == Shield(a) + Shield(b)
  {
    ReplaceConcat(a, b, '&', "\\u0026");
    var a1, b1 := Replace(a, '&', "\\u0026"), Replace(b, '&', "\\u0026");
    ReplaceConcat(a1, b1, '<', "\\u003c");
    ReplaceConcat(Replace(a1, '<', "\\u003c"), Replace(b1, '<', "\\u003c"), '>', "\\u003e");
  }

  lemma {:induction false} ReplaceAbsent(s: string, c: char, with: string)
    requires forall i :: 0 <= i < |s| ==> s[i] != c
    ensures Replace(s, c, with) == s
  {
    if s != "" {
      ReplaceAbsent(s[1..], c, with);
    }
  }

  lemma ShieldPlain(s: string)
    requires NoMarkup(s)
    ensures Shield(s) == s
  {
    ReplaceAbsent(s, '&', "\\u0026");
    ReplaceAbsent(s, '<', "\\u003c");
    ReplaceAbsent(s, '>', "\\u003e");
  }

  lemma ReplaceOne(c: char, d: char, with: string)
    ensures Replace([c], d, with) == if c == d then with else [c]
  {
    assert [c][1..] == "";
  }

  predicate Without(s: string, c: char) {
    forall i :: 0 <= i < |s| ==> s[i] != c
  }

  /** Three replacements in a row, of different characters by texts that contain none of them. */
  lemma ReplaceThree(a: char, wa: string, b: char, wb: string, c: char, wc: string)
    requires a != b && a != c && b != c && Without(wa, b) && Without(wa, c) && Without(wb, c)
    ensures Replace(Replace(Replace([a], a, wa), b, wb), c, wc) == wa
    ensures Replace(Replace(Replace([b], a, wa), b, wb), c, wc) == wb
    ensures Replace(Replace(Replace([c], a, wa), b, wb), c, wc) == wc
  {
    ReplaceOne(a, a, wa);
    ReplaceAbsent(wa, b, wb);
    ReplaceAbsent(wa, c, wc);
    ReplaceOne(b, a, wa);
    ReplaceOne(b, b, wb);
    ReplaceAbsent(wb, c, wc);
    ReplaceOne(c, a, wa);
    ReplaceOne(c, b, wb);
    ReplaceOne(c, c, wc);
  }

  lemma ShieldMarkup(c: char)
    requires IsMarkup(c)
    ensures Shield([c]) == Escape(c, true)
  {
    ReplaceThree('&', "\\u0026", '<', "\\u003c", '>', "\\u003e");
  }

  lemma ShieldEscape(c: char)
    ensures Shield(Escape(c, false)) == Escape(c, true)
    ensures NoMarkup(Escape(c, true))
  {
    if IsMarkup(c) {
      ShieldMarkup(c);
    } else {
      ShieldPlain(Escape(c, false));
    }
  }

  lemma {:induction false} ShieldEscapeAll(s: string)
    ensures Shield(EscapeAll(s, false)) == EscapeAll(s, true)
    ensures NoMarkup(EscapeAll(s, true))
  {
    if s == "" {
      ShieldPlain("");
    } else {
      ShieldConcat(Escape(s[0], false), EscapeAll(s[1..], false));
      ShieldEscape(s[0]);
      ShieldEscapeAll(s[1..]);
    }
  }

  lemma ShieldQuote(s: string)
    ensures Shield(Quote(s, false)) == Quote(s, true)
    ensures NoMarkup(Quote(s, true))
  {
    ShieldConcat(['\"'] + EscapeAll(s, false), ['\"']);
    ShieldConcat(['\"'], EscapeAll(s, false));
    ShieldPlain(['\"']);
    ShieldEscapeAll(s);
  }

  lemma {:induction false} DigitsAreDigits(n: nat)
    ensures |Digits(n)| > 0 && forall i :: 0 <= i < |Digits(n)| ==> '0' <= Digits(n)[i] <= '9'
    ensures Digits(n)[0] == '0' ==> n == 0
  {
    if n >= 10 {
      DigitsAreDigits(n / 10);
    }
  }

  lemma ShieldInt(n: int)
    ensures Shield(PrintInt(n)) == PrintInt(n) && NoMarkup(PrintInt(n))
  {
    DigitsAreDigits(if n < 0 then -n else n);
    ShieldPlain(PrintInt(n));
  }

  /** Shielding the printed text is printing with shielded string literals. */
  lemma {:induction false} ShieldPrint(v: Value)
    ensures Shield(Print(v, false)) == Print(v, true) && NoMarkup(Print(v, true))
    decreases v, 1
  {
    match v
    case Null => ShieldPlain("null");
    case Bool(b) => ShieldPlain(if b then "true" else "false");
    case Int(n) => ShieldInt(n);
    case Str(s) => ShieldQuote(s);
    case Arr(items) =>
      if items == [] { ShieldPlain("[]"); } else {
        ShieldItems(items);
        ShieldConcat(['['], PrintItems(items, false));
        ShieldPlain(['[']);
      }
    case Obj(members) =>
      if members == [] { ShieldPlain("{}"); } else {
        ShieldMembers(members);
        ShieldConcat(['{'], PrintMembers(members, false));
        ShieldPlain(['{']);
      }
  }

  lemma {:induction false} ShieldItems(items: seq<Value>)
    requires items != []
    ensures Shield(PrintItems(items, false)) == PrintItems(items, true) && NoMarkup(PrintItems(items, true))
    decreases items, 0
  {
    ShieldPrint(items[0]);
    if |items| == 1 {
      ShieldConcat(Print(items[0], false), [']']);
      ShieldPlain([']']);
    } else {
      ShieldItems(items[1..]);
      ShieldConcat(Print(items[0], false), [','] + PrintItems(items[1..], false));
      ShieldConcat([','], PrintItems(items[1..], false));
      ShieldPlain([',']);
    }
  }

  lemma ShieldField(quoted: string, value: string, tail: string)
    ensures Shield(quoted + ([':'] + (value + tail))) == Shield(quoted) + ([':'] + (Shield(value) + Shield(tail)))
  {
    ShieldConcat(quoted, [':'] + (value + tail));
    ShieldConcat([':'], value + tail);
    ShieldConcat(value, tail);
    ShieldPlain([':']);
  }

  lemma PlainField(quoted: string, value: string, tail: string)
    requires NoMarkup(quoted) && NoMarkup(value) && NoMarkup(tail)
    ensures NoMarkup(quoted + ([':'] + (value + tail)))
  {
  }

  /** What follows a member: the closing brace, or a comma and the other members. */
  function MembersTail(members: seq<Member>, shield: bool): string
    requires members != []
    decreases members, 1
  {
    if |members| == 1 then ['}'] else [','] + PrintMembers(members[1..], shield)
  }

  lemma {:induction false} ShieldMembers(members: seq<Member>)
    requires members != []
    ensures Shield(PrintMembers(members, false)) == PrintMembers(members, true) && NoMarkup(PrintMembers(members, true))
    decreases members, 0
  {
    var m := members[0];
    ShieldQuote(m.key);
    ShieldPrint(m.value);
    assert Shield(MembersTail(members, false)) == MembersTail(members, true) &&
           NoMarkup(MembersTail(members, true)) by {
      if |members| == 1 {
        ShieldPlain(['}']);
      } else {
        ShieldMembers(members[1..]);
        ShieldConcat([','], PrintMembers(members[1..], false));
        ShieldPlain([',']);
      }
    }
    ShieldField(Quote(m.key, false), Print(m.value, false), MembersTail(members, false));
    PlainField(Quote(m.key, true), Print(m.value, true), MembersTail(members, true));
  }
}
