/**
 Where the markup characters of printed JSON can stand: only inside string literals, and
 never right after an unfinished escape, so replacing them cannot break the text.
 */
module JsonLexing {
  import opened Json

  /** What the text read so far leaves open. */
  datatype Lex = Outside | Inside | Escaping

  function Advance(q: Lex, c: char): Lex {
    match q
    case Outside => if c == '\"' then Inside else Outside
    case Inside => if c == '\\' then Escaping else if c == '\"' then Outside else Inside
    case Escaping => Inside
  }

  function Scan(q: Lex, text: string): Lex
    decreases |text|
  {
    if text == "" then q else Scan(Advance(q, text[0]), text[1..])
  }

  /** Reading `text` from `q`, every markup character is met inside a literal. */
  predicate MarkupInside(q: Lex, text: string)
    decreases |text|
  {
    text == "" || ((IsMarkup(text[0]) ==> q.Inside?) && MarkupInside(Advance(q, text[0]), text[1..]))
  }

  lemma {:induction false} MarkupInsideAt(q: Lex, text: string, i: nat)
    requires MarkupInside(q, text) && i < |text| && IsMarkup(text[i])
    ensures Scan(q, text[..i]).Inside?
    decreases i
  {
    if i > 0 {
      assert text[..i][0] == text[0] && text[..i][1..] == text[1..][..i - 1];
      MarkupInsideAt(Advance(q, text[0]), text[1..], i - 1);
    }
  }

  lemma {:induction false} ScanConcat(q: Lex, a: string, b: string)
    ensures Scan(q, a + b) == Scan(Scan(q, a), b)
    ensures MarkupInside(q, a) && MarkupInside(Scan(q, a), b) ==> MarkupInside(q, a + b)
    decreases |a|
  {
    if a == "" {
      assert a + b == b;
    } else {
      assert (a + b)[1..] == a[1..] + b;
      ScanConcat(Advance(q, a[0]), a[1..], b);
    }
  }

  /** The text is closed from `q`: it comes back to `q`, with its markup inside literals. */
  predicate Closed(q: Lex, text: string) {
    Scan(q, text) == q && MarkupInside(q, text)
  }

  lemma ClosedConcat(q: Lex, a: string, b: string)
    requires Closed(q, a) && Closed(q, b)
    ensures Closed(q, a + b)
  {
    ScanConcat(q, a, b);
  }

  lemma {:induction false} ClosedPlain(text: string)
    requires forall i :: 0 <= i < |text| ==> text[i] != '\"' && !IsMarkup(text[i])
    ensures Closed(Outside, text)
  {
    if text != "" {
      ClosedPlain(text[1..]);
    }
  }

  /** Letters and digits after the `\u` of an escape neither open nor close anything. */
  lemma {:induction false} ClosedInside(text: string)
    requires forall i :: 0 <= i < |text| ==> text[i] != '\"' && text[i] != '\\'
    ensures Closed(Inside, text)
  {
    if text != "" {
      ClosedInside(text[1..]);
    }
  }

  lemma ClosedPair(c: char)
    requires !IsMarkup(c)
    ensures Closed(Inside, ['\\', c])
  {
    var pair, last := ['\\', c], [c];
    assert pair[1..] == last && last[1..] == "";
    assert Scan(Escaping, last) == Scan(Inside, "") == Inside;
    assert MarkupInside(Escaping, last);
  }

  lemma ClosedEscape(c: char)
    ensures Closed(Inside, Escape(c, false))
  {
    var e := Escape(c, false);
    if e == [c] {
      ClosedInside(e);
    } else {
      ClosedPair(e[1]);
      ClosedInside(e[2..]);
      assert e == ['\\', e[1]] + e[2..];
      ClosedConcat(Inside, ['\\', e[1]], e[2..]);
    }
  }

  lemma {:induction false} ClosedEscapeAll(s: string)
    ensures Closed(Inside, EscapeAll(s, false))
  {
    if s != "" {
      ClosedEscape(s[0]);
      ClosedEscapeAll(s[1..]);
      ClosedConcat(Inside, Escape(s[0], false), EscapeAll(s[1..], false));
    }
  }

  lemma ClosedQuote(s: string)
    ensures Closed(Outside, Quote(s, false))
  {
    var body := EscapeAll(s, false);
    ClosedEscapeAll(s);
    ScanConcat(Inside, body, ['\"']);
    assert ['\"'][1..] == "";
    var quoted := ['\"'] + (body + ['\"']);
    assert quoted[1..] == body + ['\"'];
    assert Quote(s, false) == quoted;
  }

  lemma {:induction false} ClosedPrint(v: Value)
    ensures Closed(Outside, Print(v, false))
    decreases v, 1
  {
    match v
    case Null => ClosedPlain("null");
    case Bool(b) => ClosedPlain(if b then "true" else "false");
    case Int(n) =>
      DigitsAreDigits(if n < 0 then -n else n);
      ClosedPlain(PrintInt(n));
    case Str(s) => ClosedQuote(s);
    case Arr(items) =>
      if items == [] { ClosedPlain("[]"); } else {
        ClosedItems(items);
        ClosedPlain(['[']);
        ClosedConcat(Outside, ['['], PrintItems(items, false));
      }
    case Obj(members) =>
      if members == [] { ClosedPlain("{}"); } else {
        ClosedMembers(members);
        ClosedPlain(['{']);
        ClosedConcat(Outside, ['{'], PrintMembers(members, false));
      }
  }

  lemma {:induction false} ClosedItems(items: seq<Value>)
    requires items != []
    ensures Closed(Outside, PrintItems(items, false))
    decreases items, 0
  {
    ClosedPrint(items[0]);
    var tail := if |items| == 1 then [']'] else [','] + PrintItems(items[1..], false);
    assert Closed(Outside, tail) by {
      if |items| == 1 {
        ClosedPlain([']']);
      } else {
        ClosedItems(items[1..]);
        ClosedPlain([',']);
        ClosedConcat(Outside, [','], PrintItems(items[1..], false));
      }
    }
    ClosedConcat(Outside, Print(items[0], false), tail);
  }

  lemma {:induction false} ClosedMembers(members: seq<Member>)
    requires members != []
    ensures Closed(Outside, PrintMembers(members, false))
    decreases members, 0
  {
    var m := members[0];
    ClosedQuote(m.key);
    ClosedPrint(m.value);
    var tail := MembersTail(members, false);
    assert Closed(Outside, tail) by {
      if |members| == 1 {
        ClosedPlain(['}']);
      } else {
        ClosedMembers(members[1..]);
        ClosedPlain([',']);
        ClosedConcat(Outside, [','], PrintMembers(members[1..], false));
      }
    }
    ClosedConcat(Outside, Print(m.value, false), tail);
    ClosedPlain([':']);
    ClosedConcat(Outside, [':'], Print(m.value, false) + tail);
    ClosedConcat(Outside, Quote(m.key, false), [':'] + (Print(m.value, false) + tail));
  }

  /** In printed JSON each `&`, `<` or `>` is a character of a literal, not half of an escape. */
  lemma MarkupOnlyInLiterals(v: Value, i: nat)
    requires i < |Dumps(v)| && IsMarkup(Dumps(v)[i])
    ensures Scan(Outside, Dumps(v)[..i]).Inside?
  {
    ClosedPrint(v);
    MarkupInsideAt(Outside, Dumps(v), i);
  }
}
