/**
 Redaction of audit details. `fold` stands for case folding, which can be any function here.
 A mapping is the sequence of its items, since a dictionary keeps insertion order.
 */
module Redaction {
  import opened Common

  /** `text` is what `str` gives for the key; keys of other types may print alike. */
  datatype Key = StringKey(text: string) | OtherKey(text: string, identity: nat)

  datatype Tree =
    | Text(text: string)
    | Opaque(identity: nat)  // numbers, None, and objects of any other type
    | Mapping(entries: seq<(Key, Tree)>)
    | ListOf(items: seq<Tree>)
    | TupleOf(items: seq<Tree>)

  type Fold = string -> string

  const REDACTED := Text("[REDACTED]")

  const SENSITIVE_KEYS := ["token", "device_token", "access_token", "refresh_token", "api_key", "apikey", "password",
                           "passwd", "secret", "client_secret", "authorization", "cookie", "set_cookie"]

  const MARKERS := ["token", "api_key", "apikey", "password", "passwd", "secret"]

  function Underscored(s: string): string {
    seq(|s|, i requires 0 <= i < |s| => if s[i] == '-' then '_' else s[i])
  }

  predicate Occurs(marker: string, s: string) {
    exists i | 0 <= i <= |s| :: marker <= s[i..]
  }

  predicate IsSensitive(key: Key, fold: Fold) {
    var name := Underscored(fold(key.text));
    name in SENSITIVE_KEYS || exists m | m in MARKERS :: Occurs(m, name)
  }

  function Redact(t: Tree, fold: Fold): Tree {
    match t
    case Mapping(entries) =>
      Mapping(seq(|entries|, i requires 0 <= i < |entries| =>
        (entries[i].0, if IsSensitive(entries[i].0, fold) then REDACTED else Redact(entries[i].1, fold))))
    case ListOf(items) => ListOf(seq(|items|, i requires 0 <= i < |items| => Redact(items[i], fold)))
    case TupleOf(items) => TupleOf(seq(|items|, i requires 0 <= i < |items| => Redact(items[i], fold)))
    case _ => t
  }

  predicate IsSeparator(c: char) { c == '-' || c == '_' }

  /** The two names differ at most in having `-` where the other has `_`. */
  predicate SameUpToHyphens(a: string, b: string) {
    |a| == |b| && forall i | 0 <= i < |a| :: a[i] == b[i] || (IsSeparator(a[i]) && IsSeparator(b[i]))
  }

  /** The two separators are not told apart, and everything else is. */
  lemma UnderscoredIff(a: string, b: string)
    ensures Underscored(a) == Underscored(b) <==> SameUpToHyphens(a, b)
    ensures Underscored(a) == a <==> '-' !in a
  {
    if Underscored(a) == Underscored(b) {
      assert |a| == |Underscored(a)| == |Underscored(b)| == |b|;
      forall i | 0 <= i < |a|
        ensures a[i] == b[i] || (IsSeparator(a[i]) && IsSeparator(b[i]))
      {
        assert Underscored(a)[i] == Underscored(b)[i];
      }
    }
    if '-' !in a {
      assert Underscored(a) == a;
    } else {
      var i :| 0 <= i < |a| && a[i] == '-';
      assert Underscored(a)[i] != a[i];
    }
    if SameUpToHyphens(a, b) {
      assert Underscored(a) == Underscored(b);
    }
  }

  lemma HyphensDoNotMatter(a: Key, b: Key, fold: Fold)
    requires SameUpToHyphens(fold(a.text), fold(b.text))
    ensures IsSensitive(a, fold) == IsSensitive(b, fold)
  {
    UnderscoredIff(fold(a.text), fold(b.text));
  }

  predicate HasMarker(name: string) {
    || Occurs("token", name) || Occurs("api_key", name) || Occurs("apikey", name)
    || Occurs("password", name) || Occurs("passwd", name) || Occurs("secret", name)
  }

  lemma MarkersAre(name: string)
    ensures (exists m | m in MARKERS :: Occurs(m, name)) <==> HasMarker(name)
  {
    assert MARKERS == ["token", "api_key", "apikey", "password", "passwd", "secret"];
    assert forall i | 0 <= i < 6 :: MARKERS[i] in MARKERS;
    assert MARKERS[0] == "token" && MARKERS[1] == "api_key" && MARKERS[2] == "apikey";
    assert MARKERS[3] == "password" && MARKERS[4] == "passwd" && MARKERS[5] == "secret";
  }

  lemma OccursAt(marker: string, name: string, i: nat)
    requires i <= |name| && marker <= name[i..]
    ensures Occurs(marker, name)
  {
  }

  /** All listed keys but three contain a marker anyway. */
  lemma ListedKeysAreMarked(name: string)
    requires name in SENSITIVE_KEYS && name !in ["authorization", "cookie", "set_cookie"]
    ensures HasMarker(name)
  {
    if name == "device_token" || name == "access_token" {
      OccursAt("token", name, 7);
    } else if name == "refresh_token" {
      OccursAt("token", name, 8);
    } else if name == "client_secret" {
      OccursAt("secret", name, 7);
    } else {
      OccursAt(name, name, 0);
    }
  }

  /** The rule in full: one of six markers inside the name, or one of three names. */
  lemma SensitiveIff(key: Key, fold: Fold)
    ensures var name := Underscored(fold(key.text));
            IsSensitive(key, fold) <==> HasMarker(name) || name in ["authorization", "cookie", "set_cookie"]
  {
    var name := Underscored(fold(key.text));
    MarkersAre(name);
    if name in SENSITIVE_KEYS && name !in ["authorization", "cookie", "set_cookie"] {
      ListedKeysAreMarked(name);
    }
  }

  /** The two trees differ at most beneath sensitive keys. */
  predicate LowEqual(a: Tree, b: Tree, fold: Fold) {
    match (a, b)
    case (Mapping(xs), Mapping(ys)) =>
      |xs| == |ys| && forall i | 0 <= i < |xs| ::
        xs[i].0 == ys[i].0 && (!IsSensitive(xs[i].0, fold) ==> LowEqual(xs[i].1, ys[i].1, fold))
    case (ListOf(xs), ListOf(ys)) => |xs| == |ys| && forall i | 0 <= i < |xs| :: LowEqual(xs[i], ys[i], fold)
    case (TupleOf(xs), TupleOf(ys)) => |xs| == |ys| && forall i | 0 <= i < |xs| :: LowEqual(xs[i], ys[i], fold)
    case _ => a == b
  }

  /** Noninterference, and its converse: redaction hides what is beneath sensitive keys and nothing else. */
  lemma {:induction false} RedactionHidesExactly(a: Tree, b: Tree, fold: Fold)
    ensures Redact(a, fold) == Redact(b, fold) <==> LowEqual(a, b, fold)
    decreases a, 1
  {
    match (a, b)
    case (Mapping(xs), Mapping(ys)) =>
      var rx, ry := Redact(a, fold).entries, Redact(b, fold).entries;
      forall i | 0 <= i < |xs| && i < |ys| && xs[i].0 == ys[i].0 && !IsSensitive(xs[i].0, fold)
        ensures rx[i] == ry[i] <==> LowEqual(xs[i].1, ys[i].1, fold)
      {
        RedactionHidesExactly(xs[i].1, ys[i].1, fold);
      }
      if rx == ry {
        forall i | 0 <= i < |xs|
          ensures xs[i].0 == ys[i].0 && (!IsSensitive(xs[i].0, fold) ==> LowEqual(xs[i].1, ys[i].1, fold))
        {
          assert rx[i] == ry[i];
        }
      }
    case (ListOf(xs), ListOf(ys)) =>
      RedactionHidesItems(a, b, xs, ys, fold);
    case (TupleOf(xs), TupleOf(ys)) =>
      RedactionHidesItems(a, b, xs, ys, fold);
    case _ =>
  }

  lemma {:induction false} RedactionHidesItems(a: Tree, b: Tree, xs: seq<Tree>, ys: seq<Tree>, fold: Fold)
    requires (a == ListOf(xs) && b == ListOf(ys)) || (a == TupleOf(xs) && b == TupleOf(ys))
    ensures Redact(a, fold) == Redact(b, fold) <==> LowEqual(a, b, fold)
    decreases a, 0
  {
    var rx, ry := Redact(a, fold).items, Redact(b, fold).items;
    forall i | 0 <= i < |xs| && i < |ys|
      ensures rx[i] == ry[i] <==> LowEqual(xs[i], ys[i], fold)
    {
      RedactionHidesExactly(xs[i], ys[i], fold);
    }
    if rx == ry {
      assert forall i | 0 <= i < |xs| :: rx[i] == ry[i];
    }
  }

  /** Nothing but the placeholder is left beneath a sensitive key. */
  predicate Clean(t: Tree, fold: Fold) {
    match t
    case Mapping(entries) =>
      forall i | 0 <= i < |entries| ::
        if IsSensitive(entries[i].0, fold) then entries[i].1 == REDACTED else Clean(entries[i].1, fold)
    case ListOf(items) => forall i | 0 <= i < |items| :: Clean(items[i], fold)
    case TupleOf(items) => forall i | 0 <= i < |items| :: Clean(items[i], fold)
    case _ => true
  }

  lemma {:induction false} RedactedIsClean(t: Tree, fold: Fold)
    ensures Clean(Redact(t, fold), fold)
  {
    match t
    case Mapping(entries) =>
      forall i | 0 <= i < |entries| && !IsSensitive(entries[i].0, fold)
        ensures Clean(Redact(entries[i].1, fold), fold)
      {
        RedactedIsClean(entries[i].1, fold);
      }
    case Text(_) =>
    case Opaque(_) =>
    case _ =>
      forall i | 0 <= i < |t.items|
        ensures Clean(Redact(t.items[i], fold), fold)
      {
        RedactedIsClean(t.items[i], fold);
      }
  }

  /** Redaction leaves exactly the clean trees alone. */
  lemma {:induction false} FixedIffClean(t: Tree, fold: Fold)
    ensures Redact(t, fold) == t <==> Clean(t, fold)
  {
    match t
    case Mapping(entries) =>
      var redacted := Redact(t, fold).entries;
      forall i | 0 <= i < |entries| && !IsSensitive(entries[i].0, fold)
        ensures redacted[i] == entries[i] <==> Clean(entries[i].1, fold)
      {
        FixedIffClean(entries[i].1, fold);
      }
      if redacted == entries {
        assert forall i | 0 <= i < |entries| :: redacted[i] == entries[i];
      }
    case Text(_) =>
    case Opaque(_) =>
    case _ =>
      var redacted := Redact(t, fold).items;
      forall i | 0 <= i < |t.items|
        ensures redacted[i] == t.items[i] <==> Clean(t.items[i], fold)
      {
        FixedIffClean(t.items[i], fold);
      }
      if redacted == t.items {
        assert forall i | 0 <= i < |t.items| :: redacted[i] == t.items[i];
      }
  }

  lemma {:induction false} RedactionIsIdempotent(t: Tree, fold: Fold)
    ensures Redact(Redact(t, fold), fold) == Redact(t, fold)
  {
    RedactedIsClean(t, fold);
    FixedIffClean(Redact(t, fold), fold);
  }

  /** Key order, lengths and values are kept everywhere but beneath sensitive keys. */
  lemma {:induction false} RestIsKept(t: Tree, fold: Fold)
    ensures LowEqual(t, Redact(t, fold), fold)
  {
    RedactionIsIdempotent(t, fold);
    RedactionHidesExactly(t, Redact(t, fold), fold);
  }

  // ---------------------------------------------------------------- positions

  /** The subtree at a path of positions. */
  function At(t: Tree, path: seq<nat>): Option<Tree>
    decreases |path|
  {
    if path == [] then Some(t)
    else match t
      case Mapping(entries) => if path[0] < |entries| then At(entries[path[0]].1, path[1..]) else None
      case ListOf(items) => if path[0] < |items| then At(items[path[0]], path[1..]) else None
      case TupleOf(items) => if path[0] < |items| then At(items[path[0]], path[1..]) else None
      case _ => None
  }

  /** How many positions of the path lie beneath the first sensitive key it crosses. */
  function Beneath(t: Tree, path: seq<nat>, fold: Fold): Option<nat>
    decreases |path|
  {
    if path == [] then None
    else match t
      case Mapping(entries) =>
        if path[0] >= |entries| then None
        else if IsSensitive(entries[path[0]].0, fold) then Some(|path| - 1)
        else Beneath(entries[path[0]].1, path[1..], fold)
      case ListOf(items) => if path[0] < |items| then Beneath(items[path[0]], path[1..], fold) else None
      case TupleOf(items) => if path[0] < |items| then Beneath(items[path[0]], path[1..], fold) else None
      case _ => None
  }

  /**
   Outside sensitive keys every subtree stays where it was; a sensitive key holds the
   placeholder; and beneath it there is nothing.
   */
  lemma {:induction false} RedactedAt(t: Tree, path: seq<nat>, fold: Fold)
    ensures At(Redact(t, fold), path) ==
            match Beneath(t, path, fold)
            case None => (match At(t, path) case Some(sub) => Some(Redact(sub, fold)) case None => None)
            case Some(depth) => if depth == 0 then Some(REDACTED) else None
    decreases |path|
  {
    if path != [] {
      match t
      case Mapping(entries) =>
        if path[0] < |entries| && !IsSensitive(entries[path[0]].0, fold) {
          RedactedAt(entries[path[0]].1, path[1..], fold);
        }
      case Text(_) =>
      case Opaque(_) =>
      case _ =>
        if path[0] < |t.items| {
          RedactedAt(t.items[path[0]], path[1..], fold);
        }
    }
  }
}
