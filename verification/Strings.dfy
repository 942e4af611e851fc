/** Strings as Go compares, sorts, joins and splits them: byte by byte. */
module Strings {

  const NUL: char := '\0'

  /** The order of Go's `<=` on strings. */
  predicate Le(a: string, b: string) {
    if a == "" then true
    else if b == "" then false
    else if a[0] != b[0] then a[0] < b[0]
    else Le(a[1..], b[1..])
  }

  lemma {:induction false} LeTotal(a: string, b: string)
    ensures Le(a, b) || Le(b, a)
  {
    if a != "" && b != "" && a[0] == b[0] {
      LeTotal(a[1..], b[1..]);
    }
  }

  lemma {:induction false} LeTransitive(a: string, b: string, c: string)
    requires Le(a, b) && Le(b, c)
    ensures Le(a, c)
  {
    if a != "" && a[0] == b[0] && b[0] == c[0] {
      LeTransitive(a[1..], b[1..], c[1..]);
    }
  }

  lemma {:induction false} LeAntisymmetric(a: string, b: string)
    requires Le(a, b) && Le(b, a)
    ensures a == b
  {
    if a != "" {
      LeAntisymmetric(a[1..], b[1..]);
      assert a == [a[0]] + a[1..] && b == [b[0]] + b[1..];
    }
  }

  /** Strictly less, Go's `<`. */
  predicate Lt(a: string, b: string) {
    Le(a, b) && a != b
  }

  /** strings.Join with a one-character separator. */
  function Join(parts: seq<string>, sep: char): string {
    if |parts| == 0 then ""
    else if |parts| == 1 then parts[0]
    else parts[0] + [sep] + Join(parts[1..], sep)
  }

  /** strings.IndexByte, with |s| when c does not occur. */
  function IndexOf(s: string, c: char): (n: nat)
    ensures n <= |s|
    ensures c !in s[..n]
    ensures n < |s| ==> s[n] == c
  {
    if s == "" || s[0] == c then 0
    else
      var n := IndexOf(s[1..], c) + 1;
      assert s[..n] == [s[0]] + s[1..][..n - 1];
      n
  }

  lemma {:induction false} IndexOfPiece(x: string, u: string, c: char)
    requires c !in x
    requires u == "" || u[0] == c
    ensures IndexOf(x + u, c) == |x|
  {
    if x == "" {
      assert x + u == u;
    } else {
      assert (x + u)[1..] == x[1..] + u;
      IndexOfPiece(x[1..], u, c);
    }
  }

  /** Two pieces free of c, each followed by the end or by c, that make one
      string are the same piece. */
  lemma FirstPieceUnique(x: string, u: string, y: string, v: string, c: char)
    requires c !in x && c !in y
    requires u == "" || u[0] == c
    requires v == "" || v[0] == c
    requires x + u == y + v
    ensures x == y && u == v
  {
    IndexOfPiece(x, u, c);
    IndexOfPiece(y, v, c);
    assert x == (x + u)[..|x|] == y;
    assert u == (x + u)[|x|..] == v;
  }

  /** What follows the first part in a join. */
  function AfterFirst(parts: seq<string>, sep: char): string
    requires |parts| > 0
  {
    if |parts| == 1 then "" else [sep] + Join(parts[1..], sep)
  }

  lemma JoinFirst(parts: seq<string>, sep: char)
    requires |parts| > 0
    ensures Join(parts, sep) == parts[0] + AfterFirst(parts, sep)
    ensures parts[0] != "" ==> Join(parts, sep) != ""
  {
    var u := AfterFirst(parts, sep);
    if |parts| == 1 {
      assert parts[0] + u == parts[0];
    } else {
      assert parts[0] + [sep] + Join(parts[1..], sep) == parts[0] + u;
    }
  }

  lemma SameAfterFirst(a: seq<string>, b: seq<string>, sep: char)
    requires |a| > 0 && |b| > 0 && AfterFirst(a, sep) == AfterFirst(b, sep)
    ensures |a| == 1 <==> |b| == 1
    ensures |a| > 1 ==> Join(a[1..], sep) == Join(b[1..], sep)
  {
    if |a| > 1 {
      assert AfterFirst(a, sep)[1..] == Join(a[1..], sep);
      assert AfterFirst(b, sep)[1..] == Join(b[1..], sep);
    }
  }

  predicate PartsOf(parts: seq<string>, sep: char) {
    forall i :: 0 <= i < |parts| ==> parts[i] != "" && sep !in parts[i]
  }

  /** Parts that are nonempty and free of the separator can be read back from
      their join. */
  lemma {:induction false} JoinInjective(a: seq<string>, b: seq<string>, sep: char)
    requires PartsOf(a, sep) && PartsOf(b, sep)
    requires Join(a, sep) == Join(b, sep)
    ensures a == b
  {
    if a != [] { JoinFirst(a, sep); }
    if b != [] { JoinFirst(b, sep); }
    if a != [] && b != [] {
      hide Join;
      FirstPieceUnique(a[0], AfterFirst(a, sep), b[0], AfterFirst(b, sep), sep);
      SameAfterFirst(a, b, sep);
      if |a| > 1 {
        assert PartsOf(a[1..], sep) && PartsOf(b[1..], sep);
        JoinInjective(a[1..], b[1..], sep);
      }
      assert a == [a[0]] + a[1..] && b == [b[0]] + b[1..];
    }
  }

  /** strings.Split at a one-character separator. */
  function Split(s: string, sep: char): (parts: seq<string>)
    ensures |parts| >= 1
    decreases |s|
  {
    var n := IndexOf(s, sep);
    if n == |s| then [s] else [s[..n]] + Split(s[n + 1..], sep)
  }

  lemma SplitLast(x: string, sep: char)
    requires sep !in x
    ensures Split(x, sep) == [x]
  {
    IndexOfPiece(x, "", sep);
    assert x + "" == x;
  }

  lemma SplitFirst(x: string, rest: string, sep: char)
    requires sep !in x
    ensures Split(x + [sep] + rest, sep) == [x] + Split(rest, sep)
  {
    var s := x + ([sep] + rest);
    assert s == x + [sep] + rest;
    IndexOfPiece(x, [sep] + rest, sep);
    assert s[..|x|] == x && s[|x| + 1..] == rest;
  }

  lemma {:induction false} SplitJoin(parts: seq<string>, sep: char)
    requires |parts| >= 1
    requires forall p :: p in parts ==> sep !in p
    ensures Split(Join(parts, sep), sep) == parts
  {
    if |parts| == 1 {
      SplitLast(parts[0], sep);
    } else {
      SplitFirst(parts[0], Join(parts[1..], sep), sep);
      SplitJoin(parts[1..], sep);
    }
  }

  /** A common prefix does not change the order of two strings. */
  lemma {:induction false} LePrefix(p: string, a: string, b: string)
    ensures Le(p + a, p + b) <==> Le(a, b)
  {
    if p == "" {
      assert p + a == a && p + b == b;
    } else {
      assert (p + a)[1..] == p[1..] + a && (p + b)[1..] == p[1..] + b;
      LePrefix(p[1..], a, b);
    }
  }

  function LowerChar(c: char): char {
    if 'A' <= c <= 'Z' then ((c as int) + 32) as char else c
  }

  /** strings.ToLower on ASCII. */
  function ToLower(s: string): (r: string)
    ensures |r| == |s|
    ensures forall i :: 0 <= i < |s| ==> r[i] == LowerChar(s[i])
  {
    if s == "" then "" else [LowerChar(s[0])] + ToLower(s[1..])
  }
}
