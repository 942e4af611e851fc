/** Sorting a list by an order given as a function, as sort.Slice does. */
module Sorting {

  ghost predicate TotalPreorder<T(!new)>(le: (T, T) -> bool) {
    && (forall a, b :: le(a, b) || le(b, a))
    && (forall a, b, c :: le(a, b) && le(b, c) ==> le(a, c))
  }

  ghost predicate Sorted<T(!new)>(s: seq<T>, le: (T, T) -> bool) {
    forall i, j :: 0 <= i < j < |s| ==> le(s[i], s[j])
  }

  function Insert<T>(x: T, s: seq<T>, le: (T, T) -> bool): (r: seq<T>)
    ensures multiset(r) == multiset(s) + multiset{x}
  {
    if s == [] then [x]
    else if le(x, s[0]) then [x] + s
    else
      assert s == [s[0]] + s[1..];
      [s[0]] + Insert(x, s[1..], le)
  }

  function Sort<T>(s: seq<T>, le: (T, T) -> bool): (r: seq<T>)
    ensures multiset(r) == multiset(s)
  {
    if s == [] then []
    else
      assert s == [s[0]] + s[1..];
      Insert(s[0], Sort(s[1..], le), le)
  }

  lemma SameElements<T>(s: seq<T>, r: seq<T>)
    requires multiset(r) == multiset(s)
    ensures |r| == |s|
    ensures forall x :: x in r <==> x in s
  {
    assert |multiset(r)| == |multiset(s)|;
    assert forall x :: x in r <==> x in multiset(r);
    assert forall x :: x in s <==> x in multiset(s);
  }

  lemma {:induction false} InsertSorted<T(!new)>(x: T, s: seq<T>, le: (T, T) -> bool)
    requires TotalPreorder(le) && Sorted(s, le)
    ensures Sorted(Insert(x, s, le), le)
  {
    if s == [] {
    } else if le(x, s[0]) {
      forall i, j | 0 <= i < j < |s| + 1 ensures le(([x] + s)[i], ([x] + s)[j]) {
        if i == 0 && j > 1 { assert le(s[0], s[j - 1]); }
      }
    } else {
      var tail := Insert(x, s[1..], le);
      InsertSorted(x, s[1..], le);
      var r := [s[0]] + tail;
      forall i, j | 0 <= i < j < |r| ensures le(r[i], r[j]) {
        if i == 0 {
          assert r[j] == tail[j - 1] && tail[j - 1] in multiset(tail);
          assert r[j] == x || r[j] in s[1..];
        } else {
          assert r[i] == tail[i - 1] && r[j] == tail[j - 1];
        }
      }
    }
  }

  lemma {:induction false} SortSorted<T(!new)>(s: seq<T>, le: (T, T) -> bool)
    requires TotalPreorder(le)
    ensures Sorted(Sort(s, le), le)
  {
    if s != [] {
      SortSorted(s[1..], le);
      InsertSorted(s[0], Sort(s[1..], le), le);
    }
  }

  lemma SameHead<T(!new)>(a: seq<T>, b: seq<T>, le: (T, T) -> bool)
    requires Sorted(a, le) && Sorted(b, le)
    requires |a| > 0 && |b| > 0 && a[0] in b && b[0] in a
    requires forall x, y :: x in a && y in a && le(x, y) && le(y, x) ==> x == y
    requires forall x :: x in a ==> le(x, x)
    ensures a[0] == b[0]
  {
    var i :| 0 <= i < |b| && b[i] == a[0];
    var j :| 0 <= j < |a| && a[j] == b[0];
    assert le(a[0], a[j]) && le(b[0], b[i]);
  }

  ghost predicate Distinct<T(!new)>(s: seq<T>) {
    forall i, j :: 0 <= i < j < |s| ==> s[i] != s[j]
  }

  lemma {:induction false} DistinctCounts<T(!new)>(s: seq<T>, x: T)
    requires Distinct(s)
    ensures multiset(s)[x] <= 1
  {
    if s != [] {
      assert s == [s[0]] + s[1..];
      DistinctCounts(s[1..], x);
    }
  }

  /** Elements differ exactly if none is there twice. */
  lemma DistinctMeaning<T(!new)>(s: seq<T>)
    ensures Distinct(s) <==> forall x :: multiset(s)[x] <= 1
  {
    if Distinct(s) {
      forall x ensures multiset(s)[x] <= 1 {
        DistinctCounts(s, x);
      }
    }
    if forall x :: multiset(s)[x] <= 1 {
      forall i, j | 0 <= i < j < |s| ensures s[i] != s[j] {
        assert s == s[..j] + [s[j]] + s[j + 1..] && s[..j][i] == s[i];
        assert s[i] in multiset(s[..j]);
        assert multiset(s)[s[j]] == multiset(s[..j])[s[j]] + 1 + multiset(s[j + 1..])[s[j]];
      }
    }
  }

  lemma SortDistinct<T(!new)>(s: seq<T>, r: seq<T>)
    requires Distinct(s) && multiset(r) == multiset(s)
    ensures Distinct(r)
  {
    forall i, j | 0 <= i < j < |r| ensures r[i] != r[j] {
      DistinctCounts(s, r[i]);
      assert r == r[..i] + [r[i]] + r[i + 1..];
      assert r[j] == r[i + 1..][j - i - 1];
    }
  }

  lemma SameTail<T>(a: seq<T>, b: seq<T>)
    requires |a| > 0 && |b| > 0 && a[0] == b[0]
    requires multiset(a) == multiset(b)
    ensures multiset(a[1..]) == multiset(b[1..])
  {
    assert a == [a[0]] + a[1..] && b == [b[0]] + b[1..];
    assert multiset(a[1..]) == multiset(a) - multiset{a[0]};
    assert multiset(b[1..]) == multiset(b) - multiset{b[0]};
  }

  /** A sorted list is determined by its elements, when equivalent elements in
      it are equal. */
  lemma {:induction false} SortedUnique<T(!new)>(a: seq<T>, b: seq<T>, le: (T, T) -> bool)
    requires Sorted(a, le) && Sorted(b, le)
    requires multiset(a) == multiset(b)
    requires forall x, y :: x in a && y in a && le(x, y) && le(y, x) ==> x == y
    requires forall x :: x in a ==> le(x, x)
    ensures a == b
  {
    SameElements(b, a);
    if a != [] {
      SameHead(a, b, le);
      SameTail(a, b);
      SortedUnique(a[1..], b[1..], le);
      assert a == [a[0]] + a[1..] && b == [b[0]] + b[1..];
    }
  }

  /** Every element comes before the later ones and differs from them. */
  ghost predicate StrictlySorted<T(!new)>(s: seq<T>, le: (T, T) -> bool) {
    forall i, j :: 0 <= i < j < |s| ==> le(s[i], s[j]) && s[i] != s[j]
  }

  /** A strictly sorted list is determined by which elements it has. */
  lemma {:induction false} StrictUnique<T(!new)>(a: seq<T>, b: seq<T>, le: (T, T) -> bool)
    requires StrictlySorted(a, le) && StrictlySorted(b, le)
    requires forall x, y :: x in a && y in a && le(x, y) && le(y, x) ==> x == y
    requires forall x :: x in a ==> le(x, x)
    requires forall x :: x in a <==> x in b
    ensures a == b
  {
    assert a != [] ==> a[0] in b;
    assert b != [] ==> b[0] in a;
    if a != [] && b != [] {
      SameHead(a, b, le);
      assert forall x :: x in a[1..] <==> x in a && x != a[0];
      assert forall x :: x in b[1..] <==> x in b && x != b[0];
      StrictUnique(a[1..], b[1..], le);
      assert a == [a[0]] + a[1..] && b == [b[0]] + b[1..];
    }
  }

  /** Drops every element equal to the one before it. */
  function Dedup<T(==)>(s: seq<T>): seq<T> {
    if |s| == 0 then []
    else
      var n := |s| - 1;
      Dedup(s[..n]) + if n == 0 || s[n] != s[n - 1] then [s[n]] else []
  }

  lemma {:induction false} DedupShorter<T>(s: seq<T>)
    ensures |Dedup(s)| <= |s|
    ensures |s| > 0 ==> |Dedup(s)| > 0 && Dedup(s)[|Dedup(s)| - 1] == s[|s| - 1]
  {
    if |s| > 0 {
      DedupShorter(s[..|s| - 1]);
    }
  }

  /** A new last element of a sorted list is unlike every earlier one. */
  lemma LastIsNew<T(!new)>(s: seq<T>, j: nat, le: (T, T) -> bool)
    requires Sorted(s, le)
    requires forall x, y :: x in s && y in s && le(x, y) && le(y, x) ==> x == y
    requires forall x :: x in s ==> le(x, x)
    requires j < |s| - 1 && s[|s| - 1] != s[|s| - 2]
    ensures le(s[j], s[|s| - 1]) && s[j] != s[|s| - 1]
  {
    var n := |s| - 1;
    assert le(s[n - 1], s[n]) && le(s[j], s[n - 1]);
  }

  lemma NoneSorted<T(!new)>(s: seq<T>, le: (T, T) -> bool)
    ensures |s| == 0 ==> StrictlySorted(s, le)
  {
  }

  lemma FrontSorted<T(!new)>(s: seq<T>, n: nat, le: (T, T) -> bool)
    requires Sorted(s, le) && n <= |s|
    ensures Sorted(s[..n], le)
  {
  }

  lemma DedupLast<T(!new)>(s: seq<T>, d: seq<T>, le: (T, T) -> bool)
    requires |s| > 0 && Sorted(s, le)
    requires forall x, y :: x in s && y in s && le(x, y) && le(y, x) ==> x == y
    requires forall x :: x in s ==> le(x, x)
    requires StrictlySorted(d, le)
    requires forall p :: p in d <==> p in s[..|s| - 1]
    ensures var n := |s| - 1; n == 0 || s[n] != s[n - 1] ==> StrictlySorted(d + [s[n]], le)
  {
    var n := |s| - 1;
    if n == 0 || s[n] != s[n - 1] {
      forall k | 0 <= k < |d| ensures le(d[k], s[n]) && d[k] != s[n] {
        assert d[k] in d;
        var j :| 0 <= j < n && s[..n][j] == d[k];
        LastIsNew(s, j, le);
      }
    }
  }

  /** Nothing is lost. */
  lemma {:induction false} DedupElements<T(!new)>(s: seq<T>, p: T)
    ensures p in Dedup(s) <==> p in s
  {
    if |s| > 0 {
      var n := |s| - 1;
      DedupElements(s[..n], p);
      DedupShorter(s[..n]);
      assert s == s[..n] + [s[n]];
      assert n > 0 ==> s[..n][n - 1] in Dedup(s[..n]);
    }
  }

  /** On a sorted list no repetition is left, and nothing is lost. */
  lemma {:induction false} DedupSorted<T(!new)>(s: seq<T>, le: (T, T) -> bool)
    requires Sorted(s, le)
    requires forall x, y :: x in s && y in s && le(x, y) && le(y, x) ==> x == y
    requires forall x :: x in s ==> le(x, x)
    ensures StrictlySorted(Dedup(s), le)
    ensures forall p :: p in Dedup(s) <==> p in s
  {
    hide Sorted, StrictlySorted;
    forall p ensures p in Dedup(s) <==> p in s {
      DedupElements(s, p);
    }
    if |s| == 0 {
      NoneSorted(s, le);
    } else {
      var n := |s| - 1;
      FrontSorted(s, n, le);
      assert forall x :: x in s[..n] ==> x in s;
      DedupSorted(s[..n], le);
      DedupLast(s, Dedup(s[..n]), le);
      assert Dedup(s[..n]) + [] == Dedup(s[..n]);
    }
  }
}
