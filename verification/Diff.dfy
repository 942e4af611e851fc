/** The comparison of listed entries with wanted aliases (internal/reconcile/diff.go). */
module Diff {
  import opened Entries

  function Parent(td: string): string {
    "spiffe://" + td + "/spire/server"
  }

  function Prefix(td: string, cluster: string): string {
    "spiffe://" + td + "/pve/" + cluster + "/"
  }

  /** The only entries the reconciler may delete for this cluster. */
  predicate Owned(td: string, cluster: string, e: Entry) {
    e.parentID == Parent(td) && Prefix(td, cluster) <= e.spiffeID
  }

  function Keys(wanted: seq<Alias>): set<Key> {
    set a | a in wanted :: AliasKey(a)
  }

  /** An owned entry that is as wanted, were it the only one with its key. */
  predicate Fits(td: string, cluster: string, e: Entry, want: set<Key>) {
    Owned(td, cluster, e) && e.isDefault && EntryKey(e) in want
  }

  /** The first entry that fits for its key is kept. */
  predicate Kept(td: string, cluster: string, existing: seq<Entry>, want: set<Key>, i: nat)
    requires i < |existing|
  {
    && Fits(td, cluster, existing[i], want)
    && forall j :: 0 <= j < i && Fits(td, cluster, existing[j], want) ==> EntryKey(existing[j]) != EntryKey(existing[i])
  }

  predicate Doomed(td: string, cluster: string, existing: seq<Entry>, want: set<Key>, i: nat)
    requires i < |existing|
  {
    Owned(td, cluster, existing[i]) && !Kept(td, cluster, existing, want, i)
  }

  /** IDs of the doomed entries among the first n, in listing order. */
  function DoomedIDs(td: string, cluster: string, existing: seq<Entry>, want: set<Key>, n: nat): seq<nat>
    requires n <= |existing|
  {
    if n == 0 then []
    else DoomedIDs(td, cluster, existing, want, n - 1)
         + if Doomed(td, cluster, existing, want, n - 1) then [existing[n - 1].id] else []
  }

  /** Some listed entry already serves key k. */
  predicate Served(td: string, cluster: string, existing: seq<Entry>, want: set<Key>, k: Key) {
    exists i :: 0 <= i < |existing| && Fits(td, cluster, existing[i], want) && EntryKey(existing[i]) == k
  }

  /** The unserved aliases among the first n, each key once, in wanted order. */
  function Missing(td: string, cluster: string, existing: seq<Entry>, wanted: seq<Alias>, n: nat): seq<Alias>
    requires n <= |wanted|
  {
    if n == 0 then []
    else
      var rest := Missing(td, cluster, existing, wanted, n - 1);
      var k := AliasKey(wanted[n - 1]);
      if Served(td, cluster, existing, Keys(wanted), k) || k in Keys(wanted[..n - 1]) then rest
      else rest + [wanted[n - 1]]
  }

  /** Keys of the fitting entries among the first n. */
  function FittedKeys(td: string, cluster: string, existing: seq<Entry>, want: set<Key>, n: nat): set<Key>
    requires n <= |existing|
  {
    if n == 0 then {}
    else FittedKeys(td, cluster, existing, want, n - 1)
         + if Fits(td, cluster, existing[n - 1], want) then {EntryKey(existing[n - 1])} else {}
  }

  lemma {:induction false} FittedKeysMeaning(td: string, cluster: string, existing: seq<Entry>, want: set<Key>, n: nat,
                                             k: Key)
    requires n <= |existing|
    ensures k in FittedKeys(td, cluster, existing, want, n) <==>
            exists j :: 0 <= j < n && Fits(td, cluster, existing[j], want) && EntryKey(existing[j]) == k
  {
    hide AliasKey, EntryKey, Owned;
    if n > 0 {
      FittedKeysMeaning(td, cluster, existing, want, n - 1, k);
    }
  }

  lemma KeysStep(wanted: seq<Alias>, i: nat)
    requires i < |wanted|
    ensures Keys(wanted[..i + 1]) == Keys(wanted[..i]) + {AliasKey(wanted[i])}
    ensures wanted[..|wanted|] == wanted
  {
    assert wanted[..i + 1] == wanted[..i] + [wanted[i]];
  }

  /** Diff: one pass over the listing and one over the wanted aliases. */
  method Compare(td: string, cluster: string, existing: seq<Entry>, wanted: seq<Alias>)
    returns (create: seq<Alias>, del: seq<nat>)
    ensures del == DoomedIDs(td, cluster, existing, Keys(wanted), |existing|)
    ensures create == Missing(td, cluster, existing, wanted, |wanted|)
  {
    var want := WantedKeys(wanted);
    var matched;
    matched, del := ScanListing(td, cluster, existing, want);
    create := CreateList(td, cluster, existing, wanted, matched);
  }

  method WantedKeys(wanted: seq<Alias>) returns (want: set<Key>)
    ensures want == Keys(wanted)
  {
    want := {};
    for i := 0 to |wanted|
      invariant want == Keys(wanted[..i])
    {
      KeysStep(wanted, i);
      want := want + {AliasKey(wanted[i])};
    }
    assert wanted[..|wanted|] == wanted;
  }

  lemma KeptByKeys(td: string, cluster: string, existing: seq<Entry>, want: set<Key>, i: nat)
    requires i < |existing|
    ensures Kept(td, cluster, existing, want, i) <==>
            Fits(td, cluster, existing[i], want) && EntryKey(existing[i]) !in FittedKeys(td, cluster, existing, want, i)
  {
    FittedKeysMeaning(td, cluster, existing, want, i, EntryKey(existing[i]));
  }

  method ScanListing(td: string, cluster: string, existing: seq<Entry>, want: set<Key>)
    returns (matched: set<Key>, del: seq<nat>)
    ensures matched == FittedKeys(td, cluster, existing, want, |existing|)
    ensures del == DoomedIDs(td, cluster, existing, want, |existing|)
  {
    matched, del := {}, [];
    for i := 0 to |existing|
      invariant matched == FittedKeys(td, cluster, existing, want, i)
      invariant del == DoomedIDs(td, cluster, existing, want, i)
    {
      var e := existing[i];
      KeptByKeys(td, cluster, existing, want, i);
      if !Owned(td, cluster, e) {
        continue;
      }
      var k := EntryKey(e);
      if e.isDefault && k in want && k !in matched {
        matched := matched + {k};
        continue;
      }
      del := del + [e.id];
    }
  }

  method CreateList(td: string, cluster: string, existing: seq<Entry>, wanted: seq<Alias>, matched: set<Key>)
    returns (create: seq<Alias>)
    requires matched == FittedKeys(td, cluster, existing, Keys(wanted), |existing|)
    ensures create == Missing(td, cluster, existing, wanted, |wanted|)
  {
    hide AliasKey, EntryKey, Fits;
    var done: set<Key> := {};
    create := [];
    for i := 0 to |wanted|
      invariant done == Keys(wanted[..i]) - matched
      invariant create == Missing(td, cluster, existing, wanted, i)
    {
      var k := AliasKey(wanted[i]);
      KeysStep(wanted, i);
      FittedKeysMeaning(td, cluster, existing, Keys(wanted), |existing|, k);
      if k in matched || k in done {
        continue;
      }
      done := done + {k};
      create := create + [wanted[i]];
    }
  }

  // ----- what the two lists mean

  lemma {:induction false} DoomedIDsMeaning(td: string, cluster: string, existing: seq<Entry>, want: set<Key>, n: nat,
                                            id: nat)
    requires n <= |existing|
    ensures id in DoomedIDs(td, cluster, existing, want, n) <==>
            exists i :: 0 <= i < n && Doomed(td, cluster, existing, want, i) && existing[i].id == id
  {
    if n > 0 {
      DoomedIDsMeaning(td, cluster, existing, want, n - 1, id);
    }
  }

  /** Exactly the wanted keys nothing serves are created. */
  lemma {:induction false} MissingKeys(td: string, cluster: string, existing: seq<Entry>, wanted: seq<Alias>, n: nat)
    requires n <= |wanted|
    ensures var m := Missing(td, cluster, existing, wanted, n);
            && (forall a :: a in m ==> a in wanted)
            && (forall k :: k in Keys(m) <==> k in Keys(wanted[..n]) && !Served(td, cluster, existing, Keys(wanted), k))
            && (forall i, j :: 0 <= i < j < |m| ==> AliasKey(m[i]) != AliasKey(m[j]))
  {
    hide AliasKey, EntryKey, Fits;
    if n > 0 {
      MissingKeys(td, cluster, existing, wanted, n - 1);
      var rest := Missing(td, cluster, existing, wanted, n - 1);
      var m := Missing(td, cluster, existing, wanted, n);
      assert wanted[..n] == wanted[..n - 1] + [wanted[n - 1]];
      assert Keys(wanted[..n]) == Keys(wanted[..n - 1]) + {AliasKey(wanted[n - 1])};
      if m != rest {
        assert Keys(m) == Keys(rest) + {AliasKey(wanted[n - 1])};
        forall i | 0 <= i < |rest| ensures AliasKey(m[i]) != AliasKey(wanted[n - 1]) {
          assert m[i] == rest[i] && rest[i] in rest;
          assert AliasKey(rest[i]) in Keys(rest);
        }
      }
    }
  }

  /** An entry that fits keeps one of its key, at its place or before. */
  lemma {:induction false} OneKept(td: string, cluster: string, existing: seq<Entry>, want: set<Key>, i: nat)
    returns (j: nat)
    requires i < |existing| && Fits(td, cluster, existing[i], want)
    ensures j <= i && Kept(td, cluster, existing, want, j) && EntryKey(existing[j]) == EntryKey(existing[i])
  {
    if Kept(td, cluster, existing, want, i) {
      j := i;
    } else {
      var h :| 0 <= h < i && Fits(td, cluster, existing[h], want) && EntryKey(existing[h]) == EntryKey(existing[i]);
      j := OneKept(td, cluster, existing, want, h);
    }
  }
}
