/** What one cluster's part of a pass does to the store, as sets. */
module SyncPlan {
  import opened Entries
  import opened Diff
  import opened SpireServer

  /** All that matters of a listing for this cluster: its owned entries are the
      ones the store has now, though the rest may be out of date. */
  ghost predicate Fresh(listing: seq<Entry>, entries: set<Entry>, td: string, cluster: string) {
    && (forall i, j :: 0 <= i < j < |listing| ==> listing[i].id != listing[j].id)
    && forall e :: Owned(td, cluster, e) ==> (e in listing <==> e in entries)
  }

  /** The keys are the cluster's own. */
  ghost predicate Under(td: string, cluster: string, keys: set<Key>) {
    forall k :: k in keys ==> Prefix(td, cluster) <= k.spiffeID
  }

  /** Key k is served by a default owned entry. */
  ghost predicate HasDefault(entries: set<Entry>, td: string, cluster: string, k: Key) {
    exists e :: e in entries && Owned(td, cluster, e) && e.isDefault && EntryKey(e) == k
  }

  /** Exactly one owned entry per key, a default one, and no other. */
  ghost predicate Converged(entries: set<Entry>, td: string, cluster: string, keys: set<Key>) {
    && (forall e :: e in entries && Owned(td, cluster, e) ==> e.isDefault && EntryKey(e) in keys)
    && (forall e, f :: e in entries && f in entries && Owned(td, cluster, e) && Owned(td, cluster, f) &&
                       EntryKey(e) == EntryKey(f) ==>
          e == f)
    && (forall k :: k in keys ==> HasDefault(entries, td, cluster, k))
  }

  /** The listed entries Diff dooms. */
  ghost function Stale(td: string, cluster: string, listing: seq<Entry>, keys: set<Key>): set<Entry> {
    set n | 0 <= n < |listing| && Doomed(td, cluster, listing, keys, n) :: listing[n]
  }

  lemma StaleMeaning(td: string, cluster: string, listing: seq<Entry>, entries: set<Entry>, keys: set<Key>, n: nat)
    requires Fresh(listing, entries, td, cluster) && n < |listing|
    ensures listing[n] in Stale(td, cluster, listing, keys) <==> Doomed(td, cluster, listing, keys, n)
  {
  }

  /** An owned entry that stays is the kept one of its key. */
  lemma StaysKept(td: string, cluster: string, listing: seq<Entry>, entries: set<Entry>, keys: set<Key>, e: Entry)
    returns (n: nat)
    requires Fresh(listing, entries, td, cluster)
    requires e in entries && Owned(td, cluster, e) && e !in Stale(td, cluster, listing, keys)
    ensures n < |listing| && listing[n] == e && Kept(td, cluster, listing, keys, n)
  {
    n :| 0 <= n < |listing| && listing[n] == e;
    StaleMeaning(td, cluster, listing, entries, keys, n);
  }

  /** Two kept entries of one key are one. */
  lemma StaysUnique(td: string, cluster: string, listing: seq<Entry>, entries: set<Entry>, keys: set<Key>, e: Entry,
                    f: Entry)
    requires Fresh(listing, entries, td, cluster)
    requires e in entries && Owned(td, cluster, e) && e !in Stale(td, cluster, listing, keys)
    requires f in entries && Owned(td, cluster, f) && f !in Stale(td, cluster, listing, keys)
    requires EntryKey(e) == EntryKey(f)
    ensures e == f && e.isDefault && EntryKey(e) in keys && Served(td, cluster, listing, keys, EntryKey(e))
  {
    var m := StaysKept(td, cluster, listing, entries, keys, e);
    var n := StaysKept(td, cluster, listing, entries, keys, f);
    KeptUnique(td, cluster, listing, keys, m, n);
  }

  lemma KeptUnique(td: string, cluster: string, listing: seq<Entry>, keys: set<Key>, m: nat, n: nat)
    requires m < |listing| && n < |listing|
    requires Kept(td, cluster, listing, keys, m) && Kept(td, cluster, listing, keys, n)
    requires EntryKey(listing[m]) == EntryKey(listing[n])
    ensures m == n
  {
  }

  /** A default owned entry for a wanted key has a counterpart that stays. */
  lemma DefaultStays(td: string, cluster: string, listing: seq<Entry>, entries: set<Entry>, keys: set<Key>, k: Key)
    requires Fresh(listing, entries, td, cluster)
    requires k in keys && (HasDefault(entries, td, cluster, k) || Served(td, cluster, listing, keys, k))
    ensures HasDefault(entries - Stale(td, cluster, listing, keys), td, cluster, k)
    ensures Served(td, cluster, listing, keys, k)
  {
    var i: nat;
    if HasDefault(entries, td, cluster, k) {
      var e :| e in entries && Owned(td, cluster, e) && e.isDefault && EntryKey(e) == k;
      assert e in listing;
      i :| 0 <= i < |listing| && listing[i] == e;
    } else {
      i :| 0 <= i < |listing| && Fits(td, cluster, listing[i], keys) && EntryKey(listing[i]) == k;
    }
    var j := OneKept(td, cluster, listing, keys, i);
    StaleMeaning(td, cluster, listing, entries, keys, j);
    var kept := listing[j];
    assert kept in listing && Owned(td, cluster, kept);
    assert kept in entries - Stale(td, cluster, listing, keys);
  }

  /** A key nothing serves is held, if at all, by a doomed entry. */
  lemma UnservedHolders(td: string, cluster: string, listing: seq<Entry>, entries: set<Entry>, keys: set<Key>, k: Key)
    requires Fresh(listing, entries, td, cluster) && Under(td, cluster, keys)
    requires k in keys && !Served(td, cluster, listing, keys, k)
    ensures !Holds(entries - Stale(td, cluster, listing, keys), Parent(td), k)
    ensures (forall e :: e in Stale(td, cluster, listing, keys) ==> EntryKey(e) != k) ==> !Holds(entries, Parent(td), k)
  {
    var stale := Stale(td, cluster, listing, keys);
    forall e | e in entries && e.parentID == Parent(td) && EntryKey(e) == k ensures e in stale {
      assert Owned(td, cluster, e);
      if e !in stale {
        StaysUnique(td, cluster, listing, entries, keys, e, e);
      }
    }
  }

  /** Deleting what is doomed and creating what is missing converges. */
  lemma SyncConverges(td: string, cluster: string, listing: seq<Entry>, before: set<Entry>, keys: set<Key>,
                      kept: set<Entry>, made: set<Entry>, after: set<Entry>)
    requires Fresh(listing, before, td, cluster)
    requires kept == before - Stale(td, cluster, listing, keys) && after == kept + made
    requires forall e :: e in made ==> e.parentID == Parent(td) && e.isDefault && EntryKey(e) in keys
    requires forall e :: e in made ==> !Served(td, cluster, listing, keys, EntryKey(e))
    requires forall e, f :: e in made && f in made && EntryKey(e) == EntryKey(f) ==> e == f
    requires forall k :: k in keys && !Served(td, cluster, listing, keys, k) ==>
               exists e :: e in made && EntryKey(e) == k
    requires Under(td, cluster, keys)
    ensures Converged(after, td, cluster, keys)
  {
    forall e | e in after && Owned(td, cluster, e) ensures e.isDefault && EntryKey(e) in keys {
      if e in kept { StaysUnique(td, cluster, listing, before, keys, e, e); }
    }
    forall e, f | e in after && f in after && Owned(td, cluster, e) && Owned(td, cluster, f)
      && EntryKey(e) == EntryKey(f)
      ensures e == f
    {
      if e in kept { StaysUnique(td, cluster, listing, before, keys, e, e); }
      if f in kept { StaysUnique(td, cluster, listing, before, keys, f, f); }
      if e in kept && f in kept { StaysUnique(td, cluster, listing, before, keys, e, f); }
    }
    forall k | k in keys ensures HasDefault(after, td, cluster, k) {
      if Served(td, cluster, listing, keys, k) {
        DefaultStays(td, cluster, listing, before, keys, k);
        var e :| e in kept && Owned(td, cluster, e) && e.isDefault && EntryKey(e) == k;
        assert e in after;
      } else {
        var e :| e in made && EntryKey(e) == k;
        assert e in after && Owned(td, cluster, e);
      }
    }
  }

  /** In a converged store nothing is doomed and every key is served. */
  lemma ConvergedIsQuiet(td: string, cluster: string, listing: seq<Entry>, entries: set<Entry>, keys: set<Key>)
    requires Fresh(listing, entries, td, cluster)
    requires Converged(entries, td, cluster, keys)
    ensures forall n :: 0 <= n < |listing| ==> !Doomed(td, cluster, listing, keys, n)
    ensures forall k :: k in keys ==> Served(td, cluster, listing, keys, k)
  {
    forall n | 0 <= n < |listing| && Owned(td, cluster, listing[n]) ensures Kept(td, cluster, listing, keys, n) {
      assert listing[n] in listing;
      forall j | 0 <= j < n && Fits(td, cluster, listing[j], keys)
        ensures EntryKey(listing[j]) != EntryKey(listing[n])
      {
        assert listing[j] in listing;
      }
    }
    forall k | k in keys ensures Served(td, cluster, listing, keys, k) {
      assert HasDefault(entries, td, cluster, k);
      DefaultStays(td, cluster, listing, entries, keys, k);
    }
  }
}
