/** One pass over all clusters (internal/reconcile/run.go). */
module Passes {
  import opened Entries
  import opened Diff
  import opened SpireServer
  import opened SyncPlan

  /** Keys of the listed entries with these IDs. */
  ghost function KeysOf(listing: seq<Entry>, ids: seq<nat>, n: nat): set<Key>
    requires n <= |listing|
  {
    set i | 0 <= i < n && listing[i].id in ids :: EntryKey(listing[i])
  }

  method ReplacedKeys(listing: seq<Entry>, del: seq<nat>) returns (replaced: set<Key>)
    ensures replaced == KeysOf(listing, del, |listing|)
  {
    var doomed := set id | id in del;
    replaced := {};
    for i := 0 to |listing|
      invariant replaced == KeysOf(listing, del, i)
    {
      if listing[i].id in doomed {
        replaced := replaced + {EntryKey(listing[i])};
      }
    }
  }

  /** The aliases to create before the delete and those to create after it. */
  method Partition(create: seq<Alias>, replaced: set<Key>) returns (safe: seq<Alias>, colliding: seq<Alias>)
    requires DistinctKeys(create)
    ensures DistinctKeys(safe) && DistinctKeys(colliding)
    ensures forall a :: a in safe <==> a in create && AliasKey(a) !in replaced
    ensures forall a :: a in colliding <==> a in create && AliasKey(a) in replaced
  {
    hide AliasKey;
    safe, colliding := [], [];
    for i := 0 to |create|
      invariant DistinctKeys(safe) && DistinctKeys(colliding)
      invariant forall a :: a in safe <==> a in create[..i] && AliasKey(a) !in replaced
      invariant forall a :: a in colliding <==> a in create[..i] && AliasKey(a) in replaced
    {
      assert create[..i + 1] == create[..i] + [create[i]];
      assert forall a :: a in create[..i] ==> AliasKey(a) != AliasKey(create[i]);
      if AliasKey(create[i]) in replaced {
        colliding := colliding + [create[i]];
      } else {
        safe := safe + [create[i]];
      }
    }
    assert create[..|create|] == create;
  }

  /** What Diff asks for, in terms of keys and entries. */
  ghost predicate Asked(td: string, cluster: string, listing: seq<Entry>, keys: set<Key>, create: seq<Alias>,
                        del: seq<nat>)
  {
    && DistinctKeys(create)
    && (forall k :: k in Keys(create) <==> k in keys && !Served(td, cluster, listing, keys, k))
    && (forall e :: e in listing ==> (e.id in del <==> e in Stale(td, cluster, listing, keys)))
    && (forall id :: id in del ==> exists e :: e in listing && e.id == id)
  }

  lemma CompareAsks(td: string, cluster: string, listing: seq<Entry>, entries: set<Entry>, wanted: seq<Alias>)
    requires Fresh(listing, entries, td, cluster)
    ensures Asked(td, cluster, listing, Keys(wanted), Missing(td, cluster, listing, wanted, |wanted|),
                  DoomedIDs(td, cluster, listing, Keys(wanted), |listing|))
  {
    hide AliasKey, EntryKey, Owned, Fits, Kept, Missing, DoomedIDs;
    var keys := Keys(wanted);
    MissingKeys(td, cluster, listing, wanted, |wanted|);
    assert wanted[..|wanted|] == wanted;
    var del := DoomedIDs(td, cluster, listing, keys, |listing|);
    forall id | id in del ensures exists e :: e in listing && e.id == id {
      DoomedIDsMeaning(td, cluster, listing, keys, |listing|, id);
      var i :| 0 <= i < |listing| && listing[i].id == id;
      assert listing[i] in listing;
    }
    forall e | e in listing ensures e.id in del <==> e in Stale(td, cluster, listing, keys) {
      DoomedIDsMeaning(td, cluster, listing, keys, |listing|, e.id);
      var n :| 0 <= n < |listing| && listing[n] == e;
      StaleMeaning(td, cluster, listing, entries, keys, n);
    }
  }

  lemma ReplacedMeaning(td: string, cluster: string, listing: seq<Entry>, keys: set<Key>, create: seq<Alias>,
                        del: seq<nat>, k: Key)
    requires Asked(td, cluster, listing, keys, create, del)
    ensures k in KeysOf(listing, del, |listing|) <==>
            exists e :: e in Stale(td, cluster, listing, keys) && EntryKey(e) == k
  {
    if k in KeysOf(listing, del, |listing|) {
      var i :| 0 <= i < |listing| && listing[i].id in del && EntryKey(listing[i]) == k;
      assert listing[i] in listing;
    }
    if e :| e in Stale(td, cluster, listing, keys) && EntryKey(e) == k {
      var i :| 0 <= i < |listing| && listing[i] == e;
      assert e in listing;
    }
  }

  /** When something is deleted every wanted key is served, but for keys whose
      unfit holder this very delete removes. */
  ghost predicate NoGap(c: Call, td: string, cluster: string, keys: set<Key>)
    requires c.Delete?
  {
    forall k :: k in keys ==>
      HasDefault(c.before, td, cluster, k)
      || exists e :: e in c.before && Owned(td, cluster, e) && EntryKey(e) == k && e.id in c.ids
  }

  /** No call removes an entry of base, and no create meets a duplicate. */
  ghost predicate CallSafe(c: Call, parent: string, base: set<Entry>) {
    && (c.Create? ==> NoConflict(c.before, parent, c.aliases) && base <= c.before && base <= c.after)
    && (c.Delete? ==> base <= c.before && base <= c.after)
  }

  /** The calls of one cluster's sync. */
  ghost predicate SyncCalls(calls: seq<Call>, from: nat, td: string, cluster: string, keys: set<Key>, base: set<Entry>,
                            err: bool)
  {
    && from <= |calls|
    && (forall n :: from <= n < |calls| ==>
          && (calls[n].Create? || calls[n].Delete?)
          && CallSafe(calls[n], Parent(td), base)
          && (calls[n].Create? ==> Keys(calls[n].aliases) <= keys)
          && (calls[n].Delete? ==> NoGap(calls[n], td, cluster, keys))
          && (!calls[n].ok ==> n == |calls| - 1 && err && Forced(calls[n])))
    && (err ==> |calls| > from && !calls[|calls| - 1].ok)
  }

  /** The first of these calls is a create that fails. */
  predicate FirstFails(calls: seq<Call>, from: nat) {
    from < |calls| && calls[from].Create? && !calls[from].ok
  }

  lemma SyncRecorded(origin: Store, before: seq<Call>, calls: seq<Call>, start: Store, end: Store,
                     td: string, cluster: string, keys: set<Key>, base: set<Entry>, err: bool)
    requires Ledger(before, 0, origin, start, Parent(td)) && Ledger(calls, 0, origin, end, Parent(td))
    requires before <= calls && SyncCalls(calls, |before|, td, cluster, keys, base, err)
    ensures Ledger(calls, |before|, start, end, Parent(td))
    ensures FirstFails(calls, |before|) ==> start.entries <= end.entries
  {
    hide Chained, Replay, CallSafe, NoGap;
    LedgerSince(origin, before, calls, start, end, Parent(td));
    if FirstFails(calls, |before|) {
      NoDeleteNoLoss(start, calls[|before|..], Parent(td));
    }
  }

  /** The safe creates meet no duplicate. */
  lemma SafeIsClear(td: string, cluster: string, listing: seq<Entry>, s0: set<Entry>, keys: set<Key>,
                    create: seq<Alias>, del: seq<nat>, safe: seq<Alias>)
    requires Fresh(listing, s0, td, cluster) && Under(td, cluster, keys)
    requires Asked(td, cluster, listing, keys, create, del)
    requires DistinctKeys(safe)
    requires forall a :: a in safe ==> a in create && AliasKey(a) !in KeysOf(listing, del, |listing|)
    ensures NoConflict(s0, Parent(td), safe)
  {
    forall a | a in safe ensures !Holds(s0, Parent(td), AliasKey(a)) {
      var k := AliasKey(a);
      assert k in Keys(create);
      ReplacedMeaning(td, cluster, listing, keys, create, del, k);
      UnservedHolders(td, cluster, listing, s0, keys, k);
    }
  }

  /** Of the store grown by the safe creates, the delete takes the doomed
      entries and no other. */
  lemma DeleteTakesStale(td: string, cluster: string, listing: seq<Entry>, s0: set<Entry>, s1: set<Entry>,
                         keys: set<Key>, create: seq<Alias>, del: seq<nat>, some: set<Key>)
    requires Fresh(listing, s0, td, cluster) && UniqueIDs(s0)
    requires Asked(td, cluster, listing, keys, create, del)
    requires Grown(s0, s1, some, Parent(td))
    ensures forall e :: e in s1 ==> (e.id in del <==> e in Stale(td, cluster, listing, keys))
    ensures Stale(td, cluster, listing, keys) <= s0
    ensures forall e :: e in Stale(td, cluster, listing, keys) ==> Owned(td, cluster, e)
  {
    var stale := Stale(td, cluster, listing, keys);
    forall e | e in stale ensures Owned(td, cluster, e) && e in s0 {
      var n :| 0 <= n < |listing| && Doomed(td, cluster, listing, keys, n) && listing[n] == e;
      assert e in listing;
    }
    forall e | e in s1 ensures e.id in del <==> e in stale {
      if e.id in del {
        var f :| f in listing && f.id == e.id;
        assert f in stale && f in s0;
        assert e in s0;
      }
      if e in stale {
        var n :| 0 <= n < |listing| && Doomed(td, cluster, listing, keys, n) && listing[n] == e;
        assert e in listing;
      }
    }
  }

  /** Before the delete only keys about to be replaced lack a default entry. */
  lemma DeleteLeavesNoGap(td: string, cluster: string, listing: seq<Entry>, s0: set<Entry>, s1: set<Entry>,
                          keys: set<Key>, create: seq<Alias>, del: seq<nat>, safe: seq<Alias>, k: Key)
    requires Fresh(listing, s0, td, cluster) && UniqueIDs(s0) && Under(td, cluster, keys)
    requires Asked(td, cluster, listing, keys, create, del)
    requires Grown(s0, s1, Keys(safe), Parent(td)) && Complete(s0, s1, safe)
    requires forall a :: a in create && AliasKey(a) !in KeysOf(listing, del, |listing|) ==> a in safe
    requires k in keys
    ensures HasDefault(s1, td, cluster, k)
            || exists e :: e in s1 && Owned(td, cluster, e) && EntryKey(e) == k && e.id in del
  {
    DeleteTakesStale(td, cluster, listing, s0, s1, keys, create, del, Keys(safe));
    if Served(td, cluster, listing, keys, k) {
      DefaultStays(td, cluster, listing, s0, keys, k);
      var e :| e in s0 && Owned(td, cluster, e) && e.isDefault && EntryKey(e) == k;
      assert e in s1;
    } else {
      assert k in Keys(create);
      ReplacedMeaning(td, cluster, listing, keys, create, del, k);
      if k in KeysOf(listing, del, |listing|) {
        var e :| e in Stale(td, cluster, listing, keys) && EntryKey(e) == k;
        assert e in s1;
      } else {
        var a :| a in create && AliasKey(a) == k;
        assert a in safe;
        var e :| e in s1 - s0 && EntryKey(e) == AliasKey(a);
        assert Owned(td, cluster, e);
      }
    }
  }

  /** The colliding creates meet no duplicate once the delete is done. */
  lemma CollidingIsClear(td: string, cluster: string, listing: seq<Entry>, s0: set<Entry>, s1: set<Entry>,
                         keys: set<Key>, create: seq<Alias>, del: seq<nat>, safe: seq<Alias>, colliding: seq<Alias>)
    requires Fresh(listing, s0, td, cluster) && Under(td, cluster, keys)
    requires Asked(td, cluster, listing, keys, create, del)
    requires Grown(s0, s1, Keys(safe), Parent(td))
    requires forall a :: a in safe ==> AliasKey(a) !in KeysOf(listing, del, |listing|)
    requires DistinctKeys(colliding)
    requires forall a :: a in colliding ==> a in create && AliasKey(a) in KeysOf(listing, del, |listing|)
    ensures NoConflict(s1 - Stale(td, cluster, listing, keys), Parent(td), colliding)
  {
    var s2 := s1 - Stale(td, cluster, listing, keys);
    forall a | a in colliding ensures !Holds(s2, Parent(td), AliasKey(a)) {
      var k := AliasKey(a);
      assert k in Keys(create);
      UnservedHolders(td, cluster, listing, s0, keys, k);
      forall e | e in s2 && e.parentID == Parent(td) && EntryKey(e) == k ensures e in s0 {
      }
      assert forall e :: e in s2 && e.parentID == Parent(td) && EntryKey(e) == k ==>
               e in s0 - Stale(td, cluster, listing, keys);
    }
  }

  /** All three calls done, the cluster has converged. */
  lemma SyncDone(td: string, cluster: string, listing: seq<Entry>, s0: set<Entry>, s1: set<Entry>, s3: set<Entry>,
                 keys: set<Key>, create: seq<Alias>, del: seq<nat>, safe: seq<Alias>, colliding: seq<Alias>)
    requires Fresh(listing, s0, td, cluster) && Under(td, cluster, keys)
    requires Asked(td, cluster, listing, keys, create, del)
    requires Grown(s0, s1, Keys(safe), Parent(td)) && Complete(s0, s1, safe)
    requires Grown(s1 - Stale(td, cluster, listing, keys), s3, Keys(colliding), Parent(td))
    requires Complete(s1 - Stale(td, cluster, listing, keys), s3, colliding)
    requires Stale(td, cluster, listing, keys) <= s0
    requires forall a :: a in safe <==> a in create && AliasKey(a) !in KeysOf(listing, del, |listing|)
    requires forall a :: a in colliding <==> a in create && AliasKey(a) in KeysOf(listing, del, |listing|)
    ensures Converged(s3, td, cluster, keys)
  {
    hide AliasKey, EntryKey, Owned, Served, Stale;
    var stale := Stale(td, cluster, listing, keys);
    var s2 := s1 - stale;
    var kept := s0 - stale;
    var made := (s1 - s0) + (s3 - s2);
    assert s3 == kept + made;
    forall e | e in made
      ensures e.parentID == Parent(td) && e.isDefault && EntryKey(e) in keys
              && !Served(td, cluster, listing, keys, EntryKey(e))
    {
      MadeIsAsked(create, safe, colliding, e, e in s1 - s0);
    }
    forall e, f | e in made && f in made && EntryKey(e) == EntryKey(f) ensures e == f {
      MadeIsUnique(s0, s1, s2, s3, Parent(td), safe, colliding, e, f);
    }
    forall k | k in keys && !Served(td, cluster, listing, keys, k) ensures exists e :: e in made && EntryKey(e) == k {
      assert k in Keys(create);
      var a :| a in create && AliasKey(a) == k;
      if a in safe {
        var e :| e in s1 - s0 && EntryKey(e) == AliasKey(a);
        assert e in made;
      } else {
        assert a in colliding;
        var e :| e in s3 - s2 && EntryKey(e) == AliasKey(a);
        assert e in made;
      }
    }
    SyncConverges(td, cluster, listing, s0, keys, kept, made, s3);
  }

  lemma MadeIsAsked(create: seq<Alias>, safe: seq<Alias>, colliding: seq<Alias>, e: Entry, first: bool)
    requires forall a :: a in safe ==> a in create
    requires forall a :: a in colliding ==> a in create
    requires if first then EntryKey(e) in Keys(safe) else EntryKey(e) in Keys(colliding)
    ensures EntryKey(e) in Keys(create)
  {
  }

  lemma MadeIsUnique(s0: set<Entry>, s1: set<Entry>, s2: set<Entry>, s3: set<Entry>, parent: string,
                     safe: seq<Alias>, colliding: seq<Alias>, e: Entry, f: Entry)
    requires Grown(s0, s1, Keys(safe), parent) && Grown(s2, s3, Keys(colliding), parent)
    requires s1 - s0 <= s2 <= s1
    requires e in (s1 - s0) + (s3 - s2) && f in (s1 - s0) + (s3 - s2) && EntryKey(e) == EntryKey(f)
    ensures e == f
  {
    assert e.parentID == parent && f.parentID == parent;
    assert e in s3 && f in s3;
  }

  class Syncer {
    const td: string
    const server: Server

    constructor (td: string, server: Server)
      ensures this.td == td && this.server == server
    {
      this.td := td;
      this.server := server;
    }

    method CreateSome(aliases: seq<Alias>, ghost from: nat, ghost cluster: string, ghost keys: set<Key>,
                      ghost base: set<Entry>)
      returns (err: bool)
      requires server.Valid() && server.parent == Parent(td)
      requires NoConflict(server.entries, Parent(td), aliases) && base <= server.entries && Keys(aliases) <= keys
      requires SyncCalls(server.calls, from, td, cluster, keys, base, false)
      modifies server`entries, server`next, server`calls
      ensures server.Valid()
      ensures Grown(old(server.entries), server.entries, Keys(aliases), Parent(td))
      ensures !err ==> Complete(old(server.entries), server.entries, aliases)
      ensures old(server.calls) <= server.calls
      ensures SyncCalls(server.calls, from, td, cluster, keys, base, err)
      ensures aliases == [] ==> !err && server.calls == old(server.calls) && server.entries == old(server.entries)
    {
      err := false;
      if |aliases| > 0 {
        var ok := server.Create(aliases);
        err := !ok;
      }
    }

    method DeleteSome(ids: seq<nat>, ghost from: nat, ghost cluster: string, ghost keys: set<Key>,
                      ghost base: set<Entry>)
      returns (err: bool)
      requires server.Valid() && base <= server.entries
      requires forall e :: e in base ==> e.id !in ids
      requires forall k :: k in keys ==>
                 HasDefault(server.entries, td, cluster, k)
                 || exists e :: e in server.entries && Owned(td, cluster, e) && EntryKey(e) == k && e.id in ids
      requires SyncCalls(server.calls, from, td, cluster, keys, base, false)
      modifies server`entries, server`calls
      ensures server.Valid()
      ensures server.entries <= old(server.entries) && base <= server.entries
      ensures forall e :: e in old(server.entries) - server.entries ==> e.id in ids
      ensures !err ==> forall e :: e in server.entries ==> e.id !in ids
      ensures old(server.calls) <= server.calls
      ensures SyncCalls(server.calls, from, td, cluster, keys, base, err)
      ensures ids == [] ==> !err && server.calls == old(server.calls) && server.entries == old(server.entries)
    {
      err := false;
      if |ids| > 0 {
        var ok := server.Delete(ids);
        err := !ok;
      }
    }

    /** Brings one cluster's entries in line with its wanted aliases. */
    method Sync(cluster: string, wanted: seq<Alias>, listing: seq<Entry>, ghost base: set<Entry>) returns (err: bool)
      requires server.Valid() && server.parent == Parent(td)
      requires Fresh(listing, server.entries, td, cluster)
      requires Under(td, cluster, Keys(wanted))
      requires base <= server.entries - Stale(td, cluster, listing, Keys(wanted))
      modifies server`entries, server`next, server`calls
      ensures server.Valid()
      ensures forall e :: !Owned(td, cluster, e) ==> (e in server.entries <==> e in old(server.entries))
      ensures base <= server.entries
      ensures !err ==> Converged(server.entries, td, cluster, Keys(wanted))
      ensures Converged(old(server.entries), td, cluster, Keys(wanted)) ==>
                !err && server.calls == old(server.calls) && server.entries == old(server.entries)
      ensures old(server.calls) <= server.calls
      ensures SyncCalls(server.calls, |old(server.calls)|, td, cluster, Keys(wanted), base, err)
      ensures Ledger(server.calls, |old(server.calls)|, old(server.Now()), server.Now(), Parent(td))
      // A failed first create deletes nothing.
      ensures FirstFails(server.calls, |old(server.calls)|) ==> old(server.entries) <= server.entries
    {
      ghost var keys := Keys(wanted);
      ghost var s0, from := server.entries, |server.calls|;
      ghost var calls0, now0 := server.calls, server.Now();
      var create, del := Compare(td, cluster, listing, wanted);
      CompareAsks(td, cluster, listing, s0, wanted);
      QuietLists(td, cluster, listing, s0, keys, create, del);
      var replaced := ReplacedKeys(listing, del);
      var safe, colliding := Partition(create, replaced);
      ghost var s1;
      err, s1 := Replace(cluster, listing, keys, create, del, safe, base);
      EmptyParts(create, safe, colliding);
      if err {
        SyncRecorded(server.origin, calls0, server.calls, now0, server.Now(), td, cluster, keys, base, err);
        return;
      }
      ghost var s2 := server.entries;
      CollidingIsClear(td, cluster, listing, s0, s1, keys, create, del, safe, colliding);
      err := CreateSome(colliding, from, cluster, keys, base);
      OnlyOwnedGrow(td, cluster, keys, s2, server.entries, create, colliding);
      if !err {
        SyncDone(td, cluster, listing, s0, s1, server.entries, keys, create, del, safe, colliding);
      }
      SyncRecorded(server.origin, calls0, server.calls, now0, server.Now(), td, cluster, keys, base, err);
    }

    /** The safe creates and the delete. */
    method Replace(cluster: string, ghost listing: seq<Entry>, ghost keys: set<Key>, ghost create: seq<Alias>,
                   del: seq<nat>, safe: seq<Alias>, ghost base: set<Entry>)
      returns (err: bool, ghost s1: set<Entry>)
      requires server.Valid() && server.parent == Parent(td)
      requires Fresh(listing, server.entries, td, cluster) && Under(td, cluster, keys)
      requires Asked(td, cluster, listing, keys, create, del)
      requires base <= server.entries - Stale(td, cluster, listing, keys)
      requires DistinctKeys(safe)
      requires forall a :: a in safe <==> a in create && AliasKey(a) !in KeysOf(listing, del, |listing|)
      modifies server`entries, server`next, server`calls
      ensures server.Valid()
      ensures Grown(old(server.entries), s1, Keys(safe), Parent(td))
      ensures Stale(td, cluster, listing, keys) <= old(server.entries)
      ensures !err ==> Complete(old(server.entries), s1, safe)
      ensures !err ==> server.entries == s1 - Stale(td, cluster, listing, keys)
      ensures forall e :: !Owned(td, cluster, e) ==> (e in server.entries <==> e in old(server.entries))
      ensures base <= server.entries
      ensures old(server.calls) <= server.calls
      ensures SyncCalls(server.calls, |old(server.calls)|, td, cluster, keys, base, err)
      ensures safe == [] && del == [] ==>
                !err && server.calls == old(server.calls) && server.entries == old(server.entries)
    {
      ghost var s0, from := server.entries, |server.calls|;
      SafeIsClear(td, cluster, listing, s0, keys, create, del, safe);
      err := CreateSome(safe, from, cluster, keys, base);
      s1 := server.entries;
      DeleteTakesStale(td, cluster, listing, s0, s1, keys, create, del, Keys(safe));
      OnlyOwnedGrow(td, cluster, keys, s0, s1, create, safe);
      if err {
        return;
      }
      forall k | k in keys
        ensures HasDefault(s1, td, cluster, k)
                || exists e :: e in s1 && Owned(td, cluster, e) && EntryKey(e) == k && e.id in del
      {
        DeleteLeavesNoGap(td, cluster, listing, s0, s1, keys, create, del, safe, k);
      }
      err := DeleteSome(del, from, cluster, keys, base);
    }
  }

  lemma OnlyOwnedGrow(td: string, cluster: string, keys: set<Key>, before: set<Entry>, after: set<Entry>,
                      create: seq<Alias>, some: seq<Alias>)
    requires Under(td, cluster, keys)
    requires forall k :: k in Keys(create) ==> k in keys
    requires forall a :: a in some ==> a in create
    requires Grown(before, after, Keys(some), Parent(td))
    ensures forall e :: !Owned(td, cluster, e) ==> (e in after <==> e in before)
  {
    forall e | e in after - before ensures Owned(td, cluster, e) {
      var a :| a in some && AliasKey(a) == EntryKey(e);
      assert AliasKey(a) in Keys(create);
    }
  }

  lemma EmptyParts(create: seq<Alias>, safe: seq<Alias>, colliding: seq<Alias>)
    requires forall a :: a in safe ==> a in create
    requires forall a :: a in colliding ==> a in create
    ensures create == [] ==> safe == [] && colliding == []
  {
    EmptyOrHead(safe);
    EmptyOrHead(colliding);
  }

  lemma EmptyOrHead<T>(s: seq<T>)
    ensures s == [] || s[0] in s
  {
  }

  /** A converged cluster gives two empty lists. */
  lemma QuietLists(td: string, cluster: string, listing: seq<Entry>, entries: set<Entry>, keys: set<Key>,
                   create: seq<Alias>, del: seq<nat>)
    requires Fresh(listing, entries, td, cluster)
    requires Asked(td, cluster, listing, keys, create, del)
    ensures Converged(entries, td, cluster, keys) ==> create == [] && del == []
  {
    if Converged(entries, td, cluster, keys) {
      ConvergedIsQuiet(td, cluster, listing, entries, keys);
      EmptyOrHead(create);
      EmptyOrHead(del);
      assert forall a :: a in create ==> AliasKey(a) in Keys(create);
    }
  }
}
