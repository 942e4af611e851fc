/** The SPIRE server as the reconciler uses it: a store of entries whose calls
    may apply any part of what they are asked and then fail
    (internal/reconcile/run.go:9-16, internal/reconcile/spire.go:80-152). */
module SpireServer {
  import opened Entries
  import opened BanTracking
  import opened Sorting
  import Diff

  datatype Call =
    | ListEntries(ok: bool)
    | Create(aliases: seq<Alias>, before: set<Entry>, after: set<Entry>, ok: bool, forced: bool)
    | Delete(ids: seq<nat>, before: set<Entry>, after: set<Entry>, ok: bool)
    | ListAgents(ok: bool)
    | BanAgent(agentID: string, ok: bool)

  /** The call failed by the environment's choice, not over a duplicate. */
  predicate Forced(c: Call) {
    match c
    case Create(_, _, _, _, forced) => forced
    case _ => !c.ok
  }

  /** Some entry of this parent holds key k. */
  predicate Holds(entries: set<Entry>, parent: string, k: Key) {
    exists e :: e in entries && e.parentID == parent && EntryKey(e) == k
  }

  ghost predicate UniqueIDs(entries: set<Entry>) {
    forall e, f :: e in entries && f in entries && e.id == f.id ==> e == f
  }

  /** after is before and some default entries of this parent with fresh IDs,
      whose keys are among keys and held by no other entry. */
  ghost predicate Grown(before: set<Entry>, after: set<Entry>, keys: set<Key>, parent: string) {
    && before <= after
    && (forall e :: e in after - before ==> e.parentID == parent && e.isDefault && EntryKey(e) in keys)
    && (forall e, f :: e in after - before && f in before ==> e.id != f.id)
    && (forall e, f :: e in after - before && f in after && f.parentID == parent && EntryKey(f) == EntryKey(e) ==>
          f == e)
  }

  ghost predicate DistinctKeys(aliases: seq<Alias>) {
    forall i, j :: 0 <= i < j < |aliases| ==> AliasKey(aliases[i]) != AliasKey(aliases[j])
  }

  /** No key asked for is held already or asked for twice. */
  ghost predicate NoConflict(entries: set<Entry>, parent: string, aliases: seq<Alias>) {
    DistinctKeys(aliases) && forall a :: a in aliases ==> !Holds(entries, parent, AliasKey(a))
  }

  /** Every key asked for is held by a new entry. */
  ghost predicate Complete(before: set<Entry>, after: set<Entry>, aliases: seq<Alias>) {
    forall a :: a in aliases ==> exists e :: e in after - before && EntryKey(e) == AliasKey(a)
  }

  /** All entries of the parent, each once, in any order. */
  ghost predicate IsListing(listing: seq<Entry>, entries: set<Entry>, parent: string) {
    && Distinct(listing)
    && forall e :: e in listing <==> e in entries && e.parentID == parent
  }

  // ----- the record of the calls

  /** What the server holds. */
  datatype Store = Store(entries: set<Entry>, agents: seq<Agent>)

  /** The agents once this one is banned. */
  function Banned(agents: seq<Agent>, id: string): seq<Agent> {
    seq(|agents|, i requires 0 <= i < |agents| =>
        if agents[i].id == id then agents[i].(banned := true) else agents[i])
  }

  /** A create may only add, a delete may only take what it names; without an
      error they do all they are asked. */
  ghost predicate Effect(c: Call, parent: string) {
    match c
    case Create(aliases, before, after, ok, _) =>
      Grown(before, after, Diff.Keys(aliases), parent) && (ok ==> Complete(before, after, aliases))
    case Delete(ids, before, after, ok) =>
      && after <= before && (forall e :: e in before - after ==> e.id in ids)
      && (ok ==> forall e :: e in after ==> e.id !in ids)
    case _ => true
  }

  /** What a recorded call leaves of the store. */
  ghost function Applied(s: Store, c: Call): Store {
    match c
    case Create(_, _, after, _, _) => s.(entries := after)
    case Delete(_, _, after, _) => s.(entries := after)
    case BanAgent(id, ok) => if ok then s.(agents := Banned(s.agents, id)) else s
    case _ => s
  }

  ghost function Replay(s: Store, calls: seq<Call>): Store {
    if calls == [] then s else Applied(Replay(s, calls[..|calls| - 1]), calls[|calls| - 1])
  }

  predicate Changes(c: Call) {
    c.Create? || c.Delete?
  }

  /** Call n works on what the calls before it left, as it may. */
  ghost predicate Follows(s: Store, calls: seq<Call>, parent: string, n: nat)
    requires n < |calls|
  {
    Effect(calls[n], parent) && (Changes(calls[n]) ==> calls[n].before == Replay(s, calls[..n]).entries)
  }

  ghost predicate Chained(s: Store, calls: seq<Call>, parent: string) {
    forall n: nat :: n < |calls| ==> Follows(s, calls, parent, n)
  }

  /** From start to end the store has changed by the calls from this one on, and
      by nothing else. */
  ghost predicate Ledger(calls: seq<Call>, from: nat, start: Store, end: Store, parent: string) {
    from <= |calls| && Chained(start, calls[from..], parent) && end == Replay(start, calls[from..])
  }

  lemma LedgerMore(calls: seq<Call>, start: Store, end: Store, parent: string, c: Call)
    requires Ledger(calls, 0, start, end, parent)
    requires Effect(c, parent) && (Changes(c) ==> c.before == end.entries)
    ensures Ledger(calls + [c], 0, start, Applied(end, c), parent)
  {
    hide Effect, Applied, Replay;
    ReplayMore(start, calls, c);
    assert calls[0..] == calls && (calls + [c])[0..] == calls + [c];
    forall n: nat | n < |calls + [c]| ensures Follows(start, calls + [c], parent, n) {
      assert (calls + [c])[..n] == calls[..n];
      if n < |calls| {
        assert Follows(start, calls, parent, n);
      } else {
        assert calls[..n] == calls;
      }
    }
  }

  lemma ReplayMore(s: Store, calls: seq<Call>, c: Call)
    ensures Replay(s, calls + [c]) == Applied(Replay(s, calls), c)
  {
    assert (calls + [c])[..|calls|] == calls;
  }

  lemma {:induction false} ReplayJoin(s: Store, a: seq<Call>, b: seq<Call>)
    ensures Replay(s, a + b) == Replay(Replay(s, a), b)
  {
    hide Applied;
    if b == [] {
      assert a + b == a;
    } else {
      var front, last := b[..|b| - 1], b[|b| - 1];
      ReplayJoin(s, a, front);
      ReplayMore(s, a + front, last);
      assert a + b == a + front + [last];
    }
  }

  /** What holds since the beginning holds since any time. */
  lemma LedgerSince(origin: Store, before: seq<Call>, calls: seq<Call>, start: Store, end: Store, parent: string)
    requires Ledger(before, 0, origin, start, parent) && Ledger(calls, 0, origin, end, parent)
    requires before <= calls
    ensures Ledger(calls, |before|, start, end, parent)
  {
    hide Effect, Replay, Changes;
    var m := |before|;
    var later := calls[m..];
    assert before[0..] == before && calls[0..] == calls && calls == before + later;
    ReplayJoin(origin, before, later);
    forall n: nat | n < |later| ensures Follows(start, later, parent, n) {
      assert Follows(origin, calls, parent, m + n);
      assert calls[..m + n] == before + later[..n];
      ReplayJoin(origin, before, later[..n]);
    }
  }

  /** Calls that delete nothing lose nothing. */
  lemma {:induction false} NoDeleteNoLoss(s: Store, calls: seq<Call>, parent: string)
    requires Chained(s, calls, parent) && forall n :: 0 <= n < |calls| ==> !calls[n].Delete?
    ensures s.entries <= Replay(s, calls).entries
  {
    if calls != [] {
      var front := calls[..|calls| - 1];
      FrontChained(s, calls, parent);
      NoDeleteNoLoss(s, front, parent);
      assert Follows(s, calls, parent, |front|);
    }
  }

  lemma FrontChained(s: Store, calls: seq<Call>, parent: string)
    requires calls != [] && Chained(s, calls, parent)
    ensures Chained(s, calls[..|calls| - 1], parent)
  {
    hide Effect, Replay, Changes;
    var front := calls[..|calls| - 1];
    forall n: nat | n < |front| ensures Follows(s, front, parent, n) {
      assert Follows(s, calls, parent, n);
      assert front[..n] == calls[..n];
    }
  }

  /** What is new was added by a create. */
  lemma {:induction false} NewIsCreated(s: Store, calls: seq<Call>, parent: string, e: Entry) returns (n: nat)
    requires Chained(s, calls, parent) && e in Replay(s, calls).entries - s.entries
    ensures n < |calls| && calls[n].Create? && e in calls[n].after - calls[n].before
  {
    var front := calls[..|calls| - 1];
    FrontChained(s, calls, parent);
    assert Follows(s, calls, parent, |front|);
    if e in Replay(s, front).entries {
      n := NewIsCreated(s, front, parent, e);
    } else {
      n := |front|;
    }
  }

  class Server {
    const parent: string
    var entries: set<Entry>
    var next: nat
    var agents: seq<Agent>
    ghost var calls: seq<Call>
    ghost const origin: Store   // what it held at first

    constructor (parent: string, entries: set<Entry>, agents: seq<Agent>, next: nat)
      requires UniqueIDs(entries) && forall e :: e in entries ==> e.id < next
      ensures Valid() && calls == []
      ensures this.parent == parent && this.entries == entries && this.agents == agents && this.next == next
    {
      this.parent, this.entries, this.agents, this.next := parent, entries, agents, next;
      calls, origin := [], Store(entries, agents);
    }

    ghost function Now(): Store
      reads this
    {
      Store(entries, agents)
    }

    /** IDs are unique, and new ones are new. */
    ghost predicate Sound()
      reads this
    {
      UniqueIDs(entries) && forall e :: e in entries ==> e.id < next
    }

    /** Also, every change is on record. */
    ghost predicate Valid()
      reads this
    {
      Sound() && Ledger(calls, 0, origin, Now(), parent)
    }

    method Entries() returns (ok: bool, listing: seq<Entry>)
      requires Valid()
      modifies this`calls
      ensures Valid()
      ensures calls == old(calls) + [ListEntries(ok)]
      ensures ok ==> IsListing(listing, entries, parent)
    {
      ok, listing := false, [];
      if * {
        ok := true;
        var todo := set e | e in entries && e.parentID == parent;
        ghost var all := todo;
        while todo != {}
          invariant todo <= all
          invariant Distinct(listing) && forall e :: e in listing <==> e in all && e !in todo
        {
          var e :| e in todo;
          todo := todo - {e};
          listing := listing + [e];
        }
      }
      LedgerMore(calls, origin, Now(), parent, ListEntries(ok));
      calls := calls + [ListEntries(ok)];
    }

    method Insert(a: Alias, ghost before: set<Entry>, ghost keys: set<Key>) returns (ghost made: Entry)
      requires Sound() && forall e :: e in before ==> e.id < next
      requires Grown(before, entries, keys, parent)
      requires !Holds(entries, parent, AliasKey(a))
      modifies this`entries, this`next
      ensures Sound() && forall e :: e in before ==> e.id < next
      ensures Grown(before, entries, keys + {AliasKey(a)}, parent)
      ensures entries == old(entries) + {made} && made !in before && EntryKey(made) == AliasKey(a)
    {
      var entry := Entry(next, parent, a.spiffeID, a.selectors, true);
      MadeKey(entry, a);
      hide AliasKey, EntryKey;
      GrownStep(before, entries, keys, parent, entry);
      entries := entries + {entry};
      next := next + 1;
      made := entry;
    }

    /** One entry of a batch. */
    method CreateOne(a: Alias, ghost before: set<Entry>, ghost aliases: seq<Alias>, ghost i: nat)
      returns (ok: bool, ghost forced: bool)
      requires Sound() && forall e :: e in before ==> e.id < next
      requires i < |aliases| && a == aliases[i]
      requires Grown(before, entries, Diff.Keys(aliases[..i]), parent)
      modifies this`entries, this`next
      ensures Sound() && forall e :: e in before ==> e.id < next
      ensures Grown(before, entries, Diff.Keys(aliases[..i + 1]), parent)
      ensures ok && Complete(before, old(entries), aliases[..i]) ==> Complete(before, entries, aliases[..i + 1])
      ensures !ok && NoConflict(before, parent, aliases) ==> forced
    {
      hide AliasKey, EntryKey;
      ghost var keys := Diff.Keys(aliases[..i]);
      Diff.KeysStep(aliases, i);
      ok, forced := false, false;
      if Holds(entries, parent, AliasKey(a)) {
        GrownConflict(before, entries, parent, aliases, i);
        GrownMore(before, entries, keys, keys + {AliasKey(a)}, parent);
      } else if * {
        forced := true;
        GrownMore(before, entries, keys, keys + {AliasKey(a)}, parent);
      } else {
        ok := true;
        assert aliases[..i + 1] == aliases[..i] + [a];
        ghost var was := entries;
        ghost var made := Insert(a, before, keys);
        CompleteStep(before, was, aliases[..i], a, made);
      }
    }

    /** Creates what it can; a duplicate, or the environment, fails the call. */
    method Create(aliases: seq<Alias>) returns (ok: bool)
      requires Valid()
      modifies this`entries, this`next, this`calls
      ensures Valid()
      ensures Grown(old(entries), entries, Diff.Keys(aliases), parent)
      ensures ok ==> Complete(old(entries), entries, aliases)
      ensures |calls| == |old(calls)| + 1 && calls[..|old(calls)|] == old(calls)
      ensures var c := calls[|old(calls)|];
              c.Create? && c.aliases == aliases && c.before == old(entries) && c.after == entries && c.ok == ok
              && (!ok && NoConflict(old(entries), parent, aliases) ==> c.forced)
    {
      ok := true;
      ghost var forced := false;
      ghost var before := entries;
      for i := 0 to |aliases|
        invariant calls == old(calls)
        invariant Sound() && forall e :: e in before ==> e.id < next
        invariant Grown(before, entries, Diff.Keys(aliases[..i]), parent)
        invariant ok ==> Complete(before, entries, aliases[..i])
        invariant !ok && NoConflict(before, parent, aliases) ==> forced
      {
        var done;
        ghost var refused;
        done, refused := CreateOne(aliases[i], before, aliases, i);
        ok := ok && done;
        forced := forced || refused;
      }
      assert aliases[..|aliases|] == aliases;
      if * {
        ok, forced := false, true;
      }
      ghost var c := Call.Create(aliases, before, entries, ok, forced);
      LedgerMore(calls, origin, Store(before, agents), parent, c);
      calls := calls + [c];
    }

    /** Deletes what it can; an ID that is not found is no failure. */
    method Delete(ids: seq<nat>) returns (ok: bool)
      requires Valid()
      modifies this`entries, this`calls
      ensures Valid()
      ensures entries <= old(entries)
      ensures forall e :: e in old(entries) - entries ==> e.id in ids
      ensures ok ==> forall e :: e in entries ==> e.id !in ids
      ensures calls == old(calls) + [Call.Delete(ids, old(entries), entries, ok)]
    {
      ok := true;
      ghost var before := entries;
      for i := 0 to |ids|
        invariant calls == old(calls)
        invariant Sound() && entries <= before
        invariant forall e :: e in before - entries ==> e.id in ids
        invariant ok ==> forall e :: e in entries ==> e.id !in ids[..i]
      {
        if * {
          ok := false;
        } else {
          entries := set e | e in entries && e.id != ids[i];
        }
      }
      assert ids[..|ids|] == ids;
      if * {
        ok := false;
      }
      ghost var c := Call.Delete(ids, before, entries, ok);
      LedgerMore(calls, origin, Store(before, agents), parent, c);
      calls := calls + [c];
    }

    method Agents() returns (ok: bool, list: seq<Agent>)
      requires Valid()
      modifies this`calls
      ensures Valid()
      ensures calls == old(calls) + [ListAgents(ok)]
      ensures ok ==> list == agents
    {
      ok := *;
      list := agents;
      LedgerMore(calls, origin, Now(), parent, ListAgents(ok));
      calls := calls + [ListAgents(ok)];
    }

    method Ban(id: string) returns (ok: bool)
      requires Valid()
      modifies this`agents, this`calls
      ensures Valid()
      ensures calls == old(calls) + [BanAgent(id, ok)]
      ensures agents == if ok then Banned(old(agents), id) else old(agents)
    {
      ok := *;
      LedgerMore(calls, origin, Now(), parent, BanAgent(id, ok));
      if ok {
        agents := Banned(agents, id);
      }
      calls := calls + [BanAgent(id, ok)];
    }
  }

  lemma MadeKey(made: Entry, a: Alias)
    requires made.spiffeID == a.spiffeID && made.selectors == a.selectors
    ensures EntryKey(made) == AliasKey(a)
  {
  }

  lemma GrownMore(before: set<Entry>, entries: set<Entry>, keys: set<Key>, more: set<Key>, parent: string)
    requires Grown(before, entries, keys, parent) && keys <= more
    ensures Grown(before, entries, more, parent)
  {
  }

  lemma GrownStep(before: set<Entry>, entries: set<Entry>, keys: set<Key>, parent: string, made: Entry)
    requires Grown(before, entries, keys, parent)
    requires made.parentID == parent && made.isDefault
    requires forall f :: f in entries ==> f.id != made.id
    requires !Holds(entries, parent, EntryKey(made))
    ensures Grown(before, entries + {made}, keys + {EntryKey(made)}, parent)
  {
    var after := entries + {made};
    assert forall e :: e in after - before <==> e in entries - before || e == made;
    forall e, f | e in after - before && f in after && f.parentID == parent && EntryKey(f) == EntryKey(e)
      ensures f == e
    {
      assert f in entries ==> Holds(entries, parent, EntryKey(f));
      assert e in entries ==> Holds(entries, parent, EntryKey(e));
    }
  }

  lemma CompleteStep(before: set<Entry>, entries: set<Entry>, aliases: seq<Alias>, a: Alias, made: Entry)
    requires made !in before && EntryKey(made) == AliasKey(a)
    ensures Complete(before, entries, aliases) ==> Complete(before, entries + {made}, aliases + [a])
  {
    if Complete(before, entries, aliases) {
      forall b | b in aliases + [a] ensures exists e :: e in (entries + {made}) - before && EntryKey(e) == AliasKey(b) {
        if b in aliases {
          var e :| e in entries - before && EntryKey(e) == AliasKey(b);
          assert e in (entries + {made}) - before;
        } else {
          assert made in (entries + {made}) - before;
        }
      }
    }
  }

  /** A duplicate met while creating was there before or is asked for twice. */
  lemma GrownConflict(before: set<Entry>, entries: set<Entry>, parent: string, aliases: seq<Alias>, i: nat)
    requires i < |aliases|
    requires Grown(before, entries, Diff.Keys(aliases[..i]), parent)
    requires Holds(entries, parent, AliasKey(aliases[i]))
    ensures !NoConflict(before, parent, aliases)
  {
    var e :| e in entries && e.parentID == parent && EntryKey(e) == AliasKey(aliases[i]);
    if e in before {
      assert aliases[i] in aliases && Holds(before, parent, AliasKey(aliases[i]));
    } else {
      assert EntryKey(e) in Diff.Keys(aliases[..i]);
      var a :| a in aliases[..i] && AliasKey(a) == EntryKey(e);
      var j :| 0 <= j < i && aliases[..i][j] == a;
      assert aliases[j] == a;
    }
  }
}
