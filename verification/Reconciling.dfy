/** The reconciler's pass over all configured clusters (internal/reconcile/run.go). */
module Reconciling {
  import opened Options
  import opened AliasPaths
  import opened Entries
  import opened BanTracking
  import opened Sorting
  import opened Strings
  import Diff
  import opened SpireServer
  import opened SyncPlan
  import Passes
  import W = Wanted

  /** What LoadConfig guarantees of the clusters: names that are single path
      segments, all different, and no fingerprint listed twice. */
  ghost predicate Configured(targets: seq<W.Cluster>) {
    && (forall i :: 0 <= i < |targets| ==> ValidSegment(targets[i].name) && Distinct(targets[i].fingerprints))
    && (forall i, j :: 0 <= i < j < |targets| ==> targets[i].name != targets[j].name)
  }

  /** The keys wanted for a cluster after a good read of its guests. */
  ghost function WantedKeys(text: W.Text, td: string, c: W.Cluster, guests: seq<W.Guest>): set<Key> {
    set a | a in W.WantedAliases(text, td, c, guests) :: AliasKey(a)
  }

  // ----- prefixes

  /** No entry is owned by two clusters. */
  lemma OwnersDiffer(td: string, a: string, b: string, e: Entry)
    requires ValidSegment(a) && ValidSegment(b)
    requires Diff.Owned(td, a, e) && Diff.Owned(td, b, e)
    ensures a == b
  {
    PrefixesNamed("spiffe://" + td + "/pve/", a, b, e.spiffeID);
  }

  /** Two names that, closed by a slash, follow the same text are the same. */
  lemma PrefixesNamed(head: string, a: string, b: string, id: string)
    requires ValidSegment(a) && ValidSegment(b)
    requires head + a + "/" <= id && head + b + "/" <= id
    ensures a == b
  {
    var rest := id[|head|..];
    var u, v := rest[|a| + 1..], rest[|b| + 1..];
    FollowsHead(head, a, id);
    FollowsHead(head, b, id);
    FirstPieceUnique(a, "/" + u, b, "/" + v, '/');
  }

  lemma FollowsHead(head: string, a: string, id: string)
    requires head + a + "/" <= id
    ensures id[|head|..] == a + ("/" + id[|head|..][|a| + 1..])
  {
    assert head + a + "/" == head + (a + "/");
    assert id == head + (a + "/") + id[|head| + |a| + 1..];
    assert id[|head|..][|a| + 1..] == id[|head| + |a| + 1..];
  }

  lemma RenderUnder(base: string, p: Path)
    ensures base + "/" <= Render(base, p)
  {
    RenderJoins(base, p);
  }

  /** Every wanted key lies under its cluster's prefix. */
  lemma WantedUnder(text: W.Text, td: string, c: W.Cluster, guests: seq<W.Guest>)
    ensures Under(td, c.name, WantedKeys(text, td, c, guests))
  {
    var base := Base(td, c.name);
    forall a | a in W.WantedAliases(text, td, c, guests) ensures Diff.Prefix(td, c.name) <= a.spiffeID {
      var g, w, fp :| g in guests && w in W.GuestWants(text, base, guests, g) && fp in c.fingerprints
          && a == W.AliasOf(w, fp);
      ClaimUnder(text, base, guests, g, w);
      assert base + "/" == Diff.Prefix(td, c.name);
    }
  }

  lemma ClaimUnder(text: W.Text, base: string, guests: seq<W.Guest>, g: W.Guest, w: W.Want)
    requires w in W.GuestWants(text, base, guests, g)
    ensures base + "/" <= w.id
  {
    if w.id == Render(base, Vm(g.vmid)) {
      RenderUnder(base, Vm(g.vmid));
    } else {
      var segment := W.StateOf(text, guests, g).segment;
      if w.id == Render(base, Pool(segment)) {
        RenderUnder(base, Pool(segment));
      } else {
        W.TagWantsPaths(text, base, segment, g.vmid, text.fields(g.tags));
        var key, value :| ValidSegment(key) && ValidSegment(value) && w.id == Render(base, Tag(segment, key, value));
        RenderUnder(base, Tag(segment, key, value));
      }
    }
  }

  // ----- the clusters of one pass

  /** The inputs of a pass: what each cluster's reader returns, None for a
      doubtful read. */
  datatype Round = Round(text: W.Text, td: string, targets: seq<W.Cluster>, readings: seq<Option<seq<W.Guest>>>) {

    ghost predicate Good(j: nat) {
      j < |targets| == |readings| && readings[j].Some?
    }

    ghost function Keys(j: nat): set<Key>
      requires Good(j)
    {
      WantedKeys(text, td, targets[j], readings[j].value)
    }

    /** The cluster read well, among the first n, that owns the entry. */
    ghost predicate OwnedBefore(e: Entry, n: nat) {
      exists j: nat :: j < n && Good(j) && Diff.Owned(td, targets[j].name, e)
    }

    ghost function Listed(j: nat): set<string>
      requires Good(j)
    {
      set g | g in readings[j].value :: g.vmid
    }
  }

  /** Entries of the start that no cluster's plan dooms. */
  ghost function Survivors(r: Round, start: set<Entry>, listing: seq<Entry>): set<Entry> {
    set e | e in start && forall j: nat :: r.Good(j) ==> e !in Stale(r.td, r.targets[j].name, listing, r.Keys(j))
  }

  lemma StaleIsOwned(td: string, cluster: string, listing: seq<Entry>, keys: set<Key>)
    ensures forall e :: e in Stale(td, cluster, listing, keys) ==> Diff.Owned(td, cluster, e)
  {
  }

  lemma OwnedByOne(td: string, a: string, b: string, e: Entry)
    requires ValidSegment(a) && ValidSegment(b) && a != b
    requires Diff.Owned(td, a, e)
    ensures !Diff.Owned(td, b, e)
  {
    if Diff.Owned(td, b, e) {
      OwnersDiffer(td, a, b, e);
    }
  }

  /** A wanted key served at the start is served by a survivor. */
  lemma SurvivorsServe(r: Round, start: set<Entry>, listing: seq<Entry>, j: nat, k: Key)
    requires Configured(r.targets) && r.Good(j) && k in r.Keys(j)
    requires Fresh(listing, start, r.td, r.targets[j].name)
    requires HasDefault(start, r.td, r.targets[j].name, k)
    ensures HasDefault(Survivors(r, start, listing), r.td, r.targets[j].name, k)
  {
    var name := r.targets[j].name;
    DefaultStays(r.td, name, listing, start, r.Keys(j), k);
    var e :| e in start - Stale(r.td, name, listing, r.Keys(j)) && Diff.Owned(r.td, name, e) && e.isDefault
        && EntryKey(e) == k;
    forall i: nat | r.Good(i) && i != j ensures e !in Stale(r.td, r.targets[i].name, listing, r.Keys(i)) {
      StaleIsOwned(r.td, r.targets[i].name, listing, r.Keys(i));
      OwnedByOne(r.td, name, r.targets[i].name, e);
    }
    assert e in Survivors(r, start, listing);
  }

  /** The listing taken at the start is fresh for a cluster not yet synced. */
  lemma StillFresh(r: Round, start: set<Entry>, entries: set<Entry>, listing: seq<Entry>, i: nat)
    requires Configured(r.targets) && r.Good(i)
    requires UniqueIDs(start) && IsListing(listing, start, Diff.Parent(r.td))
    requires forall e :: !r.OwnedBefore(e, i) ==> (e in entries <==> e in start)
    ensures Fresh(listing, entries, r.td, r.targets[i].name)
  {
    forall m, n | 0 <= m < n < |listing| ensures listing[m].id != listing[n].id {
      assert listing[m] in listing && listing[n] in listing;
    }
    forall e | Diff.Owned(r.td, r.targets[i].name, e) ensures e in listing <==> e in entries {
      if j: nat :| j < i && r.Good(j) && Diff.Owned(r.td, r.targets[j].name, e) {
        OwnersDiffer(r.td, r.targets[i].name, r.targets[j].name, e);
        assert false;
      }
    }
  }

  /** A cluster synced before stays converged when another is synced. */
  lemma StillConverged(r: Round, before: set<Entry>, after: set<Entry>, i: nat, j: nat)
    requires Configured(r.targets) && r.Good(i) && r.Good(j) && i != j
    requires forall e :: !Diff.Owned(r.td, r.targets[i].name, e) ==> (e in after <==> e in before)
    requires Converged(before, r.td, r.targets[j].name, r.Keys(j))
    ensures Converged(after, r.td, r.targets[j].name, r.Keys(j))
  {
    var name := r.targets[j].name;
    forall e | Diff.Owned(r.td, name, e) ensures e in after <==> e in before {
      if Diff.Owned(r.td, r.targets[i].name, e) {
        OwnersDiffer(r.td, r.targets[i].name, name, e);
      }
    }
    forall k | k in r.Keys(j) ensures HasDefault(after, r.td, name, k) {
      assert HasDefault(before, r.td, name, k);
    }
  }

  // ----- what a pass does, call by call

  /** The create asks for keys that one cluster wants. */
  ghost predicate Wished(r: Round, c: Call)
    requires c.Create?
  {
    exists j: nat :: r.Good(j) && Diff.Keys(c.aliases) <= r.Keys(j)
  }

  /** The delete is one cluster's, and leaves no wanted key of it unserved
      that its own entries do not leave so. */
  ghost predicate Announced(r: Round, c: Call)
    requires c.Delete?
  {
    exists j: nat :: r.Good(j) && Passes.NoGap(c, r.td, r.targets[j].name, r.Keys(j))
  }

  /** One call of a pass. */
  ghost predicate CallOk(r: Round, c: Call, survivors: set<Entry>) {
    && Passes.CallSafe(c, Diff.Parent(r.td), survivors)
    && (c.Create? ==> Wished(r, c))
    && (c.Delete? ==> Announced(r, c))
  }

  /** The calls of a pass so far, survivors given. */
  ghost predicate PassCalls(r: Round, calls: seq<Call>, from: nat, survivors: set<Entry>, err: bool) {
    && from <= |calls|
    && (forall n :: from <= n < |calls| ==>
          CallOk(r, calls[n], survivors) && (!calls[n].ok ==> n == |calls| - 1 && err && Forced(calls[n])))
    && (err ==> |calls| > from && !calls[|calls| - 1].ok)
  }

  /** After a create or delete, each wanted key served at the start is served. */
  ghost predicate KeepsServing(r: Round, start: set<Entry>, c: Call) {
    c.Create? || c.Delete? ==> StillServed(r, start, c.before) && StillServed(r, start, c.after)
  }

  /** Each wanted key served at the start is served. */
  ghost predicate StillServed(r: Round, start: set<Entry>, entries: set<Entry>) {
    forall j: nat, k :: r.Good(j) && k in r.Keys(j) && HasDefault(start, r.td, r.targets[j].name, k) ==>
      HasDefault(entries, r.td, r.targets[j].name, k)
  }

  lemma ServingKept(r: Round, start: set<Entry>, listing: seq<Entry>, entries: set<Entry>)
    requires Configured(r.targets)
    requires UniqueIDs(start) && IsListing(listing, start, Diff.Parent(r.td))
    requires Survivors(r, start, listing) <= entries
    ensures StillServed(r, start, entries)
  {
    forall j: nat, k | r.Good(j) && k in r.Keys(j) && HasDefault(start, r.td, r.targets[j].name, k)
      ensures HasDefault(entries, r.td, r.targets[j].name, k)
    {
      ListingIsFresh(r, start, listing, j);
      SurvivorsServe(r, start, listing, j, k);
      var e :| e in Survivors(r, start, listing) && Diff.Owned(r.td, r.targets[j].name, e) && e.isDefault
          && EntryKey(e) == k;
      assert e in entries;
    }
  }

  lemma ListingIsFresh(r: Round, start: set<Entry>, listing: seq<Entry>, j: nat)
    requires r.Good(j)
    requires UniqueIDs(start) && IsListing(listing, start, Diff.Parent(r.td))
    ensures Fresh(listing, start, r.td, r.targets[j].name)
  {
    forall m, n | 0 <= m < n < |listing| ensures listing[m].id != listing[n].id {
      assert listing[m] in listing && listing[n] in listing;
    }
  }

  ghost predicate NoBans(calls: seq<Call>, from: nat) {
    forall n :: from <= n < |calls| ==> !calls[n].BanAgent?
  }

  /** No call changes entries. */
  ghost predicate Idle(calls: seq<Call>, from: nat) {
    forall n :: from <= n < |calls| ==> !calls[n].Create? && !calls[n].Delete?
  }

  /** How many of the first n reads were doubtful. */
  ghost function Doubtful(r: Round, n: nat): nat {
    if n == 0 then 0 else Doubtful(r, n - 1) + if r.Good(n - 1) then 0 else 1
  }

  // ----- where a pass begins

  /** What a pass observes of the first n clusters: one observation for each
      that is read well, in order. */
  ghost function Observations(r: Round, n: nat, sightings: seq<Sighting>): seq<Observation> {
    if n == 0 then []
    else Observations(r, n - 1, sightings)
         + if r.Good(n - 1) then [Observation(n - 1, r.Listed(n - 1), sightings)] else []
  }

  /** A pass: its inputs, and what there is when it begins. */
  datatype Opening = Opening(round: Round, allowBans: bool, conf: seq<seq<string>>, store: Store, from: nat,
                             history: seq<Observation>)
  {
    ghost function Sightings(): seq<Sighting> {
      Sights(store.agents)
    }

    /** What the first n clusters, where read well, are observed to be. */
    ghost function Observes(n: nat): seq<Observation> {
      Observations(round, n, Sightings())
    }
  }

  // ----- bans

  /** Agent id is to be banned: in some cluster read well it is missed, and its
      run of misses has even length. */
  ghost predicate ToBan(p: Opening, h: seq<Observation>, n: nat, id: string) {
    exists j: nat, a :: j < n && p.round.Good(j) && j < |p.conf| && a in p.Sightings() && a.id == id
      && Missed(a, p.round.targets[j].fingerprints, p.round.Listed(j)) && Run(p.conf, h, j, id) % 2 == 0
  }

  /** The history is now h: all of these observations are added, or those of the
      first clusters if an error ended the pass. */
  ghost predicate Observed(p: Opening, n: nat, h: seq<Observation>, err: bool) {
    if err then exists m: nat :: m <= n && h == p.history + p.Observes(m)
    else h == p.history + p.Observes(n)
  }

  lemma ObservedNothing(p: Opening)
    ensures Observed(p, 0, p.history, false)
  {
  }

  lemma ObservedFails(p: Opening, m: nat, n: nat, h: seq<Observation>, err: bool)
    requires Observed(p, m, h, err) && m <= n
    ensures Observed(p, n, h, true)
  {
    hide Observations;
  }

  lemma ObservedSkipped(p: Opening, n: nat, h: seq<Observation>)
    requires Observed(p, n, h, false) && !p.round.Good(n)
    ensures Observed(p, n + 1, h, false)
  {
  }

  lemma ObservedMore(p: Opening, n: nat, h: seq<Observation>, err: bool)
    requires Observed(p, n, h, false) && p.round.Good(n)
    ensures Observed(p, n + 1, h + [Observation(n, p.round.Listed(n), p.Sightings())], err)
  {
    var o := Observation(n, p.round.Listed(n), p.Sightings());
    assert p.Observes(n + 1) == p.Observes(n) + [o];
    assert h + [o] == p.history + p.Observes(n + 1);
  }

  /** An observation of a later cluster changes no verdict. */
  lemma ToBanStays(p: Opening, h: seq<Observation>, o: Observation, n: nat, id: string)
    requires o.cluster == n
    ensures ToBan(p, h, n, id) ==> ToBan(p, h + [o], n + 1, id)
  {
    if ToBan(p, h, n, id) {
      var j: nat, a :| j < n && p.round.Good(j) && j < |p.conf| && a in p.Sightings() && a.id == id
        && Missed(a, p.round.targets[j].fingerprints, p.round.Listed(j)) && Run(p.conf, h, j, id) % 2 == 0;
      RunStep(p.conf, h, o, j, id);
    }
  }

  /** The hypotheses about agents: listed once, and each at home in one of the
      configured clusters at most. */
  ghost predicate AgentsAtHome(targets: seq<W.Cluster>, bans: BanTracker, agents: seq<Agent>) {
    && |bans.conf| == |targets|
    && (forall i :: 0 <= i < |targets| ==> bans.conf[i] == targets[i].fingerprints)
    && DistinctIDs(Sights(agents))
    && forall i: nat, listed :: i < |targets| ==> AtHome(bans.conf, bans.home, Observation(i, listed, Sights(agents)))
  }

  lemma BannedAtHome(targets: seq<W.Cluster>, bans: BanTracker, agents: seq<Agent>, id: string)
    requires AgentsAtHome(targets, bans, agents)
    ensures AgentsAtHome(targets, bans, Banned(agents, id))
  {
    hide Fingerprints, Names;
    var now := Sights(Banned(agents, id));
    assert forall k :: 0 <= k < |now| ==> now[k].id == Sights(agents)[k].id;
    forall i: nat, listed | i < |targets| ensures AtHome(bans.conf, bans.home, Observation(i, listed, now)) {
      assert AtHome(bans.conf, bans.home, Observation(i, listed, Sights(agents)));
      forall a, c | a in now && 0 <= c < |bans.conf| && Member(a, bans.conf[c]) ensures c == bans.home(a.id) {
        var k :| 0 <= k < |now| && now[k] == a;
        assert a == Sights(agents)[k];
      }
    }
  }

  /** Bans keep these hypotheses. */
  lemma {:induction false} ReplayAtHome(targets: seq<W.Cluster>, bans: BanTracker, s: Store, calls: seq<Call>)
    requires AgentsAtHome(targets, bans, s.agents)
    ensures AgentsAtHome(targets, bans, Replay(s, calls).agents)
  {
    hide AgentsAtHome;
    if calls != [] {
      var front, last := calls[..|calls| - 1], calls[|calls| - 1];
      ReplayAtHome(targets, bans, s, front);
      if last.BanAgent? {
        BannedAtHome(targets, bans, Replay(s, front).agents, last.agentID);
      }
    }
  }

  lemma {:induction false} ReplayNoBans(s: Store, calls: seq<Call>)
    requires NoBans(calls, 0)
    ensures Replay(s, calls).agents == s.agents
  {
    if calls != [] {
      ReplayNoBans(s, calls[..|calls| - 1]);
    }
  }

  /** What a pass leaves of the agents. */
  lemma AgentsAfter(p: Opening, targets: seq<W.Cluster>, bans: BanTracker, end: Store, calls: seq<Call>, parent: string)
    requires Ledger(calls, p.from, p.store, end, parent) && AgentsAtHome(targets, bans, p.store.agents)
    ensures AgentsAtHome(targets, bans, end.agents)
    ensures NoBans(calls, p.from) ==> end.agents == p.store.agents
  {
    hide Chained, Replay, AgentsAtHome;
    ReplayAtHome(targets, bans, p.store, calls[p.from..]);
    if NoBans(calls, p.from) {
      ReplayNoBans(p.store, calls[p.from..]);
    }
  }

  // ----- where a pass stands, and what it leaves

  /** Entries no cluster among the first n owns are as they were. */
  ghost predicate Untouched(r: Round, n: nat, start: set<Entry>, entries: set<Entry>) {
    forall e :: !r.OwnedBefore(e, n) ==> (e in entries <==> e in start)
  }

  /** The first n clusters have converged. */
  ghost predicate Settled(r: Round, n: nat, entries: set<Entry>) {
    forall j: nat :: j < n && r.Good(j) ==> Converged(entries, r.td, r.targets[j].name, r.Keys(j))
  }

  ghost predicate AllConverged(r: Round, entries: set<Entry>) {
    forall j: nat :: r.Good(j) ==> Converged(entries, r.td, r.targets[j].name, r.Keys(j))
  }

  /** The survivors are those of a listing of the start. */
  ghost predicate Surviving(p: Opening, listing: seq<Entry>, survivors: set<Entry>) {
    && IsListing(listing, p.store.entries, Diff.Parent(p.round.td))
    && survivors == Survivors(p.round, p.store.entries, listing)
  }

  /** No entry has changed, nor is there a call that could. */
  ghost predicate Unchanged(p: Opening, entries: set<Entry>, calls: seq<Call>) {
    entries == p.store.entries && Idle(calls, p.from)
  }

  /** Where the entries of a pass stand after its first i clusters. */
  ghost predicate Standing(p: Opening, i: nat, entries: set<Entry>, calls: seq<Call>, have: bool, listing: seq<Entry>,
                           survivors: set<Entry>)
  {
    && UniqueIDs(p.store.entries)
    && (if have then Surviving(p, listing, survivors) else Unchanged(p, entries, calls) && survivors == p.store.entries)
    && Untouched(p.round, i, p.store.entries, entries)
    && survivors <= entries
    && PassCalls(p.round, calls, p.from, survivors, false)
    && Settled(p.round, i, entries)
    && (AllConverged(p.round, p.store.entries) ==> Unchanged(p, entries, calls))
  }

  /** A pass that an error ended after syncing part of the first n clusters. */
  ghost predicate Aborted(p: Opening, n: nat, entries: set<Entry>, calls: seq<Call>, listing: seq<Entry>,
                          survivors: set<Entry>)
  {
    && UniqueIDs(p.store.entries)
    && (Surviving(p, listing, survivors) || Unchanged(p, entries, calls))
    && Untouched(p.round, n, p.store.entries, entries)
    && survivors <= entries
    && PassCalls(p.round, calls, p.from, survivors, true)
    && (AllConverged(p.round, p.store.entries) ==> Unchanged(p, entries, calls))
  }

  /** Entry e is no loss: a cluster read well owns it and does not want its key,
      or it is not a default one, or a default one for its key is there. */
  ghost predicate NoLoss(r: Round, entries: set<Entry>, e: Entry) {
    exists j: nat :: r.Good(j) && Diff.Owned(r.td, r.targets[j].name, e)
      && (EntryKey(e) in r.Keys(j) && e.isDefault ==> HasDefault(entries, r.td, r.targets[j].name, EntryKey(e)))
  }

  /** Entry e is wanted by a cluster read well. */
  ghost predicate Called(r: Round, e: Entry) {
    exists j: nat :: r.Good(j) && Diff.Owned(r.td, r.targets[j].name, e) && e.isDefault && EntryKey(e) in r.Keys(j)
  }

  /** What becomes of the entries, with or without an error: only those of
      clusters read well change; what goes is no loss; what comes is wanted; a
      wanted key served at the start is served at the end. */
  ghost predicate Careful(r: Round, start: set<Entry>, end: set<Entry>) {
    && Untouched(r, |r.targets|, start, end)
    && (forall e :: e in start - end ==> NoLoss(r, end, e))
    && (forall e :: e in end - start ==> Called(r, e))
    && StillServed(r, start, end)
  }

  /** What a pass does to the entries, and how. */
  ghost predicate Outcome(p: Opening, end: Store, calls: seq<Call>, skipped: nat, err: bool) {
    var r, from, start := p.round, p.from, p.store.entries;
    // The store changes by the calls, each from what the one before it left.
    && Ledger(calls, from, p.store, end, Diff.Parent(r.td))
    && Careful(r, start, end.entries)
    // Without an error every cluster read well has converged.
    && (!err ==> AllConverged(r, end.entries))
    // The doubtful reads are counted, up to the cluster an error ends the pass at.
    && (if err then exists m: nat :: m <= |r.targets| && skipped == Doubtful(r, m)
        else skipped == Doubtful(r, |r.targets|))
    // An error comes only from a call the environment failed, and ends the pass.
    && (forall n :: from <= n < |calls| && !calls[n].ok ==> n == |calls| - 1 && err && Forced(calls[n]))
    && (err ==> |calls| > from && !calls[|calls| - 1].ok)
    // A create names wanted keys of one cluster, none that is held, and none twice.
    && (forall n :: from <= n < |calls| && calls[n].Create? ==>
          Wished(r, calls[n]) && NoConflict(calls[n].before, Diff.Parent(r.td), calls[n].aliases))
    // A delete leaves no gap beyond the keys it is about to replace.
    && (forall n :: from <= n < |calls| && calls[n].Delete? ==> Announced(r, calls[n]))
    // At no step does a wanted key lose the default entry it started with.
    && (forall n :: from <= n < |calls| ==> KeepsServing(r, start, calls[n]))
    // A store that is as wanted is left alone.
    && (AllConverged(r, start) ==> end.entries == start && Idle(calls, from))
  }

  /** New calls that only ban, and stop at the first failure. */
  ghost predicate BanCalls(calls: seq<Call>, from: nat, err: bool) {
    && from <= |calls|
    && (forall n :: from <= n < |calls| ==> calls[n].BanAgent? && (!calls[n].ok ==> n == |calls| - 1 && err))
    && (err ==> |calls| > from && !calls[|calls| - 1].ok)
  }

  /** Nobody is banned who is not due. */
  ghost predicate Justified(p: Opening, h: seq<Observation>, n: nat, calls: seq<Call>, from: nat) {
    forall m :: from <= m < |calls| && calls[m].BanAgent? ==> ToBan(p, h, n, calls[m].agentID)
  }

  /** Everyone due by the latest call is banned by one of these calls. */
  ghost predicate AllBanned(conf: seq<seq<string>>, h: seq<Observation>, calls: seq<Call>) {
    forall b :: Due(conf, h, b) ==> BanAgent(b.agentID, true) in calls
  }

  /** Bans name agents that are due; without an error every one due is banned. */
  ghost predicate BanOutcome(p: Opening, n: nat, h: seq<Observation>, calls: seq<Call>, err: bool) {
    && p.from <= |calls|
    && Justified(p, h, n, calls, p.from)
    && (!err ==> forall id :: ToBan(p, h, n, id) ==> BanAgent(id, true) in calls[p.from..])
  }

  /** What a pass does to bans and their history: with bans allowed, it observes
      the clusters read well and bans who is due then; else nothing. */
  ghost predicate BanResult(p: Opening, n: nat, h: seq<Observation>, calls: seq<Call>, err: bool) {
    && p.from <= |calls|
    && (p.allowBans ==> BanOutcome(p, n, h, calls, err) && Observed(p, n, h, err))
    && (!p.allowBans ==> h == p.history && NoBans(calls, p.from))
  }

  /** Where the bans of a pass stand after its first n clusters. */
  ghost predicate BansStand(p: Opening, n: nat, h: seq<Observation>, now: seq<Agent>, calls: seq<Call>,
                            haveAgents: bool, agents: seq<Agent>)
  {
    (if haveAgents then agents else now) == p.store.agents && BanResult(p, n, h, calls, false)
  }

  // ----- one step after another

  lemma DoubtfulStep(r: Round, n: nat)
    ensures Doubtful(r, n + 1) == Doubtful(r, n) + if r.Good(n) then 0 else 1
  {
  }

  lemma NothingDone(p: Opening, calls: seq<Call>)
    requires UniqueIDs(p.store.entries) && p.from == |calls|
    ensures Doubtful(p.round, 0) == 0
    ensures Standing(p, 0, p.store.entries, calls, false, [], p.store.entries)
    ensures BansStand(p, 0, p.history, p.store.agents, calls, false, [])
  {
    hide Observed;
    ObservedNothing(p);
  }

  lemma BansStandParts(p: Opening, n: nat, h: seq<Observation>, now: seq<Agent>, calls: seq<Call>, haveAgents: bool,
                       agents: seq<Agent>)
    requires BansStand(p, n, h, now, calls, haveAgents, agents)
    ensures (if haveAgents then agents else now) == p.store.agents
    ensures BanResult(p, n, h, calls, false)
  {
  }

  lemma BansNone(p: Opening, n: nat, h: seq<Observation>, calls: seq<Call>, err: bool)
    requires BanResult(p, n, h, calls, err)
    ensures !p.allowBans ==> NoBans(calls, p.from)
  {
  }

  lemma UnchangedParts(p: Opening, entries: set<Entry>, calls: seq<Call>)
    requires Unchanged(p, entries, calls)
    ensures entries == p.store.entries && Idle(calls, p.from)
  {
  }

  lemma BansStandAgain(p: Opening, n: nat, h: seq<Observation>, now: seq<Agent>, calls: seq<Call>, haveAgents: bool,
                       agents: seq<Agent>)
    requires (if haveAgents then agents else now) == p.store.agents
    requires BanResult(p, n, h, calls, false)
    ensures BansStand(p, n, h, now, calls, haveAgents, agents)
  {
  }

  lemma StandingCalls(p: Opening, n: nat, entries: set<Entry>, calls: seq<Call>, have: bool, listing: seq<Entry>,
                      survivors: set<Entry>)
    requires Standing(p, n, entries, calls, have, listing, survivors)
    ensures PassCalls(p.round, calls, p.from, survivors, false)
  {
  }

  lemma UnchangedAborts(p: Opening, n: nat, calls: seq<Call>, listing: seq<Entry>)
    requires UniqueIDs(p.store.entries) && PassCalls(p.round, calls, p.from, p.store.entries, true)
             && Idle(calls, p.from)
    ensures Aborted(p, n, p.store.entries, calls, listing, p.store.entries)
  {
  }

  lemma StandingAborts(p: Opening, n: nat, entries: set<Entry>, before: seq<Call>, calls: seq<Call>,
                       listing: seq<Entry>, survivors: set<Entry>)
    requires Standing(p, n, entries, before, true, listing, survivors)
    requires before <= calls && Idle(calls, |before|) && PassCalls(p.round, calls, p.from, survivors, true)
    ensures Aborted(p, n, entries, calls, listing, survivors)
  {
    assert forall n :: p.from <= n < |before| ==> calls[n] == before[n];
  }

  lemma NextSkipped(r: Round, i: nat)
    requires !r.Good(i)
    ensures forall e :: r.OwnedBefore(e, i + 1) <==> r.OwnedBefore(e, i)
  {
  }

  lemma SkippedKeepsStanding(p: Opening, i: nat, entries: set<Entry>, calls: seq<Call>, have: bool, listing: seq<Entry>,
                             survivors: set<Entry>)
    requires Standing(p, i, entries, calls, have, listing, survivors)
    requires !p.round.Good(i)
    ensures Standing(p, i + 1, entries, calls, have, listing, survivors)
  {
    NextSkipped(p.round, i);
  }

  lemma NoBansJoin(a: seq<Call>, b: seq<Call>, c: seq<Call>)
    requires a <= b <= c
    requires NoBans(b, |a|) && NoBans(c, |b|)
    ensures NoBans(c, |a|)
  {
    assert forall n :: |a| <= n < |b| ==> c[n] == b[n];
  }

  lemma IdleJoin(a: seq<Call>, b: seq<Call>, c: seq<Call>)
    requires a <= b <= c && Idle(b, |a|) && Idle(c, |b|)
    ensures Idle(c, |a|)
  {
    assert forall n :: |a| <= n < |b| ==> c[n] == b[n];
  }

  lemma OwnedMonotone(r: Round, m: nat, n: nat, start: set<Entry>, entries: set<Entry>)
    requires m <= n && Untouched(r, m, start, entries)
    ensures Untouched(r, n, start, entries)
  {
    assert forall e :: r.OwnedBefore(e, m) ==> r.OwnedBefore(e, n);
  }

  /** Every call of a pass keeps serving, whether or not entries were listed. */
  lemma AllKeepServing(p: Opening, entries: set<Entry>, calls: seq<Call>, listing: seq<Entry>, survivors: set<Entry>,
                       err: bool)
    requires Configured(p.round.targets) && UniqueIDs(p.store.entries)
    requires PassCalls(p.round, calls, p.from, survivors, err)
    requires Surviving(p, listing, survivors) || Unchanged(p, entries, calls)
    ensures forall n :: p.from <= n < |calls| ==> KeepsServing(p.round, p.store.entries, calls[n])
  {
    hide StillServed, Survivors, IsListing;
    forall n | p.from <= n < |calls| ensures KeepsServing(p.round, p.store.entries, calls[n]) {
      if calls[n].Create? || calls[n].Delete? {
        ServingKept(p.round, p.store.entries, listing, calls[n].before);
        ServingKept(p.round, p.store.entries, listing, calls[n].after);
      }
    }
  }

  /** What no survivor is was no loss. */
  lemma GoneIsNoLoss(r: Round, start: set<Entry>, listing: seq<Entry>, entries: set<Entry>, e: Entry)
    requires Configured(r.targets)
    requires UniqueIDs(start) && IsListing(listing, start, Diff.Parent(r.td))
    requires Survivors(r, start, listing) <= entries
    requires e in start && e !in entries
    ensures NoLoss(r, entries, e)
  {
    hide Configured, IsListing, Stale, EntryKey;
    var j: nat :| r.Good(j) && e in Stale(r.td, r.targets[j].name, listing, r.Keys(j));
    StaleIsOwned(r.td, r.targets[j].name, listing, r.Keys(j));
    ServingKept(r, start, listing, entries);
    if EntryKey(e) in r.Keys(j) && e.isDefault {
      assert HasDefault(start, r.td, r.targets[j].name, EntryKey(e));
    }
  }

  lemma NewIsCalled(p: Opening, end: Store, calls: seq<Call>, survivors: set<Entry>, err: bool, e: Entry)
    requires Ledger(calls, p.from, p.store, end, Diff.Parent(p.round.td))
    requires PassCalls(p.round, calls, p.from, survivors, err)
    requires e in end.entries - p.store.entries
    ensures Called(p.round, e)
  {
    hide Replay, Passes.CallSafe, WantedKeys;
    var r, later := p.round, calls[p.from..];
    var n := NewIsCreated(p.store, later, Diff.Parent(r.td), e);
    assert Follows(p.store, later, Diff.Parent(r.td), n);
    assert calls[p.from + n] == later[n] && CallOk(r, calls[p.from + n], survivors);
    var j: nat :| r.Good(j) && Diff.Keys(later[n].aliases) <= r.Keys(j);
    WantedUnder(r.text, r.td, r.targets[j], r.readings[j].value);
    assert EntryKey(e) in r.Keys(j);
  }

  /** With or without an error a pass is careful. */
  lemma PassIsCareful(p: Opening, n: nat, end: Store, calls: seq<Call>, listing: seq<Entry>, survivors: set<Entry>,
                      err: bool)
    requires Configured(p.round.targets) && n <= |p.round.targets| && UniqueIDs(p.store.entries)
    requires Ledger(calls, p.from, p.store, end, Diff.Parent(p.round.td))
    requires Surviving(p, listing, survivors) || Unchanged(p, end.entries, calls)
    requires Untouched(p.round, n, p.store.entries, end.entries) && survivors <= end.entries
    requires PassCalls(p.round, calls, p.from, survivors, err)
    ensures Careful(p.round, p.store.entries, end.entries)
  {
    hide Ledger, Untouched, PassCalls, IsListing, Survivors, NoLoss, Called, HasDefault, Configured, UniqueIDs;
    var r, start, entries := p.round, p.store.entries, end.entries;
    OwnedMonotone(r, n, |r.targets|, start, entries);
    forall e | e in start - entries ensures NoLoss(r, entries, e) {
      GoneIsNoLoss(r, start, listing, entries, e);
    }
    forall e | e in entries - start ensures Called(r, e) {
      NewIsCalled(p, end, calls, survivors, err, e);
    }
    if Surviving(p, listing, survivors) {
      ServingKept(r, start, listing, entries);
    }
  }

  lemma AbortedOutcome(p: Opening, n: nat, end: Store, calls: seq<Call>, listing: seq<Entry>, survivors: set<Entry>,
                       skipped: nat)
    requires Configured(p.round.targets) && n <= |p.round.targets| && skipped == Doubtful(p.round, n)
    requires Aborted(p, n, end.entries, calls, listing, survivors)
    requires Ledger(calls, p.from, p.store, end, Diff.Parent(p.round.td))
    ensures Outcome(p, end, calls, skipped, true)
  {
    hide Doubtful, Configured, Ledger, Careful, Untouched, Surviving, KeepsServing, AllConverged, Wished, Announced,
         UniqueIDs;
    PassIsCareful(p, n, end, calls, listing, survivors, true);
    AllKeepServing(p, end.entries, calls, listing, survivors, true);
  }

  lemma DoneOutcome(p: Opening, end: Store, calls: seq<Call>, have: bool, listing: seq<Entry>, survivors: set<Entry>)
    requires Configured(p.round.targets)
    requires Standing(p, |p.round.targets|, end.entries, calls, have, listing, survivors)
    requires Ledger(calls, p.from, p.store, end, Diff.Parent(p.round.td))
    ensures Outcome(p, end, calls, Doubtful(p.round, |p.round.targets|), false)
  {
    hide Configured, Ledger, Careful, Untouched, Surviving, KeepsServing, Converged, Wished, Announced, UniqueIDs;
    PassIsCareful(p, |p.round.targets|, end, calls, listing, survivors, false);
    AllKeepServing(p, end.entries, calls, listing, survivors, false);
  }

  /** A cluster that was not read adds no one to ban. */
  lemma MoreClusters(p: Opening, h: seq<Observation>, m: nat, n: nat, calls: seq<Call>)
    requires m <= n
    ensures Justified(p, h, m, calls, p.from) ==> Justified(p, h, n, calls, p.from)
    ensures n == m + 1 && !p.round.Good(m) ==> forall id :: ToBan(p, h, n, id) ==> ToBan(p, h, m, id)
  {
  }

  lemma BansAborted(p: Opening, m: nat, n: nat, h: seq<Observation>, calls: seq<Call>)
    requires m <= n && BanResult(p, m, h, calls, true)
    ensures BanResult(p, n, h, calls, true)
  {
    if p.allowBans {
      MoreClusters(p, h, m, n, calls);
      ObservedFails(p, m, n, h, true);
    }
  }

  /** Calls that ban no one keep the standing of the bans. */
  lemma BansUntouched(p: Opening, m: nat, n: nat, h: seq<Observation>, before: seq<Call>, calls: seq<Call>, err: bool)
    requires BanResult(p, m, h, before, false)
    requires before <= calls && NoBans(calls, |before|)
    requires m == n || (n == m + 1 && (err || !p.allowBans || !p.round.Good(m)))
    ensures BanResult(p, n, h, calls, err)
  {
    if p.allowBans {
      MoreClusters(p, h, m, n, before);
      if err {
        ObservedFails(p, m, n, h, false);
      } else if m < n {
        ObservedSkipped(p, m, h);
      }
      forall k | p.from <= k < |calls| && calls[k].BanAgent? ensures ToBan(p, h, n, calls[k].agentID) {
        assert calls[k] == before[k];
      }
      assert forall c :: c in before[p.from..] ==> c in calls[p.from..];
    } else {
      assert forall k :: p.from <= k < |before| ==> calls[k] == before[k];
    }
  }

  lemma AgentsCall(p: Opening, h: seq<Observation>, n: nat, before: seq<Call>, calls: seq<Call>, survivors: set<Entry>,
                   ok: bool)
    requires BanOutcome(p, n, h, before, false)
    requires PassCalls(p.round, before, p.from, survivors, false)
    requires calls == before + [ListAgents(ok)]
    ensures BanOutcome(p, if ok then n else n + 1, h, calls, !ok)
    ensures PassCalls(p.round, calls, p.from, survivors, !ok)
    ensures Idle(calls, |before|)
  {
    MoreClusters(p, h, n, n + 1, before);
    assert calls[p.from..] == before[p.from..] + [ListAgents(ok)];
    assert forall m :: p.from <= m < |before| ==> calls[m] == before[m];
  }

  lemma BanCallsExtend(r: Round, before: seq<Call>, calls: seq<Call>, from: nat, survivors: set<Entry>, err: bool)
    requires PassCalls(r, before, from, survivors, false)
    requires before <= calls && BanCalls(calls, |before|, err)
    ensures PassCalls(r, calls, from, survivors, err)
    ensures Idle(calls, |before|)
  {
    forall n | from <= n < |calls|
      ensures CallOk(r, calls[n], survivors) && (!calls[n].ok ==> n == |calls| - 1 && err && Forced(calls[n]))
    {
      if n < |before| {
        assert calls[n] == before[n];
      }
    }
  }

  lemma ToBanSplit(p: Opening, h: seq<Observation>, o: Observation, i: nat, id: string)
    requires p.round.Good(i) && i < |p.conf| && p.conf[i] == p.round.targets[i].fingerprints
    requires o == Observation(i, p.round.Listed(i), p.Sightings())
    requires ToBan(p, h + [o], i + 1, id)
    ensures ToBan(p, h, i, id) || exists b :: Due(p.conf, h + [o], b) && b.agentID == id
  {
    var g := h + [o];
    var j: nat, a :| j < i + 1 && p.round.Good(j) && j < |p.conf| && a in p.Sightings() && a.id == id
      && Missed(a, p.round.targets[j].fingerprints, p.round.Listed(j)) && Run(p.conf, g, j, id) % 2 == 0;
    if j == i {
      assert g[|g| - 1] == o;
      assert Due(p.conf, g, Ban(a.id, a.vmid));
    } else {
      RunStep(p.conf, h, o, j, id);
    }
  }

  /** One more cluster's observation and bans. */
  lemma BansExtend(p: Opening, h: seq<Observation>, o: Observation, i: nat, before: seq<Call>, calls: seq<Call>,
                   err: bool)
    requires p.round.Good(i) && i < |p.conf| && p.conf[i] == p.round.targets[i].fingerprints
    requires o == Observation(i, p.round.Listed(i), p.Sightings())
    requires BanOutcome(p, i, h, before, false)
    requires before <= calls
    requires Justified(p, h + [o], i + 1, calls, |before|)
    requires !err ==> AllBanned(p.conf, h + [o], calls[|before|..])
    ensures BanOutcome(p, i + 1, h + [o], calls, err)
  {
    hide ToBan, Due;
    var from := p.from;
    forall m | from <= m < |calls| && calls[m].BanAgent? ensures ToBan(p, h + [o], i + 1, calls[m].agentID) {
      if m < |before| {
        assert calls[m] == before[m];
        ToBanStays(p, h, o, i, calls[m].agentID);
      }
    }
    if !err {
      forall id | ToBan(p, h + [o], i + 1, id) ensures BanAgent(id, true) in calls[from..] {
        ToBanSplit(p, h, o, i, id);
        if ToBan(p, h, i, id) {
          var k :| 0 <= k < |before[from..]| && before[from..][k] == BanAgent(id, true);
          assert calls[from..][k] == before[from + k];
        } else {
          var b :| Due(p.conf, h + [o], b) && b.agentID == id;
          var k :| 0 <= k < |calls[|before|..]| && calls[|before|..][k] == BanAgent(id, true);
          assert calls[from..][|before| - from + k] == calls[|before| + k];
        }
      }
    }
  }

  lemma OwnedMore(r: Round, i: nat)
    requires r.Good(i)
    ensures forall e :: r.OwnedBefore(e, i + 1) <==> r.OwnedBefore(e, i) || Diff.Owned(r.td, r.targets[i].name, e)
  {
  }

  lemma UntouchedMore(r: Round, i: nat, start: set<Entry>, before: set<Entry>, entries: set<Entry>)
    requires r.Good(i) && Untouched(r, i, start, before)
    requires forall e :: !Diff.Owned(r.td, r.targets[i].name, e) ==> (e in entries <==> e in before)
    ensures Untouched(r, i + 1, start, entries)
  {
    OwnedMore(r, i);
  }

  lemma SettledMore(r: Round, i: nat, before: set<Entry>, entries: set<Entry>)
    requires Configured(r.targets) && r.Good(i) && Settled(r, i, before)
    requires forall e :: !Diff.Owned(r.td, r.targets[i].name, e) ==> (e in entries <==> e in before)
    requires Converged(entries, r.td, r.targets[i].name, r.Keys(i))
    ensures Settled(r, i + 1, entries)
  {
    forall j: nat | j < i && r.Good(j) ensures Converged(entries, r.td, r.targets[j].name, r.Keys(j)) {
      StillConverged(r, before, entries, i, j);
    }
  }

  /** One more cluster synced, or an error on the way. */
  lemma SyncKeepsStanding(p: Opening, i: nat, before: set<Entry>, entries: set<Entry>, calls0: seq<Call>,
                          calls: seq<Call>, listing: seq<Entry>, survivors: set<Entry>, err: bool)
    requires Configured(p.round.targets) && p.round.Good(i)
    requires Standing(p, i, before, calls0, true, listing, survivors)
    requires forall e :: !Diff.Owned(p.round.td, p.round.targets[i].name, e) ==> (e in entries <==> e in before)
    requires survivors <= entries && PassCalls(p.round, calls, p.from, survivors, err)
    requires !err ==> Converged(entries, p.round.td, p.round.targets[i].name, p.round.Keys(i))
    requires Converged(before, p.round.td, p.round.targets[i].name, p.round.Keys(i)) ==>
               !err && calls == calls0 && entries == before
    ensures !err ==> Standing(p, i + 1, entries, calls, true, listing, survivors)
    ensures err ==> Aborted(p, i + 1, entries, calls, listing, survivors)
  {
    UntouchedMore(p.round, i, p.store.entries, before, entries);
    if !err {
      SettledMore(p.round, i, before, entries);
    }
  }

  /** Calls that change no entry keep that standing. */
  lemma IdleKeepsStanding(p: Opening, i: nat, entries: set<Entry>, before: seq<Call>, calls: seq<Call>,
                          have: bool, listing: seq<Entry>, survivors: set<Entry>)
    requires Standing(p, i, entries, before, have, listing, survivors)
    requires before <= calls && Idle(calls, |before|) && PassCalls(p.round, calls, p.from, survivors, false)
    ensures Standing(p, i, entries, calls, have, listing, survivors)
  {
    assert forall n :: p.from <= n < |before| ==> calls[n] == before[n];
  }

  /** The new calls ban agents of this list. */
  ghost predicate BansOf(calls: seq<Call>, from: nat, due: seq<Ban>) {
    forall m :: from <= m < |calls| ==>
      calls[m].BanAgent? && exists k :: 0 <= k < |due| && calls[m].agentID == due[k].agentID
  }

  lemma BansOfNone(calls: seq<Call>, due: seq<Ban>)
    ensures BansOf(calls, |calls|, due)
  {
  }

  lemma BansOfMore(calls: seq<Call>, from: nat, due: seq<Ban>, k: nat, ok: bool)
    requires BansOf(calls, from, due) && k < |due|
    ensures BansOf(calls + [BanAgent(due[k].agentID, ok)], from, due)
  {
    var more := calls + [BanAgent(due[k].agentID, ok)];
    assert forall m :: from <= m < |calls| ==> more[m] == calls[m];
  }

  lemma BannedAreDue(p: Opening, h: seq<Observation>, n: nat, due: seq<Ban>, calls: seq<Call>, from: nat)
    requires forall k :: 0 <= k < |due| ==> ToBan(p, h, n, due[k].agentID)
    requires BansOf(calls, from, due)
    ensures Justified(p, h, n, calls, from)
  {
  }

  lemma DueIsToBan(p: Opening, h: seq<Observation>, i: nat, b: Ban)
    requires p.round.Good(i) && i < |p.conf| && p.conf[i] == p.round.targets[i].fingerprints
    requires |h| > 0 && h[|h| - 1] == Observation(i, p.round.Listed(i), p.Sightings())
    requires Due(p.conf, h, b)
    ensures ToBan(p, h, i + 1, b.agentID)
  {
  }

  lemma WellFormedMore(conf: seq<seq<string>>, home: string -> nat, h: seq<Observation>, o: Observation)
    requires WellFormed(conf, home, h)
    requires o.cluster < |conf| && DistinctIDs(o.agents) && AtHome(conf, home, o)
    ensures WellFormed(conf, home, h + [o])
  {
  }

  lemma SyncExtendsPass(r: Round, before: seq<Call>, calls: seq<Call>, from: nat, survivors: set<Entry>, i: nat,
                        err: bool)
    requires PassCalls(r, before, from, survivors, false)
    requires r.Good(i) && before <= calls
    requires Passes.SyncCalls(calls, |before|, r.td, r.targets[i].name, r.Keys(i), survivors, err)
    ensures PassCalls(r, calls, from, survivors, err)
  {
    forall n | from <= n < |calls|
      ensures CallOk(r, calls[n], survivors) && (!calls[n].ok ==> n == |calls| - 1 && err && Forced(calls[n]))
    {
      if n < |before| {
        assert calls[n] == before[n];
      }
    }
  }

  // ----- the reconciler

  class Reconciler {
    const td: string
    const text: W.Text
    const targets: seq<W.Cluster>
    const server: Server
    const bans: BanTracker
    const syncer: Passes.Syncer

    constructor (td: string, text: W.Text, targets: seq<W.Cluster>, server: Server, bans: BanTracker)
      ensures this.td == td && this.text == text && this.targets == targets && this.server == server
              && this.bans == bans
      ensures syncer.td == td && syncer.server == server
    {
      this.td, this.text, this.targets, this.server, this.bans := td, text, targets, server, bans;
      syncer := new Passes.Syncer(td, server);
    }

    ghost predicate Valid()
      reads server, bans
    {
      && syncer.td == td && syncer.server == server
      && server.Valid() && server.parent == Diff.Parent(td)
      && Configured(targets)
      && bans.Valid()
    }

    ghost function RoundOf(readings: seq<Option<seq<W.Guest>>>): Round {
      Round(text, td, targets, readings)
    }

    /** A pass with these inputs, begun now. */
    ghost function Begin(readings: seq<Option<seq<W.Guest>>>, allowBans: bool): Opening
      reads server, bans
    {
      Opening(RoundOf(readings), allowBans, bans.conf, server.Now(), |server.calls|, bans.history)
    }

    /** The pass p is one of this reconciler, and so are the agents it found. */
    ghost predicate Underway(p: Opening, readings: seq<Option<seq<W.Guest>>>)
      reads server, bans
    {
      Valid() && p.round == RoundOf(readings) && p.conf == bans.conf && AgentsAtHome(targets, bans, p.store.agents)
    }

    /** One cluster: compute what is wanted, then sync. */
    method SyncTarget(i: nat, readings: seq<Option<seq<W.Guest>>>, listing: seq<Entry>, ghost start: set<Entry>,
                      ghost from: nat)
      returns (err: bool)
      requires Valid() && UniqueIDs(start)
      requires RoundOf(readings).Good(i)
      requires IsListing(listing, start, server.parent)
      requires forall e :: !RoundOf(readings).OwnedBefore(e, i) ==> (e in server.entries <==> e in start)
      requires Survivors(RoundOf(readings), start, listing) <= server.entries
      requires PassCalls(RoundOf(readings), server.calls, from, Survivors(RoundOf(readings), start, listing), false)
      modifies server`entries, server`next, server`calls
      ensures Valid()
      ensures forall e :: !Diff.Owned(td, targets[i].name, e) ==> (e in server.entries <==> e in old(server.entries))
      ensures Survivors(RoundOf(readings), start, listing) <= server.entries
      ensures !err ==> Converged(server.entries, td, targets[i].name, RoundOf(readings).Keys(i))
      ensures Converged(old(server.entries), td, targets[i].name, RoundOf(readings).Keys(i)) ==>
                !err && server.calls == old(server.calls) && server.entries == old(server.entries)
      ensures old(server.calls) <= server.calls
      ensures PassCalls(RoundOf(readings), server.calls, from, Survivors(RoundOf(readings), start, listing), err)
      ensures Ledger(server.calls, |old(server.calls)|, old(server.Now()), server.Now(), server.parent)
      ensures Passes.FirstFails(server.calls, |old(server.calls)|) ==> old(server.entries) <= server.entries
      ensures NoBans(server.calls, |old(server.calls)|)
    {
      hide Ledger;
      ghost var r := RoundOf(readings);
      var guests := readings[i].value;
      var aliases, problems := W.Compute(text, td, targets[i], guests);
      assert Diff.Keys(aliases) == r.Keys(i);
      WantedUnder(text, td, targets[i], guests);
      StillFresh(r, start, server.entries, listing, i);
      ghost var survivors := Survivors(r, start, listing);
      ghost var calls0 := server.calls;
      err := syncer.Sync(targets[i].name, aliases, listing, survivors);
      SyncExtendsPass(r, calls0, server.calls, from, survivors, i, err);
    }

    /** Count the cluster's read toward bans and ban who is due. */
    method BanTarget(i: nat, readings: seq<Option<seq<W.Guest>>>, agents: seq<Agent>, ghost p: Opening)
      returns (err: bool)
      requires Underway(p, readings) && agents == p.store.agents && RoundOf(readings).Good(i)
      modifies bans, server`agents, server`calls
      ensures Underway(p, readings)
      ensures bans.history == old(bans.history) + [Observation(i, RoundOf(readings).Listed(i), Sights(agents))]
      ensures old(server.calls) <= server.calls
      ensures BanCalls(server.calls, |old(server.calls)|, err)
      ensures Justified(p, bans.history, i + 1, server.calls, |old(server.calls)|)
      ensures !err ==> AllBanned(bans.conf, bans.history, server.calls[|old(server.calls)|..])
    {
      hide Ledger;
      ghost var sightings, from := Sights(agents), |server.calls|;
      var listed := set g | g in readings[i].value :: g.vmid;
      WellFormedMore(bans.conf, bans.home, bans.history, Observation(i, listed, sightings));
      var due := bans.Observe(targets[i].fingerprints, listed, agents, i, sightings);
      forall k | 0 <= k < |due| ensures ToBan(p, bans.history, i + 1, due[k].agentID) {
        DueIsToBan(p, bans.history, i, due[k]);
      }
      ghost var history := bans.history;
      err := BanAll(due);
      BannedAreDue(p, history, i + 1, due, server.calls, from);
    }

    method BanAll(due: seq<Ban>) returns (err: bool)
      requires server.Valid()
      modifies server`agents, server`calls
      ensures server.Valid()
      ensures old(server.calls) <= server.calls
      ensures BanCalls(server.calls, |old(server.calls)|, err)
      ensures BansOf(server.calls, |old(server.calls)|, due)
      ensures !err ==> forall k :: 0 <= k < |due| ==>
                BanAgent(due[k].agentID, true) in server.calls[|old(server.calls)|..]
    {
      hide Ledger, BansOf;
      err := false;
      ghost var from := |server.calls|;
      BansOfNone(server.calls, due);
      for k := 0 to |due|
        invariant server.Valid()
        invariant old(server.calls) <= server.calls
        invariant BanCalls(server.calls, from, false)
        invariant BansOf(server.calls, from, due)
        invariant forall l :: 0 <= l < k ==> BanAgent(due[l].agentID, true) in server.calls[from..]
      {
        ghost var before := server.calls;
        var ok := server.Ban(due[k].agentID);
        BansOfMore(before, from, due, k, ok);
        assert server.calls[from..] == before[from..] + [BanAgent(due[k].agentID, ok)];
        if !ok {
          return true;
        }
      }
    }

    // ----- the pass

    /** Takes the listing before the first sync. */
    method ListOnce(ghost p: Opening, ghost i: nat, have: bool, listing: seq<Entry>, ghost survivors: set<Entry>)
      returns (ok: bool, listing': seq<Entry>, ghost survivors': set<Entry>)
      requires Valid() && p.round.td == td && p.round.targets == targets
      requires Standing(p, i, server.entries, server.calls, have, listing, survivors)
      modifies server`calls
      ensures Valid()
      ensures ok ==> Standing(p, i, server.entries, server.calls, true, listing', survivors')
      ensures old(server.calls) <= server.calls && NoBans(server.calls, |old(server.calls)|)
      ensures !ok ==>
                && PassCalls(p.round, server.calls, p.from, p.store.entries, true)
                && Unchanged(p, server.entries, server.calls)
    {
      hide Ledger, Converged, AllConverged, Untouched;
      ok, listing', survivors' := true, listing, survivors;
      if !have {
        ghost var before := server.calls;
        ok, listing' := server.Entries();
        survivors' := Survivors(p.round, p.store.entries, listing');
        assert forall n :: p.from <= n < |before| ==> server.calls[n] == before[n];
      }
    }

    /** One cluster read well. */
    method SyncNext(i: nat, readings: seq<Option<seq<W.Guest>>>, listing: seq<Entry>, ghost p: Opening,
                    ghost survivors: set<Entry>)
      returns (err: bool)
      requires Valid() && p.round == RoundOf(readings) && p.round.Good(i)
      requires Standing(p, i, server.entries, server.calls, true, listing, survivors)
      modifies server`entries, server`next, server`calls
      ensures Valid()
      ensures old(server.calls) <= server.calls && NoBans(server.calls, |old(server.calls)|)
      ensures !err ==> Standing(p, i + 1, server.entries, server.calls, true, listing, survivors)
      ensures err ==> Aborted(p, i + 1, server.entries, server.calls, listing, survivors)
    {
      hide Ledger;
      ghost var before, calls := server.entries, server.calls;
      err := SyncTarget(i, readings, listing, p.store.entries, p.from);
      SyncKeepsStanding(p, i, before, server.entries, calls, server.calls, listing, survivors, err);
    }

    /** The entries of one cluster read well, listed first when they are not yet. */
    method Entries(i: nat, readings: seq<Option<seq<W.Guest>>>, haveEntries: bool, listing: seq<Entry>,
                   ghost p: Opening, ghost survivors: set<Entry>)
      returns (err: bool, listing': seq<Entry>, ghost survivors': set<Entry>)
      requires Valid() && p.round == RoundOf(readings) && p.round.Good(i)
      requires Standing(p, i, server.entries, server.calls, haveEntries, listing, survivors)
      modifies server`entries, server`next, server`calls
      ensures Valid() && old(server.calls) <= server.calls && NoBans(server.calls, |old(server.calls)|)
      ensures !err ==> Standing(p, i + 1, server.entries, server.calls, true, listing', survivors')
      ensures err ==> Aborted(p, i + 1, server.entries, server.calls, listing', survivors')
    {
      ghost var calls0 := server.calls;
      assert p.round.td == td && p.round.targets == targets && UniqueIDs(p.store.entries);
      hide *;
      var ok;
      ok, listing', survivors' := ListOnce(p, i, haveEntries, listing, survivors);
      if !ok {
        UnchangedParts(p, server.entries, server.calls);
        UnchangedAborts(p, i + 1, server.calls, listing');
        return true, listing', p.store.entries;
      }
      ghost var calls1 := server.calls;
      err := SyncNext(i, readings, listing', p, survivors');
      NoBansJoin(calls0, calls1, server.calls);
    }

    /** Lists the agents before the first bans. */
    method AgentsOnce(ghost p: Opening, ghost n: nat, haveAgents: bool, agents: seq<Agent>, ghost survivors: set<Entry>)
      returns (ok: bool, agents': seq<Agent>)
      requires Valid() && p.allowBans
      requires BansStand(p, n, bans.history, server.agents, server.calls, haveAgents, agents)
      requires PassCalls(p.round, server.calls, p.from, survivors, false)
      modifies server`calls
      ensures Valid()
      ensures ok ==> BansStand(p, n, bans.history, server.agents, server.calls, true, agents')
      ensures !ok ==> BanResult(p, n + 1, bans.history, server.calls, true)
      ensures old(server.calls) <= server.calls && Idle(server.calls, |old(server.calls)|)
      ensures PassCalls(p.round, server.calls, p.from, survivors, !ok)
    {
      hide Ledger, Observed, BanOutcome;
      ok, agents' := true, agents;
      if !haveAgents {
        ghost var before := server.calls;
        ok, agents' := server.Agents();
        AgentsCall(p, bans.history, n, before, server.calls, survivors, ok);
        ObservedFails(p, n, n + 1, bans.history, false);
      }
    }

    /** The bans after one cluster read well. */
    method BanNext(i: nat, readings: seq<Option<seq<W.Guest>>>, agents: seq<Agent>, ghost p: Opening,
                   ghost survivors: set<Entry>)
      returns (err: bool)
      requires Underway(p, readings) && p.allowBans && p.round.Good(i)
      requires BansStand(p, i, bans.history, server.agents, server.calls, true, agents)
      requires PassCalls(p.round, server.calls, p.from, survivors, false)
      modifies bans, server`agents, server`calls
      ensures Underway(p, readings)
      ensures old(server.calls) <= server.calls && Idle(server.calls, |old(server.calls)|)
      ensures PassCalls(p.round, server.calls, p.from, survivors, err)
      ensures BanResult(p, i + 1, bans.history, server.calls, err)
    {
      hide Ledger, Observed, BanOutcome, Justified, AllBanned;
      ghost var calls, h := server.calls, bans.history;
      err := BanTarget(i, readings, agents, p);
      BanCallsExtend(p.round, calls, server.calls, p.from, survivors, err);
      BansExtend(p, h, Observation(i, p.round.Listed(i), p.Sightings()), i, calls, server.calls, err);
      ObservedMore(p, i, h, err);
    }

    /** The bans part of one cluster. */
    method Bans(i: nat, readings: seq<Option<seq<W.Guest>>>, haveAgents: bool, agents: seq<Agent>, ghost p: Opening,
                ghost survivors: set<Entry>)
      returns (err: bool, agents': seq<Agent>)
      requires Underway(p, readings) && p.allowBans && p.round.Good(i)
      requires BansStand(p, i, bans.history, server.agents, server.calls, haveAgents, agents)
      requires PassCalls(p.round, server.calls, p.from, survivors, false)
      modifies bans, server`agents, server`calls
      ensures Underway(p, readings)
      ensures old(server.calls) <= server.calls && Idle(server.calls, |old(server.calls)|)
      ensures PassCalls(p.round, server.calls, p.from, survivors, err)
      ensures BanResult(p, i + 1, bans.history, server.calls, err)
      ensures !err ==> agents' == p.store.agents
    {
      hide Ledger, PassCalls, BanResult, Idle;
      ghost var calls0 := server.calls;
      var ok;
      ok, agents' := AgentsOnce(p, i, haveAgents, agents, survivors);
      err := !ok;
      if ok {
        ghost var calls1 := server.calls;
        err := BanNext(i, readings, agents', p, survivors);
        IdleJoin(calls0, calls1, server.calls);
      }
    }

    /** The bans of one cluster read well, its entries in line. */
    method NextBans(i: nat, readings: seq<Option<seq<W.Guest>>>, haveAgents: bool, agents: seq<Agent>,
                    ghost p: Opening, ghost listing: seq<Entry>, ghost survivors: set<Entry>)
      returns (err: bool, agents': seq<Agent>)
      requires Underway(p, readings) && p.allowBans && p.round.Good(i)
      requires Standing(p, i + 1, server.entries, server.calls, true, listing, survivors)
      requires BansStand(p, i, bans.history, server.agents, server.calls, haveAgents, agents)
      modifies bans, server`agents, server`calls
      ensures Underway(p, readings) && old(server.calls) <= server.calls
      ensures !err ==> Standing(p, i + 1, server.entries, server.calls, true, listing, survivors)
      ensures !err ==> BansStand(p, i + 1, bans.history, server.agents, server.calls, true, agents')
      ensures err ==> Aborted(p, i + 1, server.entries, server.calls, listing, survivors)
      ensures err ==> BanResult(p, i + 1, bans.history, server.calls, true)
    {
      hide *;
      ghost var calls := server.calls;
      StandingCalls(p, i + 1, server.entries, calls, true, listing, survivors);
      err, agents' := Bans(i, readings, haveAgents, agents, p, survivors);
      if err {
        StandingAborts(p, i + 1, server.entries, calls, server.calls, listing, survivors);
      } else {
        IdleKeepsStanding(p, i + 1, server.entries, calls, server.calls, true, listing, survivors);
        BansStandAgain(p, i + 1, bans.history, server.agents, server.calls, true, agents');
      }
    }

    lemma StaysUnderway(p: Opening, readings: seq<Option<seq<W.Guest>>>)
      requires Valid() && p.round == RoundOf(readings) && p.conf == bans.conf
               && AgentsAtHome(targets, bans, p.store.agents)
      ensures Underway(p, readings)
    {
    }

    /** One cluster read well: sync, then bans. */
    method Next(i: nat, readings: seq<Option<seq<W.Guest>>>, allowBans: bool, haveEntries: bool, listing: seq<Entry>,
                haveAgents: bool, agents: seq<Agent>, ghost p: Opening, ghost survivors: set<Entry>)
      returns (err: bool, listing': seq<Entry>, agents': seq<Agent>, ghost survivors': set<Entry>)
      requires Underway(p, readings) && p.allowBans == allowBans && p.round.Good(i)
      requires Standing(p, i, server.entries, server.calls, haveEntries, listing, survivors)
      requires BansStand(p, i, bans.history, server.agents, server.calls, haveAgents, agents)
      modifies server, bans
      ensures Underway(p, readings) && old(server.calls) <= server.calls
      ensures !err ==> Standing(p, i + 1, server.entries, server.calls, true, listing', survivors')
      ensures !err ==> BansStand(p, i + 1, bans.history, server.agents, server.calls, haveAgents || allowBans, agents')
      ensures err ==> Aborted(p, i + 1, server.entries, server.calls, listing', survivors')
      ensures err ==> BanResult(p, i + 1, bans.history, server.calls, true)
    {
      assert Valid() && p.round == RoundOf(readings) && p.conf == bans.conf
             && AgentsAtHome(targets, bans, p.store.agents);
      hide *;
      ghost var calls0 := server.calls;
      BansStandParts(p, i, bans.history, server.agents, server.calls, haveAgents, agents);
      agents' := agents;
      err, listing', survivors' := Entries(i, readings, haveEntries, listing, p, survivors);
      StaysUnderway(p, readings);
      ghost var calls1 := server.calls;
      var n := if err || !allowBans then i + 1 else i;
      BansUntouched(p, i, n, bans.history, calls0, calls1, err);
      if err {
        return;
      }
      BansStandAgain(p, n, bans.history, server.agents, calls1, haveAgents, agents);
      if !allowBans {
        return;
      }
      err, agents' := NextBans(i, readings, haveAgents, agents, p, listing', survivors');
    }

    lemma GoodMeaning(p: Opening, readings: seq<Option<seq<W.Guest>>>, i: nat)
      requires Underway(p, readings) && i < |targets| == |readings|
      ensures p.round.Good(i) <==> readings[i].Some?
    {
    }

    /** What the record says once the pass is over. */
    lemma OnRecord(p: Opening, readings: seq<Option<seq<W.Guest>>>, before: seq<Call>)
      requires Underway(p, readings) && before <= server.calls && p.from == |before|
      requires Ledger(before, 0, server.origin, p.store, server.parent)
      ensures Valid() && Configured(p.round.targets)
      ensures Ledger(server.calls, p.from, p.store, server.Now(), Diff.Parent(p.round.td))
      ensures AgentsAtHome(targets, bans, server.agents)
      ensures NoBans(server.calls, p.from) ==> server.agents == p.store.agents
    {
      hide Ledger, AgentsAtHome, Configured;
      LedgerSince(server.origin, before, server.calls, p.store, server.Now(), server.parent);
      AgentsAfter(p, targets, bans, server.Now(), server.calls, server.parent);
    }

    /** What the pass p has done once it is over. */
    ghost predicate Done(p: Opening, skipped: nat, err: bool)
      reads server, bans
    {
      && Valid()
      && Outcome(p, server.Now(), server.calls, skipped, err)
      && BanResult(p, |targets|, bans.history, server.calls, err)
      && AgentsAtHome(targets, bans, server.agents)
      && (!p.allowBans ==> server.agents == p.store.agents)
    }

    lemma PassFails(p: Opening, readings: seq<Option<seq<W.Guest>>>, before: seq<Call>, n: nat, listing: seq<Entry>,
                    survivors: set<Entry>, skipped: nat)
      requires Underway(p, readings) && before <= server.calls && p.from == |before| && n <= |targets|
      requires skipped == Doubtful(p.round, n)
      requires Ledger(before, 0, server.origin, p.store, server.parent)
      requires Aborted(p, n, server.entries, server.calls, listing, survivors)
      requires BanResult(p, n, bans.history, server.calls, true)
      ensures Done(p, skipped, true)
    {
      assert p.round.targets == targets;
      hide Ledger, AgentsAtHome, Configured, Outcome, Aborted, BanResult;
      OnRecord(p, readings, before);
      AbortedOutcome(p, n, server.Now(), server.calls, listing, survivors, skipped);
      BansAborted(p, n, |targets|, bans.history, server.calls);
      BansNone(p, |targets|, bans.history, server.calls, true);
    }

    lemma PassEnds(p: Opening, readings: seq<Option<seq<W.Guest>>>, before: seq<Call>, haveEntries: bool,
                   listing: seq<Entry>, haveAgents: bool, agents: seq<Agent>, survivors: set<Entry>)
      requires Underway(p, readings) && before <= server.calls && p.from == |before|
      requires Ledger(before, 0, server.origin, p.store, server.parent)
      requires Standing(p, |targets|, server.entries, server.calls, haveEntries, listing, survivors)
      requires BansStand(p, |targets|, bans.history, server.agents, server.calls, haveAgents, agents)
      ensures Done(p, Doubtful(p.round, |targets|), false)
    {
      assert p.round.targets == targets;
      hide Ledger, AgentsAtHome, Configured, Outcome, Standing, BansStand, BanResult;
      OnRecord(p, readings, before);
      DoneOutcome(p, server.Now(), server.calls, haveEntries, listing, survivors);
      BansStandParts(p, |targets|, bans.history, server.agents, server.calls, haveAgents, agents);
      BansNone(p, |targets|, bans.history, server.calls, false);
    }

    /** Reads every cluster and brings its entries in line; with allowBans also
        bans agents of destroyed guests. readings are the clusters' reads. */
    method Pass(readings: seq<Option<seq<W.Guest>>>, allowBans: bool) returns (skipped: nat, err: bool)
      requires Valid() && |readings| == |targets|
      requires AgentsAtHome(targets, bans, server.agents)
      modifies server, bans
      ensures Done(old(Begin(readings, allowBans)), skipped, err) && old(server.calls) <= server.calls
    {
      ghost var p, calls0 := Begin(readings, allowBans), server.calls;
      var listing: seq<Entry>, agents: seq<Agent> := [], [];
      ghost var survivors := server.entries;
      var haveEntries, haveAgents := false, false;
      skipped, err := 0, false;
      NothingDone(p, server.calls);
      assert Ledger(calls0, 0, server.origin, p.store, server.parent);
      assert Underway(p, readings) && p.round.targets == targets && p.from == |calls0| && p.allowBans == allowBans;
      hide *;
      for i := 0 to |targets|
        invariant Underway(p, readings) && server.parent == Diff.Parent(td)
        invariant Standing(p, i, server.entries, server.calls, haveEntries, listing, survivors)
        invariant BansStand(p, i, bans.history, server.agents, server.calls, haveAgents, agents)
        invariant calls0 <= server.calls
        invariant skipped == Doubtful(p.round, i)
      {
        DoubtfulStep(p.round, i);
        GoodMeaning(p, readings, i);
        if readings[i].None? {
          skipped := skipped + 1;
          SkippedKeepsStanding(p, i, server.entries, server.calls, haveEntries, listing, survivors);
          BansUntouched(p, i, i + 1, bans.history, server.calls, server.calls, false);
          continue;
        }
        err, listing, agents, survivors :=
          Next(i, readings, allowBans, haveEntries, listing, haveAgents, agents, p, survivors);
        if err {
          PassFails(p, readings, calls0, i + 1, listing, survivors, skipped);
          return;
        }
        haveEntries := true;
        haveAgents := haveAgents || allowBans;
      }
      PassEnds(p, readings, calls0, haveEntries, listing, haveAgents, agents, survivors);
    }

    /** Two passes with the same reads, unless the first one fails: the second
        one begins at call again, and neither creates nor deletes. */
    method PassTwice(readings: seq<Option<seq<W.Guest>>>, allowBans: bool) returns (err: bool, ghost again: nat)
      requires Valid() && |readings| == |targets|
      requires AgentsAtHome(targets, bans, server.agents)
      modifies server, bans
      ensures Valid() && |old(server.calls)| <= again <= |server.calls| && old(server.calls) <= server.calls
      ensures !err ==> Idle(server.calls, again) && AllConverged(RoundOf(readings), server.entries)
    {
      hide Outcome, BanResult, AgentsAtHome;
      ghost var first := Begin(readings, allowBans);
      var skipped;
      skipped, err := Pass(readings, allowBans);
      again := |server.calls|;
      if err {
        return;
      }
      ghost var second := Begin(readings, allowBans);
      ghost var calls := server.calls;
      var skipped', err' := Pass(readings, allowBans);
      SecondPassIsIdle(first, second.store, calls, skipped, second, server.Now(), server.calls, skipped', err');
    }
  }

  // ----- what convergence means

  /** Entry e registers alias a: the SPIFFE ID and the selectors, in any order. */
  ghost predicate Registers(e: Entry, a: Alias, td: string) {
    e.parentID == Diff.Parent(td) && e.spiffeID == a.spiffeID && multiset(e.selectors) == multiset(a.selectors)
  }

  /** After a pass, read without keys: every wanted alias is registered by one
      entry of the server's and no more, a default one, and every entry of the
      server's under the cluster's prefix registers a wanted alias. */
  lemma ConvergedMeaning(r: Round, j: nat, entries: set<Entry>)
    requires r.Good(j) && Converged(entries, r.td, r.targets[j].name, r.Keys(j))
    requires W.NulFree(r.targets[j], r.readings[j].value)
    requires forall e :: e in entries && e.parentID == Diff.Parent(r.td) ==> Joinable(e.selectors)
    ensures var wanted := W.WantedAliases(r.text, r.td, r.targets[j], r.readings[j].value);
            && (forall a :: a in wanted ==> exists e :: e in entries && e.isDefault && Registers(e, a, r.td))
            && (forall a, e, f :: a in wanted && e in entries && f in entries &&
                                  Registers(e, a, r.td) && Registers(f, a, r.td) ==>
                  e == f)
            && (forall e :: e in entries && Diff.Owned(r.td, r.targets[j].name, e) ==>
                  e.isDefault && exists a :: a in wanted && Registers(e, a, r.td))
  {
    var name := r.targets[j].name;
    var wanted := W.WantedAliases(r.text, r.td, r.targets[j], r.readings[j].value);
    WantedUnder(r.text, r.td, r.targets[j], r.readings[j].value);
    forall a, e | a in wanted && e in entries && e.parentID == Diff.Parent(r.td)
      ensures Registers(e, a, r.td) <==> EntryKey(e) == AliasKey(a)
      ensures Registers(e, a, r.td) ==> Diff.Owned(r.td, name, e)
    {
      W.WantedJoinable(r.text, r.td, r.targets[j], r.readings[j].value, a);
      SelectorKeyMeaning(e.selectors, a.selectors);
      assert AliasKey(a) in r.Keys(j);
    }
    forall a | a in wanted ensures exists e :: e in entries && e.isDefault && Registers(e, a, r.td) {
      assert AliasKey(a) in r.Keys(j) && HasDefault(entries, r.td, name, AliasKey(a));
    }
  }

  /** The pass after a good one, with the same reads, changes no entry. */
  lemma SecondPassIsIdle(p: Opening, mid: Store, calls: seq<Call>, skipped: nat,
                         q: Opening, end: Store, calls': seq<Call>, skipped': nat, err: bool)
    requires Outcome(p, mid, calls, skipped, false)
    requires q.round == p.round && q.store.entries == mid.entries && Outcome(q, end, calls', skipped', err)
    ensures end.entries == mid.entries && Idle(calls', q.from)
    ensures AllConverged(p.round, end.entries)
  {
    hide Ledger, Careful, Converged, KeepsServing, NoConflict, Wished, Announced;
  }

  /** A pass whose first change of entries is a create that fails takes no entry
      away. */
  lemma FailedFirstCreate(p: Opening, end: Store, calls: seq<Call>, skipped: nat, err: bool, n: nat)
    requires Outcome(p, end, calls, skipped, err)
    requires p.from <= n < |calls| && calls[n].Create? && !calls[n].ok
    requires forall m :: p.from <= m < n ==> !calls[m].Delete?
    ensures p.store.entries <= end.entries
  {
    hide Careful, AllConverged, KeepsServing, NoConflict, Wished, Announced, Chained, Replay;
    NoDeleteNoLoss(p.store, calls[p.from..], Diff.Parent(p.round.td));
  }

  /** After a pass with bans, each run of misses is one longer, or over, where
      the cluster was read well, and as it was elsewhere. */
  lemma {:induction false} RunsAfterPass(r: Round, conf: seq<seq<string>>, h0: seq<Observation>,
                                         sightings: seq<Sighting>, n: nat, j: nat, id: string)
    requires j < |conf|
    ensures Run(conf, h0 + Observations(r, n, sightings), j, id) ==
            if j >= n || !r.Good(j) then Run(conf, h0, j, id)
            else if MissedID(Observation(j, r.Listed(j), sightings), conf[j], id) then Run(conf, h0, j, id) + 1
            else 0
  {
    hide Run, MissedID;
    if n == 0 {
      assert h0 + [] == h0;
    } else {
      RunsAfterPass(r, conf, h0, sightings, n - 1, j, id);
      if r.Good(n - 1) {
        var o := Observation(n - 1, r.Listed(n - 1), sightings);
        RunStep(conf, h0 + Observations(r, n - 1, sightings), o, j, id);
        assert h0 + Observations(r, n, sightings) == h0 + Observations(r, n - 1, sightings) + [o];
      } else {
        assert Observations(r, n, sightings) == Observations(r, n - 1, sightings);
      }
    }
  }

  /** So whom a pass bans is known before it: an agent that a cluster read well
      misses, and whose run of misses there was odd when the pass began. */
  lemma DueByRunBefore(p: Opening, h: seq<Observation>, id: string)
    requires forall j: nat :: p.round.Good(j) ==> j < |p.conf| && p.conf[j] == p.round.targets[j].fingerprints
    requires Observed(p, |p.round.targets|, h, false)
    ensures ToBan(p, h, |p.round.targets|, id) <==>
            exists j: nat :: p.round.Good(j)
              && MissedID(Observation(j, p.round.Listed(j), p.Sightings()), p.conf[j], id)
                             && Run(p.conf, p.history, j, id) % 2 == 1
  {
    hide Run, Observations, Missed, MissedID, Observed;
    var n := |p.round.targets|;
    if ToBan(p, h, n, id) {
      var j: nat, a :| j < n && p.round.Good(j) && j < |p.conf| && a in p.Sightings() && a.id == id
        && Missed(a, p.round.targets[j].fingerprints, p.round.Listed(j)) && Run(p.conf, h, j, id) % 2 == 0;
      SightingMissed(p, j, a);
      RunGrows(p, h, j, id);
    }
    if j: nat :| p.round.Good(j) && MissedID(Observation(j, p.round.Listed(j), p.Sightings()), p.conf[j], id)
                 && Run(p.conf, p.history, j, id) % 2 == 1 {
      var a := MissedSighting(p, j, id);
      RunGrows(p, h, j, id);
    }
  }

  lemma SightingMissed(p: Opening, j: nat, a: Sighting)
    requires p.round.Good(j) && j < |p.conf| && a in p.Sightings() && Missed(a, p.conf[j], p.round.Listed(j))
    ensures MissedID(Observation(j, p.round.Listed(j), p.Sightings()), p.conf[j], a.id)
  {
  }

  lemma MissedSighting(p: Opening, j: nat, id: string) returns (a: Sighting)
    requires p.round.Good(j) && j < |p.conf|
             && MissedID(Observation(j, p.round.Listed(j), p.Sightings()), p.conf[j], id)
    ensures a in p.Sightings() && a.id == id && Missed(a, p.conf[j], p.round.Listed(j))
  {
    a :| a in p.Sightings() && a.id == id && Missed(a, p.conf[j], p.round.Listed(j));
  }

  lemma RunGrows(p: Opening, h: seq<Observation>, j: nat, id: string)
    requires p.round.Good(j) && j < |p.conf| && Observed(p, |p.round.targets|, h, false)
    requires MissedID(Observation(j, p.round.Listed(j), p.Sightings()), p.conf[j], id)
    ensures Run(p.conf, h, j, id) == Run(p.conf, p.history, j, id) + 1
  {
    hide Run, Observations, MissedID;
    RunsAfterPass(p.round, p.conf, p.history, p.Sightings(), |p.round.targets|, j, id);
  }
}
