/** Which agents of destroyed guests to ban (internal/reconcile/diff.go). */
module BanTracking {
  import opened Strings
  import opened Sorting
  import Entries

  datatype Agent = Agent(id: string, selectors: seq<string>, banned: bool)

  datatype Ban = Ban(agentID: string, vmid: string)

  datatype Miss = Miss(count: nat, fps: seq<string>)

  const FP_PREFIX := "tpm_devid:ca:fingerprint:"
  const CN_PREFIX := "tpm_devid:subject:cn:"

  /** What follows prefix in the selectors that start with it, in order. */
  function Values(selectors: seq<string>, prefix: string): seq<string> {
    if selectors == [] then []
    else
      var last := selectors[|selectors| - 1];
      Values(selectors[..|selectors| - 1], prefix)
      + if prefix <= last then [last[|prefix|..]] else []
  }

  function Fingerprints(a: Agent): seq<string> {
    Values(a.selectors, FP_PREFIX)
  }

  function Names(a: Agent): seq<string> {
    Values(a.selectors, CN_PREFIX)
  }

  /** The agent counts at all: not banned, and it names one VM. */
  predicate Identified(a: Agent) {
    !a.banned && |Names(a)| == 1
  }

  lemma PrefixesDiffer(s: string)
    ensures !(FP_PREFIX <= s && CN_PREFIX <= s)
  {
    assert FP_PREFIX[10] == 'c' && CN_PREFIX[10] == 's';
  }

  /** What a listed agent counts as: agentInfo's three results with the ID. */
  datatype Sighting = Sighting(id: string, identified: bool, fps: seq<string>, vmid: string)

  function Sight(a: Agent): Sighting {
    if Identified(a) then Sighting(a.id, true, Fingerprints(a), Names(a)[0]) else Sighting(a.id, false, [], "")
  }

  function Sights(agents: seq<Agent>): seq<Sighting> {
    seq(|agents|, i requires 0 <= i < |agents| => Sight(agents[i]))
  }

  method AgentInfo(a: Agent) returns (fps: seq<string>, vmid: string, ok: bool)
    ensures ok == Sight(a).identified
    ensures ok ==> fps == Sight(a).fps && vmid == Sight(a).vmid
  {
    fps, vmid := [], "";
    if a.banned {
      return fps, vmid, false;
    }
    var cns := 0;
    for i := 0 to |a.selectors|
      invariant fps == Values(a.selectors[..i], FP_PREFIX)
      invariant cns == |Values(a.selectors[..i], CN_PREFIX)|
      invariant cns > 0 ==> vmid == Values(a.selectors[..i], CN_PREFIX)[cns - 1]
    {
      var s := a.selectors[i];
      PrefixesDiffer(s);
      assert a.selectors[..i + 1][..i] == a.selectors[..i];
      if FP_PREFIX <= s {
        fps := fps + [s[|FP_PREFIX|..]];
      } else if CN_PREFIX <= s {
        cns := cns + 1;
        vmid := s[|CN_PREFIX|..];
      }
    }
    assert a.selectors[..|a.selectors|] == a.selectors;
    ok := cns == 1;
  }

  predicate Shares(fps: seq<string>, mine: seq<string>) {
    exists f :: f in fps && f in mine
  }

  /** The agent is one of the cluster with these fingerprints. */
  predicate Member(a: Sighting, mine: seq<string>) {
    a.identified && Shares(a.fps, mine)
  }

  /** A member of the cluster whose VM this read did not list. */
  predicate Missed(a: Sighting, mine: seq<string>, listed: set<string>) {
    Member(a, mine) && a.vmid !in listed
  }

  /** One call of Observe: a good read of one cluster with all agents. */
  datatype Observation = Observation(cluster: nat, listed: set<string>, agents: seq<Sighting>)

  ghost predicate DistinctIDs(agents: seq<Sighting>) {
    forall i, j :: 0 <= i < j < |agents| ==> agents[i].id != agents[j].id
  }

  /** In this call, an agent is a member of its home cluster only. */
  ghost predicate AtHome(conf: seq<seq<string>>, home: string -> nat, o: Observation) {
    forall a, c :: a in o.agents && 0 <= c < |conf| && Member(a, conf[c]) ==> c == home(a.id)
  }

  /** What the configuration and the attestation promise about a history: a
      listing names an agent once, and an agent ID belongs to one cluster
      throughout (LoadConfig refuses clusters that share a fingerprint). */
  ghost predicate WellFormed(conf: seq<seq<string>>, home: string -> nat, h: seq<Observation>) {
    forall o :: o in h ==> o.cluster < |conf| && DistinctIDs(o.agents) && AtHome(conf, home, o)
  }

  ghost predicate MissedID(o: Observation, mine: seq<string>, id: string) {
    exists a :: a in o.agents && a.id == id && Missed(a, mine, o.listed)
  }

  /** How many calls for cluster c in a row, ending with the latest, missed the
      VM of agent id. Calls for other clusters do not matter. */
  ghost function Run(conf: seq<seq<string>>, h: seq<Observation>, c: nat, id: string): nat
    requires c < |conf|
  {
    if h == [] then 0
    else
      var last, before := h[|h| - 1], h[..|h| - 1];
      if last.cluster != c then Run(conf, before, c, id)
      else if MissedID(last, conf[c], id) then Run(conf, before, c, id) + 1
      else 0
  }

  /** The run of misses of an agent in the cluster it belongs to is odd. */
  ghost predicate Odd(conf: seq<seq<string>>, home: string -> nat, h: seq<Observation>, id: string) {
    home(id) < |conf| && Run(conf, h, home(id), id) % 2 == 1
  }

  ghost predicate OnlyShares(fps: seq<string>, conf: seq<seq<string>>, c: nat) {
    c < |conf| && Shares(fps, conf[c]) && forall d :: 0 <= d < |conf| && Shares(fps, conf[d]) ==> d == c
  }

  /** A running miss is held for an agent exactly while its run is odd. */
  ghost predicate Tracks(misses: map<string, Miss>, conf: seq<seq<string>>, home: string -> nat, h: seq<Observation>) {
    && (forall id :: id in misses <==> Odd(conf, home, h, id))
    && (forall id :: id in misses ==> misses[id].count == 1 && OnlyShares(misses[id].fps, conf, home(id)))
  }

  predicate MemberID(agents: seq<Sighting>, mine: seq<string>, id: string) {
    exists a :: a in agents && a.id == id && Member(a, mine)
  }

  /** What one counted agent leaves of its miss. */
  ghost predicate Settled(before: map<string, Miss>, now: map<string, Miss>, a: Sighting, mine: seq<string>,
                          listed: set<string>)
  {
    if Missed(a, mine, listed) && a.id !in before
    then a.id in now && now[a.id] == Miss(1, a.fps)
    else a.id !in now
  }

  /** One call, seen agent by agent: what becomes of every miss. */
  ghost predicate Stepped(before: map<string, Miss>, after: map<string, Miss>, mine: seq<string>, o: Observation) {
    && (forall a :: a in o.agents && Member(a, mine) ==> Settled(before, after, a, mine, o.listed))
    && (forall id :: !MemberID(o.agents, mine, id) ==>
          if id in before && !Shares(before[id].fps, mine)
          then id in after && after[id] == before[id]
          else id !in after)
  }

  lemma RunStep(conf: seq<seq<string>>, h: seq<Observation>, o: Observation, c: nat, id: string)
    requires c < |conf|
    ensures Run(conf, h + [o], c, id) ==
            if o.cluster != c then Run(conf, h, c, id)
            else if MissedID(o, conf[c], id) then Run(conf, h, c, id) + 1
            else 0
  {
    assert (h + [o])[..|h|] == h;
  }

  lemma SameAgent(o: Observation, a: Sighting, b: Sighting)
    requires DistinctIDs(o.agents) && a in o.agents && b in o.agents && a.id == b.id
    ensures a == b
  {
  }

  lemma StepKeepsMiss(conf: seq<seq<string>>, home: string -> nat, h: seq<Observation>, o: Observation,
                      before: map<string, Miss>, after: map<string, Miss>, id: string)
    requires o.cluster < |conf| && DistinctIDs(o.agents) && AtHome(conf, home, o)
    requires id in before <==> Odd(conf, home, h, id)
    requires id in before ==> before[id].count == 1 && OnlyShares(before[id].fps, conf, home(id))
    requires Stepped(before, after, conf[o.cluster], o)
    ensures id in after <==> Odd(conf, home, h + [o], id)
    ensures id in after ==> after[id].count == 1 && OnlyShares(after[id].fps, conf, home(id))
  {
    var mine := conf[o.cluster];
    if home(id) < |conf| {
      RunStep(conf, h, o, home(id), id);
    }
    if MemberID(o.agents, mine, id) {
      var a :| a in o.agents && a.id == id && Member(a, mine);
      assert home(id) == o.cluster;
      assert Missed(a, mine, o.listed) ==> MissedID(o, mine, id);
      if MissedID(o, mine, id) {
        var b :| b in o.agents && b.id == id && Missed(b, mine, o.listed);
        SameAgent(o, a, b);
      }
    } else {
      assert !MissedID(o, mine, id);
    }
  }

  lemma StepKeepsTracking(conf: seq<seq<string>>, home: string -> nat, h: seq<Observation>, o: Observation,
                          before: map<string, Miss>, after: map<string, Miss>)
    requires WellFormed(conf, home, h + [o])
    requires Tracks(before, conf, home, h)
    requires o.cluster < |conf| && Stepped(before, after, conf[o.cluster], o)
    ensures Tracks(after, conf, home, h + [o])
  {
    assert o in h + [o];
    forall id
      ensures id in after <==> Odd(conf, home, h + [o], id)
      ensures id in after ==> after[id].count == 1 && OnlyShares(after[id].fps, conf, home(id))
    {
      StepKeepsMiss(conf, home, h, o, before, after, id);
    }
  }

  /** The run with this call is even exactly when a miss was held before it. */
  lemma EvenRun(conf: seq<seq<string>>, home: string -> nat, h: seq<Observation>, o: Observation,
                before: map<string, Miss>, a: Sighting)
    requires o.cluster < |conf| && home(a.id) == o.cluster
    requires a.id in before <==> Odd(conf, home, h, a.id)
    requires a in o.agents && Missed(a, conf[o.cluster], o.listed)
    ensures Run(conf, h + [o], o.cluster, a.id) % 2 == 0 <==> a.id in before
  {
    RunStep(conf, h, o, o.cluster, a.id);
    assert MissedID(o, conf[o.cluster], a.id);
  }

  predicate BanLe(a: Ban, b: Ban) {
    Le(a.agentID, b.agentID)
  }

  lemma BanLePreorder()
    ensures TotalPreorder(BanLe)
  {
    Entries.LePreorder();
    forall a, b ensures BanLe(a, b) || BanLe(b, a) { assert Le(a.agentID, b.agentID) || Le(b.agentID, a.agentID); }
    forall a, b, c ensures BanLe(a, b) && BanLe(b, c) ==> BanLe(a, c) {
      if BanLe(a, b) && BanLe(b, c) { LeTransitive(a.agentID, b.agentID, c.agentID); }
    }
  }

  /** The ban answers the latest call: its agent's VM is missed now, and the run
      of misses that ends now has even length. */
  ghost predicate Due(conf: seq<seq<string>>, h: seq<Observation>, b: Ban) {
    && |h| > 0 && h[|h| - 1].cluster < |conf|
    && var o := h[|h| - 1];
       exists a :: a in o.agents && Missed(a, conf[o.cluster], o.listed) && b == Ban(a.id, a.vmid)
                   && Run(conf, h, o.cluster, a.id) % 2 == 0
  }

  /** The bans one call adds: agents missed now and held before. */
  ghost predicate Returned(bans: seq<Ban>, agents: seq<Sighting>, mine: seq<string>, listed: set<string>,
                           before: map<string, Miss>)
  {
    && (forall b :: b in bans ==>
          exists a :: a in agents && Missed(a, mine, listed) && a.id in before && b == Ban(a.id, a.vmid))
    && (forall a :: a in agents && Missed(a, mine, listed) && a.id in before ==> Ban(a.id, a.vmid) in bans)
  }

  ghost predicate SameMiss(before: map<string, Miss>, now: map<string, Miss>, id: string) {
    (id in now <==> id in before) && (id in now ==> now[id] == before[id])
  }

  /** The state of the loop once the agents in done are counted. */
  ghost predicate Progress(before: map<string, Miss>, now: map<string, Miss>, done: seq<Sighting>, seen: set<string>,
                           bans: seq<Ban>, mine: seq<string>, listed: set<string>)
  {
    && (forall id :: id in seen <==> MemberID(done, mine, id))
    && (forall id :: id !in seen ==> SameMiss(before, now, id))
    && (forall a :: a in done && Member(a, mine) ==> Settled(before, now, a, mine, listed))
    && Returned(bans, done, mine, listed, before)
    && (forall b :: b in bans ==> b.agentID in seen)
    && (forall k, l :: 0 <= k < l < |bans| ==> bans[k].agentID != bans[l].agentID)
  }

  lemma ProgressStep(before: map<string, Miss>, now: map<string, Miss>, next: map<string, Miss>, done: seq<Sighting>,
                     a: Sighting, seen: set<string>, bans: seq<Ban>, mine: seq<string>, listed: set<string>)
    requires Progress(before, now, done, seen, bans, mine, listed)
    requires forall s :: s in done ==> s.id != a.id
    requires forall id :: id != a.id ==> SameMiss(now, next, id)
    requires !Member(a, mine) ==> next == now
    requires Member(a, mine) ==> Settled(now, next, a, mine, listed)
    ensures var seen' := if Member(a, mine) then seen + {a.id} else seen;
            var ban := if Missed(a, mine, listed) && a.id in now then [Ban(a.id, a.vmid)] else [];
            Progress(before, next, done + [a], seen', bans + ban, mine, listed)
  {
    var seen' := if Member(a, mine) then seen + {a.id} else seen;
    var ban := if Missed(a, mine, listed) && a.id in now then [Ban(a.id, a.vmid)] else [];
    assert !MemberID(done, mine, a.id);
    assert SameMiss(before, now, a.id);
    forall id ensures id in seen' <==> MemberID(done + [a], mine, id) {
      MemberIDStep(done, a, mine, id);
    }
    forall id | id !in seen' ensures SameMiss(before, next, id) {
      assert SameMiss(before, now, id);
      assert id != a.id ==> SameMiss(now, next, id);
    }
    forall s | s in done + [a] && Member(s, mine) ensures Settled(before, next, s, mine, listed) {
      if s in done {
        assert SameMiss(now, next, s.id) && Settled(before, now, s, mine, listed);
      }
    }
    ReturnedStep(bans, done, a, mine, listed, before);
    assert forall b :: b in bans ==> b.agentID in seen && b.agentID != a.id;
  }

  lemma ReturnedStep(bans: seq<Ban>, done: seq<Sighting>, a: Sighting, mine: seq<string>, listed: set<string>,
                     before: map<string, Miss>)
    requires Returned(bans, done, mine, listed, before)
    ensures Returned(bans + if Missed(a, mine, listed) && a.id in before then [Ban(a.id, a.vmid)] else [],
                     done + [a], mine, listed, before)
  {
    var ban := if Missed(a, mine, listed) && a.id in before then [Ban(a.id, a.vmid)] else [];
    forall b | b in bans + ban
      ensures exists s :: s in done + [a] && Missed(s, mine, listed) && s.id in before && b == Ban(s.id, s.vmid)
    {
      if b in bans {
        var s :| s in done && Missed(s, mine, listed) && s.id in before && b == Ban(s.id, s.vmid);
        assert s in done + [a];
      } else {
        assert a in done + [a];
      }
    }
  }

  lemma MemberIDStep(done: seq<Sighting>, a: Sighting, mine: seq<string>, id: string)
    ensures MemberID(done + [a], mine, id) <==> MemberID(done, mine, id) || (id == a.id && Member(a, mine))
  {
    if MemberID(done, mine, id) {
      var s :| s in done && s.id == id && Member(s, mine);
      assert s in done + [a];
    }
    assert a in done + [a];
  }

  class BanTracker {
    var misses: map<string, Miss>
    ghost const conf: seq<seq<string>>
    ghost const home: string -> nat
    ghost var history: seq<Observation>

    ghost predicate Valid()
      reads this
    {
      WellFormed(conf, home, history) && Tracks(misses, conf, home, history)
    }

    constructor (ghost conf: seq<seq<string>>, ghost home: string -> nat)
      ensures Valid() && history == [] && this.conf == conf && this.home == home
    {
      misses := map[];
      this.conf := conf;
      this.home := home;
      history := [];
    }

    /** What one listed agent does to the misses. */
    method CountOne(fingerprints: seq<string>, listed: set<string>, agent: Agent, ghost a: Sighting)
      returns (counted: bool, ban: seq<Ban>)
      requires a == Sight(agent)
      requires a.id in misses ==> misses[a.id].count == 1
      modifies this`misses
      ensures counted <==> Member(a, fingerprints)
      ensures forall id :: id != a.id ==> SameMiss(old(misses), misses, id)
      ensures !counted ==> misses == old(misses)
      ensures counted ==> Settled(old(misses), misses, a, fingerprints, listed)
      ensures ban == if Missed(a, fingerprints, listed) && a.id in old(misses) then [Ban(a.id, a.vmid)] else []
    {
      var fps, vmid, ok := AgentInfo(agent);
      ban := [];
      counted := ok && Shares(fps, fingerprints);
      if !counted {
        return;
      }
      if vmid in listed {
        misses := misses - {agent.id};
        return;
      }
      var m := if agent.id in misses then misses[agent.id] else Miss(0, []);
      m := Miss(m.count + 1, fps);
      misses := misses[agent.id := m];
      if m.count >= 2 {
        ban := [Ban(agent.id, vmid)];
        misses := misses - {agent.id};
      }
    }

    /** The loop over the agents. */
    method Count(fingerprints: seq<string>, listed: set<string>, agentList: seq<Agent>, ghost agents: seq<Sighting>)
      returns (seen: set<string>, bans: seq<Ban>)
      requires agents == Sights(agentList)
      requires DistinctIDs(agents)
      requires forall id :: id in misses ==> misses[id].count == 1
      modifies this`misses
      ensures Progress(old(misses), misses, agents, seen, bans, fingerprints, listed)
    {
      seen, bans := {}, [];
      ghost var before := misses;
      for i := 0 to |agentList|
        invariant Progress(before, misses, agents[..i], seen, bans, fingerprints, listed)
      {
        assert agents[..i + 1] == agents[..i] + [agents[i]];
        assert forall s :: s in agents[..i] ==> s.id != agents[i].id;
        assert !MemberID(agents[..i], fingerprints, agents[i].id);
        assert SameMiss(before, misses, agents[i].id);
        ghost var now := misses;
        var counted, ban := CountOne(fingerprints, listed, agentList[i], agents[i]);
        ProgressStep(before, now, misses, agents[..i], agents[i], seen, bans, fingerprints, listed);
        if counted {
          seen := seen + {agentList[i].id};
        }
        bans := bans + ban;
      }
      assert agents[..|agents|] == agents;
    }

    /** The loop that drops the misses of agents no longer counted. */
    method Forget(fingerprints: seq<string>, seen: set<string>)
      modifies this`misses
      ensures forall id :: id in misses <==>
                id in old(misses) && (id in seen || !Shares(old(misses)[id].fps, fingerprints))
      ensures forall id :: id in misses ==> misses[id] == old(misses)[id]
    {
      var todo := misses.Keys;
      while todo != {}
        invariant todo <= old(misses).Keys
        invariant forall id :: id in misses <==>
                    id in old(misses) && (id in todo || id in seen || !Shares(old(misses)[id].fps, fingerprints))
        invariant forall id :: id in misses ==> misses[id] == old(misses)[id]
      {
        var id :| id in todo;
        todo := todo - {id};
        if id !in seen && Shares(misses[id].fps, fingerprints) {
          misses := misses - {id};
        }
      }
    }

    /** An agent is returned exactly when its VM is missed now and the run of
        misses that ends now has even length. */
    method Observe(fingerprints: seq<string>, listed: set<string>, agentList: seq<Agent>, ghost cluster: nat,
                   ghost agents: seq<Sighting>)
      returns (bans: seq<Ban>)
      requires agents == Sights(agentList)
      requires Valid()
      requires WellFormed(conf, home, history + [Observation(cluster, listed, agents)])
      requires cluster < |conf| && conf[cluster] == fingerprints
      modifies this
      ensures Valid() && history == old(history) + [Observation(cluster, listed, agents)]
      ensures StrictlySorted(bans, BanLe)
      ensures forall b :: b in bans <==> Due(conf, history, b)
    {
      ghost var o := Observation(cluster, listed, agents);
      ghost var before := misses;
      assert o in history + [o];
      var seen, raw := Count(fingerprints, listed, agentList, agents);
      Forget(fingerprints, seen);
      assert Stepped(before, misses, fingerprints, o);
      StepKeepsTracking(conf, home, history, o, before, misses);
      ReturnedIsDue(conf, home, history, o, before, raw);
      history := history + [o];
      bans := Sort(raw, BanLe);
      SortedBans(raw);
    }
  }

  /** The bans counted are those due: held before means even now. */
  lemma ReturnedIsDue(conf: seq<seq<string>>, home: string -> nat, h: seq<Observation>, o: Observation,
                      before: map<string, Miss>, bans: seq<Ban>)
    requires o.cluster < |conf| && AtHome(conf, home, o) && Tracks(before, conf, home, h)
    requires Returned(bans, o.agents, conf[o.cluster], o.listed, before)
    ensures forall b :: b in bans <==> Due(conf, h + [o], b)
  {
    var mine := conf[o.cluster];
    assert (h + [o])[|h|] == o;
    forall a | a in o.agents && Missed(a, mine, o.listed)
      ensures Run(conf, h + [o], o.cluster, a.id) % 2 == 0 <==> a.id in before
    {
      EvenRun(conf, home, h, o, before, a);
    }
    forall b ensures b in bans <==> Due(conf, h + [o], b) {
      if b in bans {
        var a :| a in o.agents && Missed(a, mine, o.listed) && a.id in before && b == Ban(a.id, a.vmid);
      }
      if Due(conf, h + [o], b) {
        var a :| a in o.agents && Missed(a, mine, o.listed) && b == Ban(a.id, a.vmid)
            && Run(conf, h + [o], o.cluster, a.id) % 2 == 0;
      }
    }
  }

  lemma SortedBans(raw: seq<Ban>)
    requires forall i, j :: 0 <= i < j < |raw| ==> raw[i].agentID != raw[j].agentID
    ensures StrictlySorted(Sort(raw, BanLe), BanLe)
    ensures forall b :: b in Sort(raw, BanLe) <==> b in raw
  {
    BanLePreorder();
    SortSorted(raw, BanLe);
    SameElements(raw, Sort(raw, BanLe));
    SortDistinct(raw, Sort(raw, BanLe));
  }

  // ----- what a run is

  /** The calls for cluster c, in order. */
  ghost function OwnCalls(h: seq<Observation>, c: nat): seq<Observation> {
    if h == [] then []
    else OwnCalls(h[..|h| - 1], c) + if h[|h| - 1].cluster == c then [h[|h| - 1]] else []
  }

  /** A run is the longest stretch of calls for the cluster, up to the latest,
      all of which missed the agent's VM, so calls for other clusters in
      between can neither break it nor lengthen it. */
  lemma {:induction false} RunIsLongestStretch(conf: seq<seq<string>>, h: seq<Observation>, c: nat, id: string)
    requires c < |conf|
    ensures var own, n := OwnCalls(h, c), Run(conf, h, c, id);
            && n <= |own|
            && (forall k :: |own| - n <= k < |own| ==> MissedID(own[k], conf[c], id))
            && (n < |own| ==> !MissedID(own[|own| - n - 1], conf[c], id))
  {
    if h != [] {
      RunIsLongestStretch(conf, h[..|h| - 1], c, id);
    }
  }
}
