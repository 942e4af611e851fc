/** Every step of the enrolment protocol keeps its invariant. */
module EnrollmentSteps {
  import opened Options
  import opened Enrollment
  import opened EnrollmentSection
  import opened EnrollmentFrames
  import opened EnrollmentActions

  // ----- requests act

  /** The parts of the invariant, put together. */
  lemma InvWhole(cfg: Config, s: World)
    requires LockInv(s.legs, s.lock) && LegsInv(s.legs) && GuestsInv(cfg, s.guests) && VettedInv(s.legs, s.events)
    requires HistoryOk(s.pins, s.events) && LooksInv(s.legs, s.guests, s.events)
    requires HeldInv(cfg, s) && SessionsInv(s) && ScansInv(cfg, s) && ClearedInv(s.legs, s.events)
    ensures Inv(cfg, s)
  {
    hide LockInv, LegsInv, WitnessInv, LogOk, LooksInv, HeldInv, SessionsInv, GuestsInv, VettedInv, ScansInv,
         ClearedInv;
  }

  lemma InvHistory(cfg: Config, s: World)
    requires Inv(cfg, s)
    ensures HistoryOk(s.pins, s.events)
  {
    hide LockInv, LegsInv, WitnessInv, LogOk, LooksInv, HeldInv, SessionsInv, GuestsInv;
  }

  lemma AdvanceKeeps(cfg: Config, s: World, l: nat)
    requires CanAdvance(s, l) && Inv(cfg, s)
    ensures Inv(cfg, Advance(cfg, s, l))
  {
    hide *;
    InvParts(cfg, s);
    AdvanceFrame(cfg, s, l);
    FrameParts(s, Advance(cfg, s, l), l);
    LockKept(s, Advance(cfg, s, l), l);
    LegsKept(s, Advance(cfg, s, l), l);
    AdvanceHistory(cfg, s, l);
    AdvanceLooks(cfg, s, l);
    AdvanceHeld(cfg, s, l);
    AdvanceSessions(cfg, s, l);
    AdvanceVetted(cfg, s, l);
    AdvanceCleared(cfg, s, l);
    AdvanceTracks(cfg, s, l);
    InvWhole(cfg, Advance(cfg, s, l));
  }

  lemma OverKeeps(cfg: Config, s: World, l: nat)
    requires l in s.legs && Inv(cfg, s)
    ensures Inv(cfg, Goto(s, l, Over))
  {
    hide *;
    var s' := Goto(s, l, Over);
    InvParts(cfg, s);
    InvHistory(cfg, s);
    LockOf(s, l);
    GotoFrame(s, l, Over);
    GotoLeaves(s, l, Over);
    GotoPc(s, l, Over);
    FrameParts(s, s', l);
    NotInSection();
    LockKept(s, s', l);
    LegsKept(s, s', l);
    NoScan(s.guests, s.events, s'.legs[l].pc);
    LooksOne(s.legs, s.guests, s.events, l, s'.legs[l]);
    OverHeld(cfg, s, l);
    OverPast();
    VettedOne(s.legs, s.events, l, s'.legs[l]);
    NoneScanned(l, s'.legs[l], s.events);
    ClearedOne(s.legs, s.events, l, s'.legs[l]);
    NotTracked(cfg, l, s'.legs[l], s.pins, s.clusterPins, s.events);
    ScansFrame(cfg, s, s', l);
    SectionHolds();
    SessionsGoto(cfg, s, l, Over);
    InvWhole(cfg, s');
  }

  lemma NoScan(guests: map<string, Place>, events: seq<Event>, pc: Pc)
    requires pc == Over
    ensures pc.Scan? ==> LookOk(pc.phase, guests, events)
  {
  }

  lemma SessionsGoto(cfg: Config, s: World, l: nat, pc: Pc)
    requires l in s.legs && Inv(cfg, s) && !pc.Issue? && (HoldsAt(pc) ==> HoldsAt(s.legs[l].pc))
    ensures SessionsInv(Goto(s, l, pc))
  {
    hide Inv, SessionsInv, SessionFrame, Goto, HoldsAt, IsWitness, SettledOk, SameIds, Grows;
    InvParts(cfg, s);
    GotoSession(s, l, pc);
    GotoIds(s, l, pc);
    if s.legs[l].pc.Settled? {
      SettledSeen(cfg, s, l);
    }
    SessionsFramed(s, Goto(s, l, pc), l);
  }

  lemma OverHeld(cfg: Config, s: World, l: nat)
    requires l in s.legs && LockInv(s.legs, s.lock) && HeldInv(cfg, s)
    ensures HeldInv(cfg, Goto(s, l, Over))
  {
    hide LockInv, Held, LegFrame, Quiet;
    LockOf(s, l);
    if InSection(s.legs[l].pc) {
    } else {
      GotoFrame(s, l, Over);
      GotoQuiet(s, l, Over);
      HeldOther(cfg, s, Goto(s, l, Over), l);
    }
  }

  // A directory is listed.

  lemma ListFields(s: World, l: nat, names: seq<string>)
    requires AtPhase(s, l, ListPins)
    ensures var s', leg := ListNext(s, l, names), s.legs[l];
            && s'.legs == s.legs[l := leg.(pc := leg.pc.(phase := Pins(names)), stale := {})]
            && s' == s.(legs := s'.legs)
  {
  }

  lemma ListFrame(s: World, l: nat, names: seq<string>)
    requires AtPhase(s, l, ListPins) && LockInv(s.legs, s.lock)
    ensures LegFrame(s, ListNext(s, l, names), l) && Quiet(s, ListNext(s, l, names))
  {
    hide LockInv;
    LockOf(s, l);
  }

  lemma ListHeld(cfg: Config, s: World, l: nat, names: seq<string>)
    requires AtPhase(s, l, ListPins) && IsListing(names, s.pins, s.legs[l].vmid)
    requires LockInv(s.legs, s.lock) && HeldInv(cfg, s)
    ensures HeldInv(cfg, ListNext(s, l, names))
  {
    hide LockInv, ScanOk, LegFrame, Quiet, ListNext, IsListing;
    LockOf(s, l);
    ListFields(s, l, names);
    var leg := s.legs[l];
    if InSection(leg.pc) {
      HeldScanParts(cfg, l, leg, s.pins, s.clusterPins, s.events);
      ScanListed(l, leg.Me(), leg.pc.existing, names, s.pins, s.events);
    } else {
      ListFrame(s, l, names);
      HeldOther(cfg, s, ListNext(s, l, names), l);
    }
  }

  lemma ListSession(s: World, l: nat, names: seq<string>)
    requires AtPhase(s, l, ListPins)
    ensures SessionFrame(s, ListNext(s, l, names), l) && SameIds(s, ListNext(s, l, names), l)
    ensures Grows(s.events, ListNext(s, l, names).events) && ListNext(s, l, names).events == s.events
    ensures ListNext(s, l, names).pins == s.pins && !ListNext(s, l, names).legs[l].pc.phase.Look?
  {
  }

  lemma ListKeeps(cfg: Config, s: World, l: nat, names: seq<string>)
    requires AtPhase(s, l, ListPins) && IsListing(names, s.pins, s.legs[l].vmid) && Inv(cfg, s)
    ensures Inv(cfg, ListNext(s, l, names))
  {
    hide Inv, LockInv, LegsInv, GuestsInv, HistoryOk, LooksInv, LookOk, HeldInv, SessionsInv, VettedInv, Vetted,
         ScansInv, Tracks, ClearedInv, ScannedOk, LegFrame, Quiet, SessionFrame, Grows, IsListing, ListNext;
    var s' := ListNext(s, l, names);
    InvParts(cfg, s);
    InvHistory(cfg, s);
    ListFrame(s, l, names);
    FrameParts(s, s', l);
    LockKept(s, s', l);
    LegsKept(s, s', l);
    ListSession(s, l, names);
    ListFields(s, l, names);
    NoLook(s'.legs[l].pc.phase, s.guests, s.events);
    LooksOne(s.legs, s.guests, s.events, l, s'.legs[l]);
    LegFacts(cfg, s, l);
    VettedOne(s.legs, s.events, l, s'.legs[l]);
    ListScanned(l, s.legs[l], s'.legs[l], s.events);
    ClearedOne(s.legs, s.events, l, s'.legs[l]);
    ListTracks(cfg, l, s.legs[l], names, s.pins, s.clusterPins, s.events);
    ScansFrame(cfg, s, s', l);
    ListHeld(cfg, s, l, names);
    SessionsFramed(s, s', l);
    InvWhole(cfg, s');
  }

  lemma ListScanned(l: nat, leg: Leg, leg': Leg, events: seq<Event>)
    requires ScannedOk(l, leg, events) && leg.pc.Scan? && leg'.pc.Scan? && leg'.pc == leg.pc.(phase := leg'.pc.phase)
             && leg'.vmid == leg.vmid && leg'.fp == leg.fp
    ensures ScannedOk(l, leg', events)
  {
    hide ClearedBy;
  }

  lemma ListTracks(cfg: Config, l: nat, leg: Leg, names: seq<string>, pins: map<string, string>,
                   clusterPins: map<string, string>, events: seq<Event>)
    requires Tracks(cfg, l, leg, pins, clusterPins, events) && leg.pc.Scan? && leg.pc.phase.ListPins?
             && IsListing(names, pins, leg.vmid)
    ensures Tracks(cfg, l, leg.(pc := leg.pc.(phase := Pins(names)), stale := {}), pins, clusterPins, events)
  {
    hide CreatedSince, TouchedSince, IgnoredSince;
  }

  lemma ListClusterTracks(cfg: Config, l: nat, leg: Leg, names: seq<string>, pins: map<string, string>,
                          clusterPins: map<string, string>, events: seq<Event>)
    requires Tracks(cfg, l, leg, pins, clusterPins, events) && leg.pc.Scan? && leg.pc.phase.ListClusterPins?
    requires IsListing(names, clusterPins, leg.vmid)
    ensures Tracks(cfg, l, leg.(pc := leg.pc.(phase := ClusterPins(names, []))), pins, clusterPins, events)
  {
    hide OldPins, Covered, StaleLogged, TouchedSince, ParseClusterPin, IsVMIDName;
  }

  lemma GotoLeg(s: World, l: nat, pc: Pc)
    requires l in s.legs
    ensures l in Goto(s, l, pc).legs && Goto(s, l, pc).legs[l] == s.legs[l].(pc := pc)
  {
  }

  lemma ListClusterHeld(cfg: Config, s: World, l: nat, names: seq<string>)
    requires AtPhase(s, l, ListClusterPins) && LockInv(s.legs, s.lock) && HeldInv(cfg, s)
    ensures HeldInv(cfg, Goto(s, l, s.legs[l].pc.(phase := ClusterPins(names, []))))
  {
    hide LockInv, ScanOk, LegFrame, Quiet, Held, HeldAfter, Goto;
    LockOf(s, l);
    var leg := s.legs[l];
    var pc := leg.pc.(phase := ClusterPins(names, []));
    GotoFrame(s, l, pc);
    if InSection(leg.pc) {
      HeldScanParts(cfg, l, leg, s.pins, s.clusterPins, s.events);
      ScanOn(l, leg.Me(), leg.pc.existing, ListClusterPins, ClusterPins(names, []), s.pins, s.events);
      HeldIntoScan(cfg, s, l, ClusterPins(names, []));
      HeldWhole(cfg, s, Goto(s, l, pc), l);
    } else {
      GotoQuiet(s, l, pc);
      GotoPc(s, l, pc);
      HeldOther(cfg, s, Goto(s, l, pc), l);
    }
  }

  lemma ListClusterKeeps(cfg: Config, s: World, l: nat, names: seq<string>)
    requires AtPhase(s, l, ListClusterPins) && IsListing(names, s.clusterPins, s.legs[l].vmid) && Inv(cfg, s)
    ensures Inv(cfg, ListNext(s, l, names))
  {
    hide Inv, LockInv, LegsInv, GuestsInv, HistoryOk, LooksInv, LookOk, HeldInv, SessionsInv, VettedInv, Vetted,
         ScansInv, Tracks, ClearedInv, ScannedOk, LegFrame, IsListing, Goto;
    var pc := s.legs[l].pc.(phase := ClusterPins(names, []));
    var s' := Goto(s, l, pc);
    InvParts(cfg, s);
    InvHistory(cfg, s);
    GotoFrame(s, l, pc);
    GotoLeaves(s, l, pc);
    GotoPc(s, l, pc);
    FrameParts(s, s', l);
    LockKept(s, s', l);
    LegsKept(s, s', l);
    NoLook(pc.phase, s.guests, s.events);
    LooksOne(s.legs, s.guests, s.events, l, s'.legs[l]);
    LegFacts(cfg, s, l);
    GotoIds(s, l, pc);
    VettedOne(s.legs, s.events, l, s'.legs[l]);
    ListScanned(l, s.legs[l], s'.legs[l], s.events);
    ClearedOne(s.legs, s.events, l, s'.legs[l]);
    ListClusterTracks(cfg, l, s.legs[l], names, s.pins, s.clusterPins, s.events);
    GotoLeg(s, l, pc);
    ScansFrame(cfg, s, s', l);
    ListClusterHeld(cfg, s, l, names);
    SessionsGoto(cfg, s, l, pc);
    InvWhole(cfg, s');
  }

  // A session is put.

  lemma PutFields(s: World, l: nat, sid: string, nonce: nat)
    requires l in s.legs && s.legs[l].pc.PutSession? && LockInv(s.legs, s.lock)
    ensures var s' := PutNext(s, l, sid, nonce);
            && LegFrame(s, s', l) && Quiet(s, s') && s'.legs[l].pc == Over
            && s'.pins == s.pins && s'.events == s.events + [SessionPut(sid, s.legs[l].vmid, s.legs[l].fp)]
            && s'.sessions == s.sessions[sid := Session(s.legs[l].vmid, s.legs[l].fp, nonce)]
  {
    hide LockInv;
    LockOf(s, l);
  }

  /** No certificate is issued for a session that was never put. */
  lemma UnputNotIssued(events: seq<Event>, sid: string)
    requires LogOk(events) && FreshSession(events, sid)
    ensures NotIssued(events, sid)
  {
    forall e | e in events && e.Issued? ensures e.sid != sid {
      var n :| 0 <= n < |events| && events[n] == e;
      assert EntryOk(events[..n], events[n]);
      assert SessionPut(e.sid, e.vmid, e.fp) in events;
    }
  }

  lemma PutSessions(s: World, s': World, l: nat, sid: string, nonce: nat)
    requires SessionsInv(s) && LogOk(s.events) && FreshSession(s.events, sid)
    requires l in s.legs && s'.legs == s.legs[l := s.legs[l].(pc := Over)]
    requires s'.events == s.events + [SessionPut(sid, s.legs[l].vmid, s.legs[l].fp)]
    requires s'.sessions == s.sessions[sid := Session(s.legs[l].vmid, s.legs[l].fp, nonce)]
    ensures SessionsInv(s')
  {
    hide LogOk, IsWitness, Holds, NotIssued;
    UnputNotIssued(s.events, sid);
    assert !Holds(s'.legs[l]) by {
      NoneHeld(s'.legs[l]);
    }
    forall other | NotIssued(s.events, other) ensures NotIssued(s'.events, other) {
      PutNotIssued(s.events, SessionPut(sid, s.legs[l].vmid, s.legs[l].fp), other);
    }
    forall m | m in s'.legs && Holds(s'.legs[m]) ensures Bound(s', s'.legs[m]) {
      assert Bound(s, s.legs[m]);
      assert SessionPut(s.legs[m].sid, s.legs[m].vmid, s.legs[m].fp) in s.events;
    }
  }

  lemma NoneHeld(leg: Leg)
    requires leg.pc == Over
    ensures !Holds(leg)
  {
  }

  lemma PutNotIssued(events: seq<Event>, e: Event, sid: string)
    requires NotIssued(events, sid) && e.SessionPut?
    ensures NotIssued(events + [e], sid)
  {
  }

  lemma VettedWas(events: seq<Event>, l: nat, vmid: string, fp: string)
    requires Vetted(events, l, vmid, fp)
    ensures WasChecked(events, vmid, fp)
  {
  }

  lemma PutKeeps(cfg: Config, s: World, l: nat, sid: string, nonce: nat)
    requires Inv(cfg, s) && l in s.legs && s.legs[l].pc.PutSession? && FreshSession(s.events, sid)
    ensures Inv(cfg, PutNext(s, l, sid, nonce))
  {
    hide Inv, LockInv, LegsInv, GuestsInv, HistoryOk, LogOk, WitnessInv, LooksInv, LookOk, HeldInv, SessionsInv,
         VettedInv, Vetted, ScansInv, Tracks, ClearedInv, ScannedOk, WasChecked, WasCleared, LegFrame, Quiet, PutNext,
         FreshSession;
    var s' := PutNext(s, l, sid, nonce);
    var e := SessionPut(sid, s.legs[l].vmid, s.legs[l].fp);
    InvParts(cfg, s);
    InvHistory(cfg, s);
    PutFields(s, l, sid, nonce);
    PutLegs(s, l, sid, nonce);
    FrameParts(s, s', l);
    LockKept(s, s', l);
    LegsKept(s, s', l);
    LegFacts(cfg, s, l);
    VettedWas(s.events, l, s.legs[l].vmid, s.legs[l].fp);
    ClearedWas(s.events, l, s.legs[l]);
    HistoryMore(s.pins, s.events, e);
    VettedMore(s.legs, s.events, e);
    VettedOne(s.legs, s'.events, l, s'.legs[l]);
    LooksGrow(s.legs, s.guests, s.events, e);
    LooksOne(s.legs, s.guests, s'.events, l, s'.legs[l]);
    HeldOther(cfg, s, s', l);
    PutScans(cfg, s, s', l, e);
    ClearedMore(s.legs, s.events, e);
    OverPast();
    NoneScanned(l, s'.legs[l], s'.events);
    ClearedOne(s.legs, s'.events, l, s'.legs[l]);
    PutSessions(s, s', l, sid, nonce);
    InvWhole(cfg, s');
  }

  lemma ClearedWas(events: seq<Event>, l: nat, leg: Leg)
    requires ScannedOk(l, leg, events) && leg.pc.PutSession?
    ensures WasCleared(events, leg.vmid, leg.fp)
  {
  }

  lemma PutScans(cfg: Config, s: World, s': World, l: nat, e: Event)
    requires ScansInv(cfg, s) && LegFrame(s, s', l) && s'.legs[l].pc == Over && s'.pins == s.pins
             && s'.events == s.events + [e]
    ensures ScansInv(cfg, s')
  {
    hide ScansInv, Tracks, InSection;
    NotTracked(cfg, l, s'.legs[l], s'.pins, s'.clusterPins, s'.events);
    assert ElseTracks(cfg, s, s');
    ScansMore(cfg, s, s', e);
  }

  lemma PutLegs(s: World, l: nat, sid: string, nonce: nat)
    requires l in s.legs
    ensures PutNext(s, l, sid, nonce).legs == s.legs[l := s.legs[l].(pc := Over)]
  {
  }

  // Requests arrive, sessions expire, the environment acts.

  lemma ArriveKeeps(cfg: Config, s: World, l: nat, leg: Leg)
    requires Inv(cfg, s) && l !in s.legs && IsVMIDName(leg.vmid) && IsFingerprint(leg.fp)
    requires leg.pc == PreCluster || leg.pc == PreInventory
    ensures Inv(cfg, s.(legs := s.legs[l := leg]))
  {
    hide Inv, LockInv, LegsInv, GuestsInv, HistoryOk, LooksInv, LookOk, HeldInv, SessionsInv, VettedInv, Vetted,
         ScansInv, Tracks, ClearedInv, ScannedOk, IsVMIDName, IsFingerprint;
    var s' := s.(legs := s.legs[l := leg]);
    InvParts(cfg, s);
    InvHistory(cfg, s);
    LooksOne(s.legs, s.guests, s.events, l, leg);
    VettedOne(s.legs, s.events, l, leg);
    NoneScanned(l, leg, s.events);
    ClearedOne(s.legs, s.events, l, leg);
    NewcomerScans(cfg, s, l, leg);
    NewcomerOutside(cfg, s, l, leg);
    NewcomerSessions(s, l, leg);
    InvWhole(cfg, s');
  }

  lemma NewcomerOutside(cfg: Config, s: World, l: nat, leg: Leg)
    requires LockInv(s.legs, s.lock) && LegsInv(s.legs) && HeldInv(cfg, s)
    requires l !in s.legs && IsVMIDName(leg.vmid) && IsFingerprint(leg.fp) && !InSection(leg.pc)
    ensures var s' := s.(legs := s.legs[l := leg]);
            LockInv(s'.legs, s'.lock) && LegsInv(s'.legs) && HeldInv(cfg, s')
  {
    hide Held, IsVMIDName, IsFingerprint, InSection;
  }

  lemma NewcomerScans(cfg: Config, s: World, l: nat, leg: Leg)
    requires ScansInv(cfg, s) && !leg.pc.Scan?
    ensures ScansInv(cfg, s.(legs := s.legs[l := leg]))
  {
    hide PhaseOk;
  }

  lemma NewcomerSessions(s: World, l: nat, leg: Leg)
    requires SessionsInv(s) && l !in s.legs && !Holds(leg)
    ensures SessionsInv(s.(legs := s.legs[l := leg]))
  {
    hide NotIssued, Holds;
    var s' := s.(legs := s.legs[l := leg]);
    forall m | m in s'.legs && Holds(s'.legs[m]) ensures Bound(s', s'.legs[m]) {
      SameBound(s, s', s.legs[m]);
    }
  }

  lemma SameBound(s: World, s': World, leg: Leg)
    requires Bound(s, leg) && s'.events == s.events && forall sid :: sid in s'.sessions ==> sid in s.sessions
    ensures Bound(s', leg)
  {
  }

  lemma PurgeKeeps(cfg: Config, s: World, sid: string)
    requires Inv(cfg, s)
    ensures Inv(cfg, s.(sessions := s.sessions - {sid}))
  {
    hide *;
    var s' := s.(sessions := s.sessions - {sid});
    InvParts(cfg, s);
    FewerSessions(s, s', sid);
    SameFiles(cfg, s, s');
  }

  lemma FewerSessions(s: World, s': World, sid: string)
    requires SessionsInv(s) && s'.legs == s.legs && s'.sessions == s.sessions - {sid} && s'.events == s.events
    ensures SessionsInv(s')
  {
    hide Holds, Bound, NotIssued;
    forall m | m in s'.legs && Holds(s'.legs[m]) ensures Bound(s', s'.legs[m]) {
      SameBound(s, s', s.legs[m]);
    }
  }

  /** Neither requests nor pin files nor the history changed. */
  lemma SameFiles(cfg: Config, s: World, s': World)
    requires Inv(cfg, s) && s'.legs == s.legs && s'.lock == s.lock && s'.events == s.events
    requires s'.pins == s.pins && s'.clusterPins == s.clusterPins
    requires GuestsInv(cfg, s'.guests) && LooksInv(s'.legs, s'.guests, s'.events) && SessionsInv(s')
    ensures Inv(cfg, s')
  {
    hide *;
    InvParts(cfg, s);
    InvHistory(cfg, s);
    SameHeld(cfg, s, s');
    SameScans(cfg, s, s');
    InvWhole(cfg, s');
  }

  lemma SameScans(cfg: Config, s: World, s': World)
    requires ScansInv(cfg, s) && s'.legs == s.legs && s'.events == s.events && s'.pins == s.pins
             && s'.clusterPins == s.clusterPins
    ensures ScansInv(cfg, s')
  {
    hide Tracks;
  }

  lemma SameHeld(cfg: Config, s: World, s': World)
    requires HeldInv(cfg, s) && s'.legs == s.legs && s'.lock == s.lock && s'.events == s.events
    requires s'.pins == s.pins && s'.clusterPins == s.clusterPins
    ensures HeldInv(cfg, s')
  {
    hide Held;
  }

  /** The environment logs an event that is no leg's. */
  predicate LogsEnvironment(e: Event) {
    e.Deleted? || e.ClusterTouched? || e.Moved? || e.Destroyed?
  }

  lemma SessionsGrow(s: World, s': World, e: Event)
    requires SessionsInv(s) && s'.legs == s.legs && s'.sessions == s.sessions && s'.events == s.events + [e]
             && LogsEnvironment(e)
    ensures SessionsInv(s')
  {
    hide IsWitness, Holds;
    forall m | m in s'.legs && Holds(s'.legs[m]) ensures Bound(s', s'.legs[m]) {
      assert Bound(s, s.legs[m]);
    }
  }

  /** The environment changes files and guests. */
  lemma EnvironmentKeeps(cfg: Config, s: World, s': World, e: Event)
    requires Inv(cfg, s) && LogsEnvironment(e)
    requires s'.legs == s.legs && s'.lock == s.lock && s'.sessions == s.sessions && s'.events == s.events + [e]
    requires Fewer(s'.pins, s.pins) && WitnessInv(s'.pins, s'.events)
    requires GuestsInv(cfg, s'.guests) && LooksInv(s'.legs, s'.guests, s'.events)
    requires e.Deleted? ==> e.vmid !in s'.pins
    requires ClusterChange(s.clusterPins, s'.clusterPins, e)
    ensures Inv(cfg, s')
  {
    hide Inv, LockInv, LegsInv, GuestsInv, WitnessInv, LogOk, LooksInv, Held, SessionsInv, VettedInv, ScansInv,
         ClearedInv, ClusterChange;
    InvParts(cfg, s);
    AppendLog(s.events, e);
    VettedMore(s.legs, s.events, e);
    ClearedMore(s.legs, s.events, e);
    EnvironmentScans(cfg, s, s', e);
    SessionsGrow(s, s', e);
    if s.lock.Some? && s.lock.value in s.legs {
      var m := s.lock.value;
      ChangeOf(s.clusterPins, s'.clusterPins, e, s.legs[m].vmid);
      HeldGrows(cfg, m, s.legs[m], s.pins, s'.pins, s.clusterPins, s'.clusterPins, s.events, e);
    }
    HistoryIs(s'.pins, s'.events);
    InvWhole(cfg, s');
  }

  lemma EnvironmentScans(cfg: Config, s: World, s': World, e: Event)
    requires ScansInv(cfg, s) && s'.legs == s.legs && s'.events == s.events + [e]
    requires Fewer(s'.pins, s.pins) && ClusterChange(s.clusterPins, s'.clusterPins, e)
    ensures ScansInv(cfg, s')
  {
    hide ScansInv, Tracks, ClusterChange;
    assert ElseTracks(cfg, s, s');
    ScansMore(cfg, s, s', e);
  }

  lemma ChangeOf(clusterPins: map<string, string>, clusterPins': map<string, string>, e: Event, v: string)
    requires ClusterChange(clusterPins, clusterPins', e)
    ensures e == ClusterTouched(v) || (v in clusterPins <==> v in clusterPins')
    ensures e != ClusterTouched(v) && v in clusterPins ==> clusterPins'[v] == clusterPins[v]
  {
  }

  lemma HistoryIs(pins: map<string, string>, events: seq<Event>)
    requires WitnessInv(pins, events) && LogOk(events)
    ensures HistoryOk(pins, events)
  {
  }

  lemma DeleteKeeps(cfg: Config, s: World, vmid: string)
    requires Inv(cfg, s)
    ensures Inv(cfg, Log(s.(pins := s.pins - {vmid}), Deleted(vmid)))
  {
    hide Inv, LooksInv, WitnessInv, GuestsInv;
    InvParts(cfg, s);
    WitnessDeleted(s.pins, s.events, vmid);
    LooksGrow(s.legs, s.guests, s.events, Deleted(vmid));
    EnvironmentKeeps(cfg, s, Log(s.(pins := s.pins - {vmid}), Deleted(vmid)), Deleted(vmid));
  }

  lemma TouchKeeps(cfg: Config, s: World, vmid: string, clusterPins: map<string, string>)
    requires Inv(cfg, s)
    requires forall v :: v != vmid ==> (v in s.clusterPins <==> v in clusterPins)
    requires forall v :: v != vmid && v in s.clusterPins ==> clusterPins[v] == s.clusterPins[v]
    ensures Inv(cfg, Log(s.(clusterPins := clusterPins), ClusterTouched(vmid)))
  {
    hide Inv, LooksInv, WitnessInv, GuestsInv;
    InvParts(cfg, s);
    WitnessMore(s.pins, s.events, ClusterTouched(vmid));
    LooksGrow(s.legs, s.guests, s.events, ClusterTouched(vmid));
    EnvironmentKeeps(cfg, s, Log(s.(clusterPins := clusterPins), ClusterTouched(vmid)), ClusterTouched(vmid));
  }

  lemma MoveKeeps(cfg: Config, s: World, vmid: string, place: Place)
    requires Inv(cfg, s) && vmid in s.guests && place in Places(cfg.nodes)
    ensures Inv(cfg, Log(s.(guests := s.guests[vmid := place]), Moved(vmid)))
  {
    hide Inv, LookOk, WitnessInv, Places;
    InvParts(cfg, s);
    WitnessMore(s.pins, s.events, Moved(vmid));
    forall l | l in s.legs && s.legs[l].pc.Scan?
      ensures LookOk(s.legs[l].pc.phase, s.guests[vmid := place], s.events + [Moved(vmid)])
    {
      LookMoved(s.legs[l].pc.phase, s.guests, s.events, vmid, place);
    }
    EnvironmentKeeps(cfg, s, Log(s.(guests := s.guests[vmid := place]), Moved(vmid)), Moved(vmid));
  }

  lemma DestroyKeeps(cfg: Config, s: World, vmid: string)
    requires Inv(cfg, s)
    ensures Inv(cfg, Log(s.(guests := s.guests - {vmid}), Destroyed(vmid)))
  {
    hide Inv, LookOk, WitnessInv, Places;
    InvParts(cfg, s);
    WitnessMore(s.pins, s.events, Destroyed(vmid));
    forall l | l in s.legs && s.legs[l].pc.Scan?
      ensures LookOk(s.legs[l].pc.phase, s.guests - {vmid}, s.events + [Destroyed(vmid)])
    {
      LookDestroyed(s.legs[l].pc.phase, s.guests, s.events, vmid);
    }
    EnvironmentKeeps(cfg, s, Log(s.(guests := s.guests - {vmid}), Destroyed(vmid)), Destroyed(vmid));
  }

  lemma AddKeeps(cfg: Config, s: World, vmid: string, place: Place)
    requires Inv(cfg, s) && vmid !in s.guests && place in Places(cfg.nodes)
    ensures Inv(cfg, s.(guests := s.guests[vmid := place]))
  {
    hide *;
    var s' := s.(guests := s.guests[vmid := place]);
    InvParts(cfg, s);
    GuestAdded(cfg, s.legs, s.guests, s.events, vmid, place);
    SameSessions(s, s');
    SameFiles(cfg, s, s');
  }

  lemma GuestAdded(cfg: Config, legs: map<nat, Leg>, guests: map<string, Place>, events: seq<Event>, vmid: string,
                   place: Place)
    requires GuestsInv(cfg, guests) && LooksInv(legs, guests, events) && vmid !in guests && place in Places(cfg.nodes)
    ensures GuestsInv(cfg, guests[vmid := place]) && LooksInv(legs, guests[vmid := place], events)
  {
    hide LookOk, Places;
    forall l | l in legs && legs[l].pc.Scan? ensures LookOk(legs[l].pc.phase, guests[vmid := place], events) {
      LookAdded(legs[l].pc.phase, guests, events, vmid, place);
    }
  }

  lemma SameSessions(s: World, s': World)
    requires SessionsInv(s) && s'.legs == s.legs && s'.sessions == s.sessions && s'.events == s.events
    ensures SessionsInv(s')
  {
    hide Holds, NotIssued;
    forall m | m in s'.legs && Holds(s'.legs[m]) ensures Bound(s', s'.legs[m]) {
      SameBound(s, s', s.legs[m]);
    }
  }

  lemma ReloadKeeps(cfg: Config, s: World, inventory: map<string, string>)
    requires Inv(cfg, s)
    ensures Inv(cfg, s.(inventory := inventory))
  {
    hide *;
    InvParts(cfg, s);
    SameSessions(s, s.(inventory := inventory));
    SameFiles(cfg, s, s.(inventory := inventory));
  }

  /** Every step keeps the invariant. */
  lemma StepKeeps(cfg: Config, s: World, step: Step)
    requires Inv(cfg, s) && Enabled(cfg, s, step)
    ensures Inv(cfg, After(cfg, s, step))
  {
    hide Inv, Advance, Goto, Log, PutNext, ListNext, Places, FreshSession, IsVMIDName, IsFingerprint, IsListing,
         CanAdvance;
    match step
    case Arrive(l, kind, vmid, fp, inv, sid, response) =>
      ArriveKeeps(cfg, s, l, NewLeg(kind, vmid, fp, inv, sid, response));
    case Advances(l) => AdvanceKeeps(cfg, s, l);
    case Lists(l, names) =>
      if AtPhase(s, l, ListPins) {
        ListKeeps(cfg, s, l, names);
      } else {
        ListClusterKeeps(cfg, s, l, names);
      }
    case Doubts(l) => OverKeeps(cfg, s, l);
    case Fails(l) => OverKeeps(cfg, s, l);
    case Puts(l, sid, nonce) => PutKeeps(cfg, s, l, sid, nonce);
    case Purges(sid) => PurgeKeeps(cfg, s, sid);
    case OperatorDeletes(vmid) => DeleteKeeps(cfg, s, vmid);
    case RootWrites(vmid, content) => TouchKeeps(cfg, s, vmid, s.clusterPins[vmid := content]);
    case RootRemoves(vmid) => TouchKeeps(cfg, s, vmid, s.clusterPins - {vmid});
    case Reloads(inventory) => ReloadKeeps(cfg, s, inventory);
    case Moves(vmid, place) => MoveKeeps(cfg, s, vmid, place);
    case Destroys(vmid) => DestroyKeeps(cfg, s, vmid);
    case Adds(vmid, place) => AddKeeps(cfg, s, vmid, place);
  }
}
