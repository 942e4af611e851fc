/** Every action of a leg keeps the parts of the invariant. */
module EnrollmentActions {
  import opened Options
  import opened Enrollment
  import opened EnrollmentSection
  import opened EnrollmentFrames

  // ----- an action of a leg keeps the invariant

  /** The leg's own actions in the section. */
  lemma HeldOwn(cfg: Config, s: World, l: nat)
    requires CanAdvance(s, l) && InSection(s.legs[l].pc) && s.legs[l].fp != ""
    requires Held(cfg, l, s.legs[l], s.pins, s.clusterPins, s.events)
    ensures HeldAfter(cfg, Advance(cfg, s, l), l)
  {
    hide Held, HeldAfter, ScanNext, LockedClusterNext, LockedOwnNext, CreateNext, RereadNext, RemoveNext, ReleaseNext;
    HeldEntered(cfg, l, s.legs[l], s.pins, s.clusterPins, s.events);
    match s.legs[l].pc
    case Scan(_, _, phase) =>
      if phase.Pins? {
        HeldScanPins(cfg, s, l);
      } else if phase.Look? {
        HeldScanLook(cfg, s, l);
      } else {
        HeldScanRest(cfg, s, l);
      }
    case LockedCluster => HeldLockedCluster(cfg, s, l);
    case LockedOwn => HeldLockedOwn(cfg, s, l);
    case Create => HeldCreate(cfg, s, l);
    case Reread => HeldReread(cfg, s, l);
    case RemoveBlank => HeldRemove(cfg, s, l);
    case Recreate => HeldCreate(cfg, s, l);
    case Settled(_) => HeldRelease(cfg, s, l);
    case _ =>
  }

  lemma HeldEntered(cfg: Config, l: nat, leg: Leg, pins: map<string, string>, clusterPins: map<string, string>,
                    events: seq<Event>)
    requires Held(cfg, l, leg, pins, clusterPins, events)
    ensures leg.entered <= |events|
  {
  }

  lemma HeldRelease(cfg: Config, s: World, l: nat)
    requires l in s.legs && s.legs[l].pc.Settled?
    ensures HeldAfter(cfg, ReleaseNext(s, l), l)
  {
  }

  /** Someone else is in the section meanwhile. */
  lemma HeldOther(cfg: Config, s: World, s': World, l: nat)
    requires LockInv(s.legs, s.lock) && HeldInv(cfg, s)
    requires LegFrame(s, s', l) && Quiet(s, s') && !InSection(s.legs[l].pc) && !InSection(s'.legs[l].pc)
    ensures HeldInv(cfg, s')
  {
    hide Held, LockInv;
    LockOf(s, l);
    if s'.lock.Some? && s'.lock.value in s'.legs {
      var m := s'.lock.value;
      assert s'.legs[m] == s.legs[m];
      if s'.events != s.events {
        var e: Event :| LogsOutside(e) && s'.events == s.events + [e];
        assert Fewer(s.pins, s.pins);
        HeldGrows(cfg, m, s.legs[m], s.pins, s.pins, s.clusterPins, s.clusterPins, s.events, e);
      }
    }
  }

  lemma AdvanceHeld(cfg: Config, s: World, l: nat)
    requires CanAdvance(s, l) && LockInv(s.legs, s.lock) && LegsInv(s.legs) && HeldInv(cfg, s)
    ensures HeldInv(cfg, Advance(cfg, s, l))
  {
    hide Held, Advance, LockInv, LegFrame, Quiet, IsFingerprint, IsVMIDName;
    var s' := Advance(cfg, s, l);
    AdvanceFrame(cfg, s, l);
    LockOf(s, l);
    FingerprintNotBlank(s.legs[l].fp);
    if InSection(s.legs[l].pc) {
      HeldOwn(cfg, s, l);
      HeldWhole(cfg, s, s', l);
    } else if s.legs[l].pc.WaitLock? {
      AdvanceAcquires(cfg, s, l);
      HeldAcquire(cfg, s, l);
      HeldWhole(cfg, s, s', l);
    } else {
      OutsideFrame(cfg, s, l);
      OutsideStays(cfg, s, l);
      HeldOther(cfg, s, s', l);
    }
  }

  lemma HeldWhole(cfg: Config, s: World, s': World, l: nat)
    requires LegFrame(s, s', l) && HeldAfter(cfg, s', l) && (s.lock == Some(l) || s'.lock == Some(l))
    ensures HeldInv(cfg, s')
  {
    hide Held;
  }

  lemma AdvanceAcquires(cfg: Config, s: World, l: nat)
    requires CanAdvance(s, l) && s.legs[l].pc.WaitLock?
    ensures Advance(cfg, s, l) == AcquireNext(s, l) && AcquireNext(s, l).lock == Some(l)
  {
  }

  lemma GotoPc(s: World, l: nat, pc: Pc)
    requires l in s.legs
    ensures l in Goto(s, l, pc).legs && Goto(s, l, pc).legs[l].pc == pc
  {
  }

  lemma OutsideStays(cfg: Config, s: World, l: nat)
    requires CanAdvance(s, l) && !InSection(s.legs[l].pc) && !s.legs[l].pc.WaitLock?
    ensures l in Advance(cfg, s, l).legs && !InSection(Advance(cfg, s, l).legs[l].pc)
  {
    hide ScanNext, TakeNext, Goto, CheckOf, OwnAgrees, ClusterPin, Content, FirstPhase, BeginScan;
    BeginLeaves(cfg, s, l);
    forall pc: Pc ensures l in Goto(s, l, pc).legs && Goto(s, l, pc).legs[l].pc == pc {
      GotoPc(s, l, pc);
    }
    if s.legs[l].pc.Scan? {
      ScanStays(cfg, s, l);
    } else if s.legs[l].pc.TakeSession? {
      TakeStays(s, l);
    }
  }

  lemma TakeStays(s: World, l: nat)
    requires l in s.legs
    ensures l in TakeNext(s, l).legs && !InSection(TakeNext(s, l).legs[l].pc)
  {
    hide Goto, InSection;
    NotInSection();
    GotoPc(s, l, Over);
    GotoPc(s.(sessions := s.sessions - {s.legs[l].sid}), l, Over);
  }

  predicate Outside(s: World, l: nat) {
    l in s.legs && !InSection(s.legs[l].pc)
  }

  lemma GotoOutside(s: World, l: nat, pc: Pc)
    requires l in s.legs && !InSection(pc)
    ensures Outside(Goto(s, l, pc), l)
  {
  }

  lemma SuspectStays(cfg: Config, s: World, pc: Pc, name: string, back: Back)
    requires pc.Scan? && !pc.section
    ensures !InSection(Suspect(cfg, s, pc, name, back))
  {
    hide Places;
  }

  lemma IgnoredOutside(s: World, l: nat)
    requires l in s.legs && s.legs[l].pc.Scan? && s.legs[l].pc.phase.Look? && !s.legs[l].pc.section
    ensures var leg, phase := s.legs[l], s.legs[l].pc.phase;
            Outside(Log(s.(legs := s.legs[l :=
                                          leg.(pc := leg.pc.(phase := Resume(phase.back)),
                                               stale := leg.stale + {phase.name})]),
                        Ignored(l, phase.name, phase.since, phase.absent)), l)
  {
  }

  lemma DoneOutside(leg: Leg, pc: Pc)
    requires pc.Scan? && !pc.section
    ensures !InSection(ScanDone(leg, pc)) && !InSection(Over) && forall phase :: !InSection(pc.(phase := phase))
  {
  }

  lemma EndsOutside(cfg: Config, s: World, l: nat)
    requires l in s.legs && s.legs[l].pc.Scan? && !s.legs[l].pc.section
    ensures Outside(ScanEnds(cfg, s, l), l)
  {
    hide Goto, Outside, InSection, ScanDone, ClearOf;
    DoneOutside(s.legs[l], s.legs[l].pc);
    GotoOutside(s, l, ScanDone(s.legs[l], s.legs[l].pc));
    LoggedOutside(Goto(s, l, ScanDone(s.legs[l], s.legs[l].pc)), l, ClearOf(cfg, s, l));
  }

  lemma LoggedOutside(s: World, l: nat, e: Event)
    requires Outside(s, l)
    ensures Outside(Log(s, e), l)
  {
  }

  lemma ScanStays(cfg: Config, s: World, l: nat)
    requires CanAdvance(s, l) && s.legs[l].pc.Scan? && !s.legs[l].pc.section
    ensures Outside(ScanNext(cfg, s, l), l)
  {
    hide Goto, Outside, InSection, Suspect, ScanEnds, InventoryHas, Places, ClusterPin, Content, AfterPins;
    var pc, phase := s.legs[l].pc, s.legs[l].pc.phase;
    EndsOutside(cfg, s, l);
    DoneOutside(s.legs[l], pc);
    forall next: Pc | !InSection(next) ensures Outside(Goto(s, l, next), l) {
      GotoOutside(s, l, next);
    }
    if phase.Look? {
      IgnoredOutside(s, l);
    } else if phase.Pins? && phase.todo != [] {
      SuspectStays(cfg, s, pc, phase.todo[0], ToPins(phase.todo[1..]));
    } else if phase.Suspects? && phase.todo != [] {
      SuspectStays(cfg, s, pc, phase.todo[0], ToSuspects(phase.todo[1..]));
    }
  }

  /** The history stays consistent, and agrees with the files. */
  ghost predicate HistoryOk(pins: map<string, string>, events: seq<Event>) {
    WitnessInv(pins, events) && LogOk(events)
  }

  lemma HistoryMore(pins: map<string, string>, events: seq<Event>, e: Event)
    requires HistoryOk(pins, events) && EntryOk(events, e)
    requires e.Witness? || e.Created? ==> e.fp != "" && e.vmid in pins && pins[e.vmid] == e.fp
    ensures HistoryOk(pins, events + [e])
  {
    hide EntryOk, WitnessInv, LogOk;
    WitnessMore(pins, events, e);
    AppendLog(events, e);
  }

  lemma HistoryLink(s: World, l: nat)
    requires l in s.legs && HistoryOk(s.pins, s.events) && s.legs[l].fp != "" && s.legs[l].vmid !in s.pins
    requires ReadyToLink(l, s.legs[l].Me(), s.pins, s.events)
             && ClearedBy(s.events, l, s.legs[l].vmid, s.legs[l].fp, true)
    ensures HistoryOk(LinkPin(s, l).pins, LinkPin(s, l).events)
  {
    hide ClearedBy, WitnessInv, LogOk, NoOtherWitness, StaleLogged, Covered, AllIgnored;
    var leg := s.legs[l];
    var e := Created(l, leg.vmid, leg.fp, leg.entered, s.pins);
    WitnessAgrees(s.pins, s.events, leg.vmid, leg.fp);
    LinkIgnores(l, leg.Me(), s.pins, s.events, e);
    WitnessLinked(s.pins, s.events, leg.vmid, leg.fp);
    HistoryMore(s.pins[leg.vmid := leg.fp], s.events, e);
  }

  lemma LinkIgnores(l: nat, me: Self, pins: map<string, string>, events: seq<Event>, e: Event)
    requires ReadyToLink(l, me, pins, events) && e == Created(l, me.vmid, me.fp, me.entered, pins)
    ensures AllIgnored(events, e)
  {
    hide IgnoredSince, IsVMIDName;
  }

  lemma HistoryWitness(pins: map<string, string>, events: seq<Event>, l: nat, vmid: string, fp: string)
    requires HistoryOk(pins, events) && fp != "" && Content(pins, vmid) == fp
    ensures HistoryOk(pins, events + [Witness(l, vmid, fp)])
  {
    hide WitnessInv, LogOk, NoOtherWitness;
    WitnessAgrees(pins, events, vmid, fp);
    HistoryMore(pins, events, Witness(l, vmid, fp));
  }

  lemma HistoryRemove(s: World, l: nat)
    requires l in s.legs && HistoryOk(s.pins, s.events) && Blank(s.pins, s.legs[l].vmid)
    ensures HistoryOk(RemoveNext(s, l).pins, RemoveNext(s, l).events)
  {
    hide WitnessInv, LogOk;
    WitnessUnlinked(s.pins, s.events, s.legs[l].vmid);
  }

  lemma HistoryIssue(s: World, l: nat)
    requires l in s.legs && s.legs[l].pc.Issue? && HistoryOk(s.pins, s.events) && Bound(s, s.legs[l])
    requires Vetted(s.events, l, s.legs[l].vmid, s.legs[l].fp) && ScannedOk(l, s.legs[l], s.events)
    ensures HistoryOk(IssueNext(s, l).pins, IssueNext(s, l).events)
  {
    hide WitnessInv, LogOk, IsWitness, Vetted, ClearedBy;
    var leg := s.legs[l];
    HistoryMore(s.pins, s.events, Issued(l, leg.sid, leg.bound.vmid, leg.vmid, leg.fp, leg.pc.reason));
  }

  /** What a scan logs: a VM it ignored, or that it found none. */
  lemma HistoryScan(cfg: Config, s: World, l: nat)
    requires CanAdvance(s, l) && s.legs[l].pc.Scan? && HistoryOk(s.pins, s.events)
    requires LookOk(s.legs[l].pc.phase, s.guests, s.events)
    requires s.legs[l].pc.section ==> Held(cfg, l, s.legs[l], s.pins, s.clusterPins, s.events)
    requires Tracks(cfg, l, s.legs[l], s.pins, s.clusterPins, s.events)
    ensures HistoryOk(ScanNext(cfg, s, l).pins, ScanNext(cfg, s, l).events)
  {
    hide HistoryOk, LookOk, EntryOk, InventoryHas, Places, ClusterPin, Content, Suspect, ScanEnds, AfterPins, Goto,
         Held, Tracks;
    forall pc: Pc ensures Goto(s, l, pc).pins == s.pins && Goto(s, l, pc).events == s.events {
      GotoLeaves(s, l, pc);
    }
    var phase := s.legs[l].pc.phase;
    if phase.Look? && phase.places == [] && phase.again {
      LookEnds(s.guests, s.events, l, phase);
      HistoryMore(s.pins, s.events, Ignored(l, phase.name, phase.since, phase.absent));
    } else if phase.InventoryPins? && !InventoryHas(s.inventory, s.legs[l].vmid, s.legs[l].fp) {
      HistoryEnds(cfg, s, l);
    }
  }

  lemma HistoryEnds(cfg: Config, s: World, l: nat)
    requires l in s.legs && s.legs[l].pc.Scan? && s.legs[l].pc.phase.InventoryPins? && HistoryOk(s.pins, s.events)
    requires !InventoryHas(s.inventory, s.legs[l].vmid, s.legs[l].fp)
    requires s.legs[l].pc.section ==> Held(cfg, l, s.legs[l], s.pins, s.clusterPins, s.events)
    requires Tracks(cfg, l, s.legs[l], s.pins, s.clusterPins, s.events)
    ensures HistoryOk(ScanEnds(cfg, s, l).pins, ScanEnds(cfg, s, l).events)
  {
    hide HistoryOk, InventoryHas, ScanDone, Goto, Held, Tracks, AllHeeded;
    var leg := s.legs[l];
    GotoLeaves(s, l, ScanDone(leg, leg.pc));
    if leg.pc.section {
      HeldScanParts(cfg, l, leg, s.pins, s.clusterPins, s.events);
    }
    ClearsRightly(cfg, s, l);
    HistoryMore(s.pins, s.events, ClearOf(cfg, s, l));
  }

  lemma ClearsRightly(cfg: Config, s: World, l: nat)
    requires l in s.legs && s.legs[l].pc.Scan? && s.legs[l].pc.phase.InventoryPins?
    requires !InventoryHas(s.inventory, s.legs[l].vmid, s.legs[l].fp)
    requires s.legs[l].pc.section ==> ScanOk(l, s.legs[l].Me(), s.legs[l].pc.existing, InventoryPins, s.pins, s.events)
    requires Tracks(cfg, l, s.legs[l], s.pins, s.clusterPins, s.events)
    ensures AllHeeded(s.events, ClearOf(cfg, s, l))
  {
    hide InventoryHas, IgnoredSince, TouchedSince, CreatedSince, Seen, IsVMIDName, ParseClusterPin;
  }

  lemma HeldReady(cfg: Config, l: nat, leg: Leg, pins: map<string, string>, clusterPins: map<string, string>,
                  events: seq<Event>)
    requires Held(cfg, l, leg, pins, clusterPins, events)
             && (leg.pc.Create? || leg.pc.Reread? || leg.pc.RemoveBlank? || leg.pc.Recreate?)
    ensures ReadyToLink(l, leg.Me(), pins, events) && Blank(pins, leg.vmid)
  {
    hide Covered, StaleLogged;
  }

  lemma HistoryCreate(s: World, l: nat, again: bool)
    requires l in s.legs && HistoryOk(s.pins, s.events) && s.legs[l].fp != ""
    requires ReadyToLink(l, s.legs[l].Me(), s.pins, s.events)
             && ClearedBy(s.events, l, s.legs[l].vmid, s.legs[l].fp, true)
    ensures HistoryOk(CreateNext(s, l, again).pins, CreateNext(s, l, again).events)
  {
    hide ClearedBy, HistoryOk, ReadyToLink, LinkPin, Goto;
    GotoLeaves(s, l, if again then Over else Reread);
    if s.legs[l].vmid !in s.pins {
      HistoryLink(s, l);
    }
  }

  lemma HistoryOwn(s: World, l: nat)
    requires l in s.legs && HistoryOk(s.pins, s.events) && s.legs[l].fp != ""
    ensures HistoryOk(LockedOwnNext(s, l).pins, LockedOwnNext(s, l).events)
  {
    hide HistoryOk, Goto, Content;
    var leg := s.legs[l];
    GotoLeaves(s, l, Over);
    GotoLeaves(s, l, Scan(true, "", ListPins));
    if Content(s.pins, leg.vmid) == leg.fp {
      HistoryWitness(s.pins, s.events, l, leg.vmid, leg.fp);
    }
  }

  lemma HistoryVet(cfg: Config, s: World, l: nat, e: Event)
    requires l in s.legs && e.Checked? && HistoryOk(s.pins, s.events)
    ensures HistoryOk(Vet(cfg, s, l, e).pins, Vet(cfg, s, l, e).events)
  {
    hide HistoryOk, Goto, OwnAgrees, BeginScan;
    GotoLeaves(s, l, Over);
    BeginLeaves(cfg, s, l);
    if OwnAgrees(e) {
      HistoryMore(s.pins, s.events, e);
    }
  }

  lemma AdvanceHistory(cfg: Config, s: World, l: nat)
    requires CanAdvance(s, l) && Inv(cfg, s)
    ensures HistoryOk(Advance(cfg, s, l).pins, Advance(cfg, s, l).events)
  {
    hide Vetted, ClearedBy, ScannedOk, Tracks, HistoryOk, Inv, Held, ReadyToLink, Bound, LookOk, IsFingerprint,
         IsVMIDName, ScanNext, TakeNext, AcquireNext, LockedClusterNext, LockedOwnNext, CreateNext, RereadNext,
         RemoveNext, ReleaseNext, IssueNext, Goto, Vet, CheckOf, ClusterPin, Content;
    LegFacts(cfg, s, l);
    var leg := s.legs[l];
    forall pc: Pc ensures Goto(s, l, pc).pins == s.pins && Goto(s, l, pc).events == s.events {
      GotoLeaves(s, l, pc);
    }
    match leg.pc
    case PreInventory => HistoryVet(cfg, s, l, CheckOf(cfg, s, l, ""));
    case PreOwn(cpin) => HistoryVet(cfg, s, l, CheckOf(cfg, s, l, cpin));
    case Scan(_, _, _) => HistoryScan(cfg, s, l);
    case TakeSession => TakeLeaves(s, l);
    case WaitLock => AcquireLeaves(s, l);
    case LockedCluster => LockedClusterLeaves(cfg, s, l);
    case LockedOwn => HistoryOwn(s, l);
    case Create => ScannedSection(l, leg, s.events); HistoryCreate(s, l, false);
    case Reread => HeldReread(cfg, s, l);
    case RemoveBlank => HistoryRemove(s, l);
    case Recreate => ScannedSection(l, leg, s.events); HistoryCreate(s, l, true);
    case Settled(_) => ReleaseLeaves(s, l);
    case Issue(_) => HistoryIssue(s, l);
    case _ =>
  }

  lemma ScannedSection(l: nat, leg: Leg, events: seq<Event>)
    requires ScannedOk(l, leg, events) && PastScan(leg.pc)
    ensures ClearedBy(events, l, leg.vmid, leg.fp, true)
  {
  }

  /** What the invariant says of one leg. */
  lemma LegFacts(cfg: Config, s: World, l: nat)
    requires Inv(cfg, s) && l in s.legs
    ensures HistoryOk(s.pins, s.events)
    ensures s.legs[l].fp != ""
    ensures s.legs[l].pc.Scan? ==> LookOk(s.legs[l].pc.phase, s.guests, s.events)
    ensures InSection(s.legs[l].pc) ==> Held(cfg, l, s.legs[l], s.pins, s.clusterPins, s.events)
    ensures s.legs[l].pc.Create? || s.legs[l].pc.Reread? || s.legs[l].pc.RemoveBlank? || s.legs[l].pc.Recreate? ==>
              ReadyToLink(l, s.legs[l].Me(), s.pins, s.events) && Blank(s.pins, s.legs[l].vmid)
    ensures Holds(s.legs[l]) ==> Bound(s, s.legs[l])
    ensures PastCheck(s.legs[l].pc) ==> Vetted(s.events, l, s.legs[l].vmid, s.legs[l].fp)
    ensures ScannedOk(l, s.legs[l], s.events)
    ensures Tracks(cfg, l, s.legs[l], s.pins, s.clusterPins, s.events)
  {
    hide ScannedOk, Tracks, Vetted, Held, ReadyToLink, Bound, LookOk, WitnessInv, LogOk, IsVMIDName;
    LockOf(s, l);
    var pc := s.legs[l].pc;
    if pc.Create? || pc.Reread? || pc.RemoveBlank? || pc.Recreate? {
      HeldReady(cfg, l, s.legs[l], s.pins, s.clusterPins, s.events);
    }
  }

  lemma TakeLeaves(s: World, l: nat)
    requires l in s.legs
    ensures TakeNext(s, l).pins == s.pins && TakeNext(s, l).events == s.events
  {
    hide Goto;
    GotoLeaves(s, l, Over);
    GotoLeaves(s.(sessions := s.sessions - {s.legs[l].sid}), l, Over);
  }

  lemma AcquireLeaves(s: World, l: nat)
    requires l in s.legs
    ensures AcquireNext(s, l).pins == s.pins && AcquireNext(s, l).events == s.events
            && AcquireNext(s, l).sessions == s.sessions
  {
  }

  lemma LockedClusterLeaves(cfg: Config, s: World, l: nat)
    requires l in s.legs
    ensures LockedClusterNext(cfg, s, l).pins == s.pins && LockedClusterNext(cfg, s, l).events == s.events
  {
    hide ClusterPin, Goto;
    forall pc: Pc ensures Goto(s, l, pc).pins == s.pins && Goto(s, l, pc).events == s.events {
      GotoLeaves(s, l, pc);
    }
  }

  lemma ReleaseLeaves(s: World, l: nat)
    requires l in s.legs && s.legs[l].pc.Settled?
    ensures ReleaseNext(s, l).pins == s.pins && ReleaseNext(s, l).events == s.events
  {
  }

  predicate LogsLeg(e: Event) {
    e.Checked? || e.Cleared? || e.Ignored? || e.Issued? || e.SessionPut? || e.Witness? || e.Created?
  }

  /** The history gains at most one event. */
  ghost predicate Grows(before: seq<Event>, after: seq<Event>) {
    after == before || exists e: Event :: LogsLeg(e) && after == before + [e]
  }

  lemma LogGrows(s1: World, e: Event)
    requires LogsLeg(e)
    ensures Grows(s1.events, Log(s1, e).events)
  {
  }

  lemma QuietGrows(s: World, s': World)
    requires Quiet(s, s')
    ensures Grows(s.events, s'.events)
  {
  }

  lemma SectionGrows(s: World, l: nat)
    requires l in s.legs
    ensures Grows(s.events, LockedOwnNext(s, l).events)
    ensures Grows(s.events, LinkPin(s, l).events)
    ensures Grows(s.events, RereadNext(s, l).events)
  {
    hide Grows, Log, Goto, Content;
    forall pc: Pc ensures Goto(s, l, pc).events == s.events {
      GotoLeaves(s, l, pc);
    }
    SameGrows(s.events);
    var leg := s.legs[l];
    LogGrows(s.(legs := s.legs[l := leg.(pc := Scan(true, Content(s.pins, leg.vmid), ListPins), mark := |s.events|)]),
             Witness(l, leg.vmid, leg.fp));
    LogGrows(s.(legs := s.legs[l := leg.(pc := Settled(ByLocal(|s.events|)), mark := |s.events|)]),
             Witness(l, leg.vmid, leg.fp));
    LogGrows(s.(pins := s.pins[leg.vmid := leg.fp],
                legs := s.legs[l := leg.(pc := Settled(ByLocal(|s.events|)), mark := |s.events|)]),
             Created(l, leg.vmid, leg.fp, leg.entered, s.pins));
  }

  lemma SameGrows(events: seq<Event>)
    ensures Grows(events, events)
  {
  }

  lemma CreateGrows(s: World, l: nat, again: bool)
    requires l in s.legs
    ensures Grows(s.events, CreateNext(s, l, again).events)
  {
    hide Grows, LinkPin, Goto;
    SectionGrows(s, l);
    SameGrows(s.events);
    GotoLeaves(s, l, if again then Over else Reread);
  }

  lemma RemoveLeaves(s: World, l: nat)
    requires l in s.legs
    ensures RemoveNext(s, l).events == s.events
  {
  }

  lemma AdvanceGrows(cfg: Config, s: World, l: nat)
    requires CanAdvance(s, l)
    ensures Grows(s.events, Advance(cfg, s, l).events)
  {
    hide Grows, Quiet, ScanNext, TakeNext, AcquireNext, LockedClusterNext, LockedOwnNext, CreateNext, RereadNext,
         RemoveNext, ReleaseNext, IssueNext, Goto, Vet, CheckOf, ClusterPin, Content;
    SameGrows(s.events);
    if !InSection(s.legs[l].pc) {
      OutsideFrame(cfg, s, l);
      QuietGrows(s, Advance(cfg, s, l));
    } else {
      match s.legs[l].pc
      case Scan(_, _, _) => ScanQuiet(cfg, s, l); QuietGrows(s, ScanNext(cfg, s, l));
      case LockedCluster => LockedClusterLeaves(cfg, s, l);
      case LockedOwn => SectionGrows(s, l);
      case Create => CreateGrows(s, l, false);
      case Reread => SectionGrows(s, l);
      case RemoveBlank => RemoveLeaves(s, l);
      case Recreate => CreateGrows(s, l, true);
      case Settled(_) => ReleaseLeaves(s, l);
      case _ =>
    }
  }

  // ----- looks under way

  ghost predicate LookHere(s: World, l: nat) {
    l in s.legs && (s.legs[l].pc.Scan? ==> LookOk(s.legs[l].pc.phase, s.guests, s.events))
  }

  lemma GotoLook(s: World, l: nat, pc: Pc)
    requires l in s.legs
    requires pc.Scan? ==> LookOk(pc.phase, s.guests, s.events)
    ensures LookHere(Goto(s, l, pc), l)
  {
    hide LookOk;
  }

  lemma SuspectLook(cfg: Config, s: World, l: nat, name: string, back: Back)
    requires l in s.legs && s.legs[l].pc.Scan? && GuestsInv(cfg, s.guests)
    ensures LookHere(Goto(s, l, Suspect(cfg, s, s.legs[l].pc, name, back)), l)
  {
    hide Goto, LookHere, LookOk, Places;
    LookBegins(cfg, s.guests, s.events, name, back);
    GotoLook(s, l, Suspect(cfg, s, s.legs[l].pc, name, back));
  }

  lemma NoLook(phase: Phase, guests: map<string, Place>, events: seq<Event>)
    requires !phase.Look?
    ensures LookOk(phase, guests, events)
  {
  }

  lemma IgnoredLook(s: World, l: nat)
    requires l in s.legs && s.legs[l].pc.Scan? && s.legs[l].pc.phase.Look?
    ensures var leg, phase := s.legs[l], s.legs[l].pc.phase;
            LookHere(Log(s.(legs := s.legs[l :=
                                           leg.(pc := leg.pc.(phase := Resume(phase.back)),
                                                stale := leg.stale + {phase.name})]),
                         Ignored(l, phase.name, phase.since, phase.absent)), l)
  {
  }

  lemma EndsLook(cfg: Config, s: World, l: nat)
    requires l in s.legs && s.legs[l].pc.Scan?
    ensures LookHere(ScanEnds(cfg, s, l), l)
  {
    hide LookOk;
  }

  lemma ScanLook(cfg: Config, s: World, l: nat)
    requires CanAdvance(s, l) && s.legs[l].pc.Scan? && GuestsInv(cfg, s.guests)
    requires LookOk(s.legs[l].pc.phase, s.guests, s.events)
    ensures LookHere(ScanNext(cfg, s, l), l)
  {
    hide Goto, Log, LookHere, LookOk, Suspect, InventoryHas, Places, ClusterPin, Content, GuestsInv, ScanEnds;
    var leg := s.legs[l];
    var phase := leg.pc.phase;
    forall pc: Pc | pc.Scan? ==> !pc.phase.Look? ensures LookHere(Goto(s, l, pc), l) {
      if pc.Scan? {
        NoLook(pc.phase, s.guests, s.events);
      }
      GotoLook(s, l, pc);
    }
    if phase.InventoryPins? {
      EndsLook(cfg, s, l);
    } else if phase.Look? {
      IgnoredLook(s, l);
      if phase.places != [] {
        if !(phase.name in s.guests && s.guests[phase.name] == phase.places[0]) {
          LookOn(s.guests, s.events, phase);
          GotoLook(s, l, leg.pc.(phase := phase.(places := phase.places[1..])));
        }
      } else if !phase.again {
        LookAgain(cfg, s.guests, s.events, phase);
        GotoLook(s, l, leg.pc.(phase := phase.(again := true, places := Places(cfg.nodes))));
      }
    } else if phase.Pins? && phase.todo != [] {
      SuspectLook(cfg, s, l, phase.todo[0], ToPins(phase.todo[1..]));
    } else if phase.Suspects? && phase.todo != [] {
      SuspectLook(cfg, s, l, phase.todo[0], ToSuspects(phase.todo[1..]));
    }
  }

  /** The scan of a critical section that has only just begun, or no scan. */
  predicate NewScan(pc: Pc) {
    pc.Scan? ==> pc.section && pc.phase.ListPins?
  }

  predicate NotLooking(s: World, l: nat) {
    l in s.legs && NewScan(s.legs[l].pc)
  }

  lemma GotoNotLooking(s: World, l: nat, pc: Pc)
    requires l in s.legs && NewScan(pc)
    ensures NotLooking(Goto(s, l, pc), l)
  {
  }

  lemma FirstNotLooking(cfg: Config, s: World, l: nat)
    requires l in s.legs
    ensures NotLooking(TakeNext(s, l), l) && NotLooking(AcquireNext(s, l), l)
            && NotLooking(LockedClusterNext(cfg, s, l), l)
  {
    hide Goto, ClusterPin;
    forall w: World, pc: Pc | l in w.legs && NewScan(pc) ensures NotLooking(Goto(w, l, pc), l) {
      GotoNotLooking(w, l, pc);
    }
  }

  lemma SectionNotLooking(s: World, l: nat, again: bool)
    requires l in s.legs
    ensures NotLooking(LockedOwnNext(s, l), l) && NotLooking(CreateNext(s, l, again), l)
            && NotLooking(RereadNext(s, l), l)
  {
    hide Goto, Content;
    forall w: World, pc: Pc | l in w.legs && NewScan(pc) ensures NotLooking(Goto(w, l, pc), l) {
      GotoNotLooking(w, l, pc);
    }
  }

  lemma LastNotLooking(s: World, l: nat)
    requires l in s.legs
    ensures NotLooking(RemoveNext(s, l), l)
    ensures s.legs[l].pc.Settled? ==> NotLooking(ReleaseNext(s, l), l)
    ensures s.legs[l].pc.Issue? ==> NotLooking(IssueNext(s, l), l)
  {
    hide Goto;
    forall w: World, pc: Pc | l in w.legs && NewScan(pc) ensures NotLooking(Goto(w, l, pc), l) {
      GotoNotLooking(w, l, pc);
    }
  }

  lemma VetLook(cfg: Config, s: World, l: nat, e: Event)
    requires l in s.legs && e.Checked?
    ensures LookHere(Vet(cfg, s, l, e), l)
  {
    hide OwnAgrees, Goto, BeginScan;
    GotoLook(s, l, Over);
    BeginLeaves(cfg, s, l);
  }

  lemma NotLookingHere(s: World, l: nat)
    requires NotLooking(s, l)
    ensures LookHere(s, l)
  {
  }

  predicate Vets(pc: Pc) {
    pc.PreInventory? || pc.PreOwn?
  }

  /** No action outside a scan starts a look. */
  lemma OtherLook(cfg: Config, s: World, l: nat)
    requires CanAdvance(s, l) && !s.legs[l].pc.Scan?
    ensures LookHere(Advance(cfg, s, l), l) && (!Vets(s.legs[l].pc) ==> NotLooking(Advance(cfg, s, l), l))
  {
    hide NotLooking, LookHere, Goto, TakeNext, AcquireNext, LockedClusterNext, LockedOwnNext, CreateNext, RereadNext,
         RemoveNext, ReleaseNext, IssueNext, Vet, CheckOf, ClusterPin, Content;
    FirstNotLooking(cfg, s, l);
    SectionNotLooking(s, l, false);
    SectionNotLooking(s, l, true);
    LastNotLooking(s, l);
    GotoNotLooking(s, l, PreOwn(ClusterPin(cfg, s, s.legs[l].vmid)));
    if s.legs[l].pc.PreOwn? {
      VetLook(cfg, s, l, CheckOf(cfg, s, l, s.legs[l].pc.cpin));
    } else if s.legs[l].pc.PreInventory? {
      VetLook(cfg, s, l, CheckOf(cfg, s, l, ""));
    } else {
      NotLookingHere(Advance(cfg, s, l), l);
    }
  }

  lemma AdvanceLooks(cfg: Config, s: World, l: nat)
    requires CanAdvance(s, l) && Inv(cfg, s)
    ensures LooksInv(Advance(cfg, s, l).legs, Advance(cfg, s, l).guests, Advance(cfg, s, l).events)
  {
    hide Inv, Advance, ScanNext, LooksInv, LookOk, LegFrame, Held, Bound, GuestsInv;
    var s' := Advance(cfg, s, l);
    InvParts(cfg, s);
    LegFacts(cfg, s, l);
    AdvanceFrame(cfg, s, l);
    AdvanceGrows(cfg, s, l);
    FrameParts(s, s', l);
    if s.legs[l].pc.Scan? {
      ScanLook(cfg, s, l);
      AdvanceScans(cfg, s, l);
    } else {
      OtherLook(cfg, s, l);
    }
    if s'.events != s.events {
      var e: Event :| s'.events == s.events + [e];
      LooksGrow(s.legs, s.guests, s.events, e);
    }
    LooksOne(s.legs, s.guests, s'.events, l, s'.legs[l]);
  }

  lemma AdvanceScans(cfg: Config, s: World, l: nat)
    requires CanAdvance(s, l) && s.legs[l].pc.Scan?
    ensures Advance(cfg, s, l) == ScanNext(cfg, s, l)
  {
  }

  lemma FrameParts(s: World, s': World, l: nat)
    requires LegFrame(s, s', l)
    ensures l in s'.legs && s'.legs == s.legs[l := s'.legs[l]] && s'.guests == s.guests
            && s'.clusterPins == s.clusterPins
  {
  }

  lemma InvParts(cfg: Config, s: World)
    requires Inv(cfg, s)
    ensures LockInv(s.legs, s.lock) && LegsInv(s.legs) && GuestsInv(cfg, s.guests) && VettedInv(s.legs, s.events)
    ensures WitnessInv(s.pins, s.events) && LogOk(s.events) && LooksInv(s.legs, s.guests, s.events)
    ensures HeldInv(cfg, s) && SessionsInv(s) && ScansInv(cfg, s) && ClearedInv(s.legs, s.events)
  {
    hide LockInv, LegsInv, WitnessInv, LogOk, LooksInv, HeldInv, SessionsInv, GuestsInv, VettedInv, ScansInv,
         ClearedInv;
  }

  // ----- sessions

  /** The session part of a world after something other than taking or issuing. */
  lemma SessionsKept(s: World, s': World, l: nat)
    requires SessionsInv(s) && l in s.legs && l in s'.legs && s'.legs == s.legs[l := s'.legs[l]]
    requires s'.sessions == s.sessions && Grows(s.events, s'.events)
    requires s'.events != s.events ==> !s'.events[|s'.events| - 1].Issued?
    requires Holds(s'.legs[l]) ==> Holds(s.legs[l])
    requires s'.legs[l].sid == s.legs[l].sid && s'.legs[l].bound == s.legs[l].bound
    requires s'.legs[l].vmid == s.legs[l].vmid && s'.legs[l].fp == s.legs[l].fp
    requires s'.legs[l].pc.Issue? && s'.legs[l].pc.reason.ByLocal? ==>
               s'.legs[l].pc.reason.mark < |s.events|
                 && IsWitness(s.events[s'.legs[l].pc.reason.mark], s'.legs[l].vmid, s'.legs[l].fp)
    ensures SessionsInv(s')
  {
    hide IsWitness, Holds;
    forall sid | sid in s'.sessions
      ensures SessionPut(sid, s'.sessions[sid].vmid, s'.sessions[sid].fp) in s'.events && NotIssued(s'.events, sid)
    {
      NotIssuedGrows(s.events, s'.events, sid);
    }
    forall m | m in s'.legs && Holds(s'.legs[m]) ensures Bound(s', s'.legs[m]) {
      assert Bound(s, s.legs[m]);
      NotIssuedGrows(s.events, s'.events, s.legs[m].sid);
    }
  }

  lemma NotIssuedGrows(before: seq<Event>, after: seq<Event>, sid: string)
    requires Grows(before, after) && NotIssued(before, sid)
    requires after != before ==> !after[|after| - 1].Issued? || after[|after| - 1].sid != sid
    ensures NotIssued(after, sid)
  {
  }

  /** The session stays with the leg, which can only give it up. */
  ghost predicate SessionFrame(s: World, s': World, l: nat) {
    && l in s.legs && l in s'.legs && s'.sessions == s.sessions
    && s'.legs[l].bound == s.legs[l].bound
    && (Holds(s'.legs[l]) ==> Holds(s.legs[l]))
    && (s'.events == s.events || (|s'.events| > 0 && !s'.events[|s'.events| - 1].Issued?))
    && (s'.legs[l].pc.Issue? ==> s.legs[l].pc.Settled? && s'.legs[l].pc.reason == s.legs[l].pc.path)
  }

  predicate HoldsAt(pc: Pc) {
    pc.WaitLock? || InSection(pc) || pc.Issue?
  }

  lemma SectionHolds()
    ensures !HoldsAt(Over)
  {
  }

  lemma GotoSession(s: World, l: nat, pc: Pc)
    requires l in s.legs && !pc.Issue? && (HoldsAt(pc) ==> HoldsAt(s.legs[l].pc))
    ensures SessionFrame(s, Goto(s, l, pc), l)
  {
  }

  lemma LogSession(s: World, l: nat, leg: Leg, e: Event)
    requires l in s.legs && !leg.pc.Issue? && (HoldsAt(leg.pc) ==> HoldsAt(s.legs[l].pc))
             && leg.bound == s.legs[l].bound
    requires !e.Issued?
    ensures SessionFrame(s, Log(s.(legs := s.legs[l := leg]), e), l)
  {
  }

  lemma EndsSession(cfg: Config, s: World, l: nat)
    requires l in s.legs && s.legs[l].pc.Scan?
    ensures SessionFrame(s, ScanEnds(cfg, s, l), l)
  {
    hide Goto, SessionFrame, ScanDone, ClearOf;
    var next := ScanDone(s.legs[l], s.legs[l].pc);
    DoneHolds(s.legs[l], s.legs[l].pc);
    GotoSession(s, l, next);
    LogAfter(s, Goto(s, l, next), l, ClearOf(cfg, s, l));
  }

  lemma DoneHolds(leg: Leg, pc: Pc)
    requires pc.Scan?
    ensures !ScanDone(leg, pc).Issue? && (HoldsAt(ScanDone(leg, pc)) ==> HoldsAt(pc))
  {
  }

  lemma LogAfter(s: World, s1: World, l: nat, e: Event)
    requires SessionFrame(s, s1, l) && !e.Issued?
    ensures SessionFrame(s, Log(s1, e), l)
  {
    hide Holds;
  }

  predicate SuspectHolds(pc: Pc, next: Pc) {
    !next.Issue? && (HoldsAt(next) ==> HoldsAt(pc))
  }

  lemma ScanSession(cfg: Config, s: World, l: nat)
    requires CanAdvance(s, l) && s.legs[l].pc.Scan?
    ensures SessionFrame(s, ScanNext(cfg, s, l), l)
  {
    hide SessionFrame, Goto, Log, InventoryHas, Places, ClusterPin, Content, Suspect, ScanEnds, AfterPins;
    EndsSession(cfg, s, l);
    var leg, phase := s.legs[l], s.legs[l].pc.phase;
    forall pc: Pc | !pc.Issue? && (HoldsAt(pc) ==> HoldsAt(leg.pc)) ensures SessionFrame(s, Goto(s, l, pc), l) {
      GotoSession(s, l, pc);
    }
    forall name, back ensures SuspectHolds(leg.pc, Suspect(cfg, s, leg.pc, name, back)) {
      SuspectKeeps(cfg, s, leg.pc, name, back);
    }
    if phase.Look? {
      LogSession(s, l, leg.(pc := leg.pc.(phase := Resume(phase.back)), stale := leg.stale + {phase.name}),
                 Ignored(l, phase.name, phase.since, phase.absent));
    }
  }

  lemma SuspectKeeps(cfg: Config, s: World, pc: Pc, name: string, back: Back)
    requires pc.Scan?
    ensures SuspectHolds(pc, Suspect(cfg, s, pc, name, back))
  {
    hide Places;
  }

  lemma LockedSession(cfg: Config, s: World, l: nat)
    requires l in s.legs && InSection(s.legs[l].pc)
    ensures SessionFrame(s, LockedClusterNext(cfg, s, l), l)
    ensures SessionFrame(s, LockedOwnNext(s, l), l)
    ensures SessionFrame(s, RereadNext(s, l), l)
  {
    hide SessionFrame, Goto, Log, ClusterPin, Content;
    var leg := s.legs[l];
    forall pc: Pc | !pc.Issue? ensures SessionFrame(s, Goto(s, l, pc), l) {
      GotoSession(s, l, pc);
    }
    LogSession(s, l, leg.(pc := Scan(true, Content(s.pins, leg.vmid), ListPins), mark := |s.events|),
               Witness(l, leg.vmid, leg.fp));
    LogSession(s, l, leg.(pc := Settled(ByLocal(|s.events|)), mark := |s.events|), Witness(l, leg.vmid, leg.fp));
  }

  lemma LinkSession(s: World, l: nat)
    requires l in s.legs && InSection(s.legs[l].pc)
    ensures SessionFrame(s, LinkPin(s, l), l)
    ensures SessionFrame(s, RemoveNext(s, l), l)
    ensures s.legs[l].pc.Settled? ==> SessionFrame(s, ReleaseNext(s, l), l)
  {
  }

  lemma CreateSession(s: World, l: nat, again: bool)
    requires l in s.legs && InSection(s.legs[l].pc)
    ensures SessionFrame(s, CreateNext(s, l, again), l)
  {
    hide SessionFrame, Goto, LinkPin;
    LinkSession(s, l);
    GotoSession(s, l, if again then Over else Reread);
  }

  lemma AcquireSession(s: World, l: nat)
    requires l in s.legs && s.legs[l].pc.WaitLock?
    ensures SessionFrame(s, AcquireNext(s, l), l)
  {
  }

  lemma VetSession(cfg: Config, s: World, l: nat, e: Event)
    requires l in s.legs && e.Checked?
    ensures SessionFrame(s, Vet(cfg, s, l, e), l)
  {
    hide OwnAgrees, Goto, BeginScan, SessionFrame, HoldsAt;
    SectionHolds();
    GotoSession(s, l, Over);
    BeginSession(cfg, s, l);
    LogAfter(s, BeginScan(cfg, s, l), l, e);
  }

  lemma BeginSession(cfg: Config, s: World, l: nat)
    requires l in s.legs
    ensures SessionFrame(s, BeginScan(cfg, s, l), l)
  {
    hide FirstPhase;
  }

  /** Every action but taking a session and issuing. */
  lemma AdvanceSession(cfg: Config, s: World, l: nat)
    requires CanAdvance(s, l) && !s.legs[l].pc.TakeSession? && !s.legs[l].pc.Issue?
    ensures SessionFrame(s, Advance(cfg, s, l), l)
  {
    hide SessionFrame, Goto, ScanNext, AcquireNext, LockedClusterNext, LockedOwnNext, CreateNext, RereadNext,
         RemoveNext, ReleaseNext, Vet, CheckOf, ClusterPin, Content;
    match s.legs[l].pc
    case PreCluster => GotoSession(s, l, PreOwn(ClusterPin(cfg, s, s.legs[l].vmid)));
    case PreInventory => VetSession(cfg, s, l, CheckOf(cfg, s, l, ""));
    case PreOwn(cpin) => VetSession(cfg, s, l, CheckOf(cfg, s, l, cpin));
    case Scan(_, _, _) => ScanSession(cfg, s, l);
    case WaitLock => AcquireSession(s, l);
    case LockedCluster => LockedSession(cfg, s, l);
    case LockedOwn => LockedSession(cfg, s, l);
    case Create => CreateSession(s, l, false);
    case Reread => LockedSession(cfg, s, l);
    case RemoveBlank => LinkSession(s, l);
    case Recreate => CreateSession(s, l, true);
    case Settled(_) => LinkSession(s, l);
    case _ =>
  }

  lemma SessionsTaken(s: World, s': World, l: nat, sid: string)
    requires SessionsInv(s) && l in s.legs && l in s'.legs && s'.legs == s.legs[l := s'.legs[l]]
             && s'.events == s.events
    requires sid in s.sessions && s'.sessions == s.sessions - {sid}
    requires Holds(s'.legs[l]) ==> s'.legs[l].sid == sid && Bound(s', s'.legs[l])
    ensures SessionsInv(s')
  {
    hide Holds, NotIssued, IsWitness;
    forall m | m in s'.legs && Holds(s'.legs[m]) ensures Bound(s', s'.legs[m]) && (m != l ==> s'.legs[m].sid != sid) {
      if m != l {
        assert Bound(s, s.legs[m]);
      }
    }
  }

  lemma TakenFields(s: World, l: nat)
    requires l in s.legs && s.legs[l].sid in s.sessions
    ensures var s' := TakeNext(s, l);
            && l in s'.legs && s'.legs == s.legs[l := s'.legs[l]] && s'.events == s.events
               && s'.sessions == s.sessions - {s.legs[l].sid}
            && s'.legs[l].sid == s.legs[l].sid && s'.legs[l].vmid == s.legs[l].vmid && s'.legs[l].fp == s.legs[l].fp
            && !(s'.legs[l].pc.Issue? && s'.legs[l].pc.reason.ByLocal?)
            && (Holds(s'.legs[l]) ==> s'.legs[l].bound == s.sessions[s.legs[l].sid]
                                      && s'.legs[l].bound.vmid == s.legs[l].vmid && s'.legs[l].bound.fp == s.legs[l].fp)
  {
    hide Goto, InSection;
    NotInSection();
    var s' := s.(sessions := s.sessions - {s.legs[l].sid});
    GotoLeaves(s', l, Over);
    GotoPc(s', l, Over);
    GotoIds(s', l, Over);
  }

  lemma TakeSessions(s: World, l: nat)
    requires l in s.legs && s.legs[l].pc.TakeSession? && SessionsInv(s)
    ensures SessionsInv(TakeNext(s, l))
  {
    hide SessionsInv, TakeNext, Goto, Holds, NotIssued, SessionFrame;
    var leg := s.legs[l];
    if leg.sid in s.sessions {
      var s' := TakeNext(s, l);
      TakenFields(s, l);
      InStore(s, leg.sid);
      SessionsTaken(s, s', l, leg.sid);
    } else {
      TakeMissing(s, l);
      GotoSession(s, l, Over);
      GotoIds(s, l, Over);
      SessionsFramed(s, Goto(s, l, Over), l);
    }
  }

  lemma InStore(s: World, sid: string)
    requires SessionsInv(s) && sid in s.sessions
    ensures SessionPut(sid, s.sessions[sid].vmid, s.sessions[sid].fp) in s.events && NotIssued(s.events, sid)
  {
  }

  lemma TakeMissing(s: World, l: nat)
    requires l in s.legs && s.legs[l].sid !in s.sessions
    ensures TakeNext(s, l) == Goto(s, l, Over)
  {
  }

  predicate SameIds(s: World, s': World, l: nat) {
    && l in s.legs && l in s'.legs && s'.legs == s.legs[l := s'.legs[l]]
    && s'.legs[l].sid == s.legs[l].sid && s'.legs[l].vmid == s.legs[l].vmid && s'.legs[l].fp == s.legs[l].fp
  }

  lemma GotoIds(s: World, l: nat, pc: Pc)
    requires l in s.legs
    ensures SameIds(s, Goto(s, l, pc), l) && Grows(s.events, Goto(s, l, pc).events)
  {
  }

  lemma SessionsFramed(s: World, s': World, l: nat)
    requires SessionsInv(s) && SessionFrame(s, s', l) && SameIds(s, s', l) && Grows(s.events, s'.events)
    requires s.legs[l].pc.Settled? && s.legs[l].pc.path.ByLocal? ==>
               s.legs[l].pc.path.mark < |s.events|
                 && IsWitness(s.events[s.legs[l].pc.path.mark], s.legs[l].vmid, s.legs[l].fp)
    ensures SessionsInv(s')
  {
    hide SessionsInv, Holds, Grows, IsWitness;
    SessionsKept(s, s', l);
  }

  lemma IssueSessions(s: World, l: nat)
    requires l in s.legs && s.legs[l].pc.Issue? && SessionsInv(s)
    ensures SessionsInv(IssueNext(s, l))
  {
    hide IssueNext;
    var s' := IssueNext(s, l);
    var e := IssueFields(s, l);
    hide IsWitness, Holds;
    assert Bound(s, s.legs[l]);
    forall sid | sid in s'.sessions
      ensures SessionPut(sid, s'.sessions[sid].vmid, s'.sessions[sid].fp) in s'.events && NotIssued(s'.events, sid)
    {
      assert SessionPut(sid, s.sessions[sid].vmid, s.sessions[sid].fp) in s.events;
    }
    forall m | m in s'.legs && Holds(s'.legs[m]) ensures Bound(s', s'.legs[m]) {
      assert Bound(s, s.legs[m]);
    }
  }

  lemma IssueFields(s: World, l: nat) returns (e: Event)
    requires l in s.legs && s.legs[l].pc.Issue?
    ensures e == Issued(l, s.legs[l].sid, s.legs[l].bound.vmid, s.legs[l].vmid, s.legs[l].fp, s.legs[l].pc.reason)
    ensures var s' := IssueNext(s, l);
            && s'.events == s.events + [e] && s'.sessions == s.sessions
               && s'.legs == s.legs[l := s.legs[l].(pc := Over)]
            && Holds(s.legs[l]) && !Holds(s'.legs[l])
  {
    e := Issued(l, s.legs[l].sid, s.legs[l].bound.vmid, s.legs[l].vmid, s.legs[l].fp, s.legs[l].pc.reason);
  }

  lemma SettledSeen(cfg: Config, s: World, l: nat)
    requires Inv(cfg, s) && l in s.legs && s.legs[l].pc.Settled?
    ensures SettledOk(cfg, s.legs[l], s.legs[l].pc.path, s.pins, s.clusterPins, s.events)
    ensures s.legs[l].pc.path.ByLocal? ==>
              s.legs[l].pc.path.mark < |s.events|
                && IsWitness(s.events[s.legs[l].pc.path.mark], s.legs[l].vmid, s.legs[l].fp)
  {
    hide Inv, IsWitness, TouchedSince, DeletedSince;
    LegFacts(cfg, s, l);
  }

  lemma AdvanceSessions(cfg: Config, s: World, l: nat)
    requires CanAdvance(s, l) && Inv(cfg, s)
    ensures SessionsInv(Advance(cfg, s, l))
  {
    hide Inv, Advance, SessionsInv, SessionFrame, Grows, IsWitness, LegFrame, LockInv, SettledOk;
    var s' := Advance(cfg, s, l);
    InvParts(cfg, s);
    if s.legs[l].pc.TakeSession? {
      AdvanceTakes(cfg, s, l);
      TakeSessions(s, l);
    } else if s.legs[l].pc.Issue? {
      AdvanceTakes(cfg, s, l);
      IssueSessions(s, l);
    } else {
      AdvanceSession(cfg, s, l);
      AdvanceFrame(cfg, s, l);
      FrameIds(s, s', l);
      AdvanceGrows(cfg, s, l);
      if s.legs[l].pc.Settled? {
        SettledSeen(cfg, s, l);
      }
      SessionsFramed(s, s', l);
    }
  }

  lemma FrameIds(s: World, s': World, l: nat)
    requires LegFrame(s, s', l)
    ensures SameIds(s, s', l)
  {
  }

  lemma AdvanceTakes(cfg: Config, s: World, l: nat)
    requires CanAdvance(s, l)
    ensures s.legs[l].pc.TakeSession? ==> Advance(cfg, s, l) == TakeNext(s, l)
    ensures s.legs[l].pc.Issue? ==> Advance(cfg, s, l) == IssueNext(s, l)
  {
  }

  // ----- vetted legs

  lemma VettedGrows(events: seq<Event>, e: Event, l: nat, vmid: string, fp: string)
    ensures Vetted(events, l, vmid, fp) ==> Vetted(events + [e], l, vmid, fp)
    ensures IsCheck(e, l, vmid, fp) ==> Vetted(events + [e], l, vmid, fp)
  {
    if Vetted(events, l, vmid, fp) {
      var k :| 0 <= k < |events| && IsCheck(events[k], l, vmid, fp);
      assert IsCheck((events + [e])[k], l, vmid, fp);
    }
    assert (events + [e])[|events|] == e;
  }

  lemma VettedMore(legs: map<nat, Leg>, events: seq<Event>, e: Event)
    requires VettedInv(legs, events)
    ensures VettedInv(legs, events + [e])
  {
    hide Vetted;
    forall l | l in legs && PastCheck(legs[l].pc) ensures Vetted(events + [e], l, legs[l].vmid, legs[l].fp) {
      VettedGrows(events, e, l, legs[l].vmid, legs[l].fp);
    }
  }

  lemma VettedOne(legs: map<nat, Leg>, events: seq<Event>, l: nat, leg: Leg)
    requires VettedInv(legs, events)
    requires PastCheck(leg.pc) ==> Vetted(events, l, leg.vmid, leg.fp)
    ensures VettedInv(legs[l := leg], events)
  {
    hide Vetted;
  }

  ghost predicate VettedHere(s: World, l: nat) {
    l in s.legs && (PastCheck(s.legs[l].pc) ==> Vetted(s.events, l, s.legs[l].vmid, s.legs[l].fp))
  }

  lemma VetVetted(cfg: Config, s: World, l: nat, cpin: string)
    requires l in s.legs
    ensures VettedHere(Vet(cfg, s, l, CheckOf(cfg, s, l, cpin)), l)
  {
    hide OwnAgrees, Goto, Content, Vetted, FirstPhase;
    GotoPc(s, l, Over);
    VettedGrows(s.events, CheckOf(cfg, s, l, cpin), l, s.legs[l].vmid, s.legs[l].fp);
  }

  lemma PreClusterVetted(cfg: Config, s: World, l: nat)
    requires l in s.legs
    ensures VettedHere(Goto(s, l, PreOwn(ClusterPin(cfg, s, s.legs[l].vmid))), l)
  {
    hide ClusterPin;
  }

  lemma AdvanceVetted(cfg: Config, s: World, l: nat)
    requires CanAdvance(s, l) && Inv(cfg, s)
    ensures VettedInv(Advance(cfg, s, l).legs, Advance(cfg, s, l).events)
  {
    hide Inv, Advance, VettedInv, Vetted, LegFrame, VettedHere, PastCheck;
    var s' := Advance(cfg, s, l);
    InvParts(cfg, s);
    AdvanceFrame(cfg, s, l);
    AdvanceGrows(cfg, s, l);
    FrameIds(s, s', l);
    AdvanceVettedHere(cfg, s, l);
    if s'.events != s.events {
      var e: Event :| s'.events == s.events + [e];
      VettedMore(s.legs, s.events, e);
    }
    HereVetted(s', l);
    VettedOne(s.legs, s'.events, l, s'.legs[l]);
  }

  lemma HereVetted(s: World, l: nat)
    requires VettedHere(s, l)
    ensures l in s.legs && (PastCheck(s.legs[l].pc) ==> Vetted(s.events, l, s.legs[l].vmid, s.legs[l].fp))
  {
  }

  lemma AdvanceVettedHere(cfg: Config, s: World, l: nat)
    requires CanAdvance(s, l) && Inv(cfg, s)
    ensures VettedHere(Advance(cfg, s, l), l)
  {
    hide Inv, Vetted, VettedHere, LegFrame, Vet, CheckOf, ScanNext, TakeNext, AcquireNext, LockedClusterNext,
         LockedOwnNext, CreateNext, RereadNext, RemoveNext, ReleaseNext, IssueNext, Goto, ClusterPin;
    if s.legs[l].pc.PreInventory? {
      VetVetted(cfg, s, l, "");
    } else if s.legs[l].pc.PreOwn? {
      VetVetted(cfg, s, l, s.legs[l].pc.cpin);
    } else if s.legs[l].pc.PreCluster? {
      PreClusterVetted(cfg, s, l);
    } else {
      StillVetted(cfg, s, l);
    }
  }

  /** A leg past the check stays past it. */
  lemma StillVetted(cfg: Config, s: World, l: nat)
    requires CanAdvance(s, l) && Inv(cfg, s) && PastCheck(s.legs[l].pc)
    ensures VettedHere(Advance(cfg, s, l), l)
  {
    hide Inv, Advance, Vetted, LegFrame, PastCheck;
    var s' := Advance(cfg, s, l);
    InvParts(cfg, s);
    LegFacts(cfg, s, l);
    AdvanceFrame(cfg, s, l);
    AdvanceGrows(cfg, s, l);
    FrameIds(s, s', l);
    if s'.events != s.events {
      var e: Event :| s'.events == s.events + [e];
      VettedGrows(s.events, e, l, s.legs[l].vmid, s.legs[l].fp);
    }
  }

  // ----- scans that ended

  lemma ClearedGrows(events: seq<Event>, e: Event, l: nat, vmid: string, fp: string, section: bool)
    ensures ClearedBy(events, l, vmid, fp, section) ==> ClearedBy(events + [e], l, vmid, fp, section)
    ensures IsClear(e, l, vmid, fp, section) ==> ClearedBy(events + [e], l, vmid, fp, section)
  {
    if ClearedBy(events, l, vmid, fp, section) {
      var k :| 0 <= k < |events| && IsClear(events[k], l, vmid, fp, section);
      assert IsClear((events + [e])[k], l, vmid, fp, section);
    }
    assert (events + [e])[|events|] == e;
  }

  lemma ScannedMore(l: nat, leg: Leg, events: seq<Event>, e: Event)
    requires ScannedOk(l, leg, events)
    ensures ScannedOk(l, leg, events + [e])
  {
    hide ClearedBy, PastScan, PastPre;
    ClearedGrows(events, e, l, leg.vmid, leg.fp, false);
    ClearedGrows(events, e, l, leg.vmid, leg.fp, true);
  }

  lemma ClearedMore(legs: map<nat, Leg>, events: seq<Event>, e: Event)
    requires ClearedInv(legs, events)
    ensures ClearedInv(legs, events + [e])
  {
    hide ScannedOk;
    forall l | l in legs ensures ScannedOk(l, legs[l], events + [e]) {
      ScannedMore(l, legs[l], events, e);
    }
  }

  lemma ClearedOne(legs: map<nat, Leg>, events: seq<Event>, l: nat, leg: Leg)
    requires ClearedInv(legs, events) && ScannedOk(l, leg, events)
    ensures ClearedInv(legs[l := leg], events)
  {
    hide ScannedOk;
  }

  /** No scan has ended yet, or the leg is over. */
  lemma NoneScanned(l: nat, leg: Leg, events: seq<Event>)
    requires !PastPre(leg.pc) && !PastScan(leg.pc)
    ensures ScannedOk(l, leg, events)
  {
  }

  lemma OverPast()
    ensures !PastCheck(Over) && !PastPre(Over) && !PastScan(Over)
  {
  }

  ghost predicate EndsAs(s: World, s': World, l: nat, section: bool)
    requires l in s.legs
  {
    exists e: Event :: s'.events == s.events + [e] && IsClear(e, l, s.legs[l].vmid, s.legs[l].fp, section)
  }

  /** What the leg's next place asks of the history, from what it was before. */
  ghost predicate Scanned(s: World, s': World, l: nat) {
    && l in s.legs && l in s'.legs
    && (PastPre(s'.legs[l].pc) ==> PastPre(s.legs[l].pc) || EndsAs(s, s', l, false))
    && (PastScan(s'.legs[l].pc) ==> PastScan(s.legs[l].pc) || EndsAs(s, s', l, true))
  }

  /** An action that passes no scan. */
  predicate Onward(from: Pc, to: Pc) {
    (PastPre(to) ==> PastPre(from)) && (PastScan(to) ==> PastScan(from))
  }

  lemma OnwardScanned(s: World, s': World, l: nat)
    requires l in s.legs && l in s'.legs && Onward(s.legs[l].pc, s'.legs[l].pc)
    ensures Scanned(s, s', l)
  {
    hide PastPre, PastScan, EndsAs;
  }

  lemma GotoScanned(s: World, l: nat, pc: Pc)
    requires l in s.legs && Onward(s.legs[l].pc, pc)
    ensures Scanned(s, Goto(s, l, pc), l)
  {
    hide Onward, Goto, Scanned;
    GotoPc(s, l, pc);
    OnwardScanned(s, Goto(s, l, pc), l);
  }

  lemma EndsScanned(cfg: Config, s: World, l: nat)
    requires l in s.legs && s.legs[l].pc.Scan?
    ensures Scanned(s, ScanEnds(cfg, s, l), l)
  {
    hide Goto, ScanDone, ClearOf;
    var leg := s.legs[l];
    var next := ScanDone(leg, leg.pc);
    GotoPc(s, l, next);
    GotoLeaves(s, l, next);
    DonePast(leg, leg.pc);
    var e := ClearOf(cfg, s, l);
    assert ScanEnds(cfg, s, l).events == s.events + [e] && IsClear(e, l, leg.vmid, leg.fp, leg.pc.section);
  }

  lemma DonePast(leg: Leg, pc: Pc)
    requires pc.Scan?
    ensures PastPre(ScanDone(leg, pc)) ==> PastPre(pc) || !pc.section
    ensures PastScan(ScanDone(leg, pc)) ==> pc.section
  {
  }

  lemma SuspectOnward(cfg: Config, s: World, pc: Pc, name: string, back: Back)
    requires pc.Scan?
    ensures Onward(pc, Suspect(cfg, s, pc, name, back))
  {
    hide Places;
  }

  lemma PhaseOnward(pc: Pc)
    requires pc.Scan?
    ensures Onward(pc, Over) && forall phase :: Onward(pc, pc.(phase := phase))
  {
  }

  lemma IgnoredScanned(s: World, l: nat)
    requires l in s.legs && s.legs[l].pc.Scan? && s.legs[l].pc.phase.Look?
    ensures var leg, phase := s.legs[l], s.legs[l].pc.phase;
            Scanned(s, Log(s.(legs :=
                              s.legs[l := leg.(pc := leg.pc.(phase := Resume(phase.back)),
                                               stale := leg.stale + {phase.name})]),
                           Ignored(l, phase.name, phase.since, phase.absent)), l)
  {
    hide Scanned, Onward, Resume;
    var leg, phase := s.legs[l], s.legs[l].pc.phase;
    PhaseOnward(leg.pc);
    OnwardScanned(s, Log(s.(legs :=
                            s.legs[l := leg.(pc := leg.pc.(phase := Resume(phase.back)),
                                             stale := leg.stale + {phase.name})]),
                         Ignored(l, phase.name, phase.since, phase.absent)), l);
  }

  lemma ScanScanned(cfg: Config, s: World, l: nat)
    requires CanAdvance(s, l) && s.legs[l].pc.Scan?
    ensures Scanned(s, ScanNext(cfg, s, l), l)
  {
    hide Goto, Log, Scanned, Onward, Suspect, ScanEnds, InventoryHas, Places, ClusterPin, Content, AfterPins;
    var pc, phase := s.legs[l].pc, s.legs[l].pc.phase;
    PhaseOnward(pc);
    forall next: Pc | Onward(pc, next) ensures Scanned(s, Goto(s, l, next), l) {
      GotoScanned(s, l, next);
    }
    EndsScanned(cfg, s, l);
    if phase.Look? {
      IgnoredScanned(s, l);
    } else if phase.Pins? && phase.todo != [] {
      SuspectOnward(cfg, s, pc, phase.todo[0], ToPins(phase.todo[1..]));
    } else if phase.Suspects? && phase.todo != [] {
      SuspectOnward(cfg, s, pc, phase.todo[0], ToSuspects(phase.todo[1..]));
    }
  }

  lemma VetScanned(cfg: Config, s: World, l: nat, e: Event)
    requires l in s.legs && e.Checked?
    ensures Scanned(s, Vet(cfg, s, l, e), l)
  {
    hide OwnAgrees, Goto, BeginScan, Scanned, FirstPhase;
    BeginLeaves(cfg, s, l);
    GotoPc(s, l, Over);
    OnwardScanned(s, Vet(cfg, s, l, e), l);
  }

  lemma TakeScanned(s: World, l: nat)
    requires l in s.legs && s.legs[l].pc.TakeSession?
    ensures Scanned(s, TakeNext(s, l), l)
  {
    hide Goto, Scanned;
    GotoPc(s, l, Over);
    GotoPc(s.(sessions := s.sessions - {s.legs[l].sid}), l, Over);
    OnwardScanned(s, TakeNext(s, l), l);
  }

  lemma AcquireScanned(s: World, l: nat)
    requires l in s.legs && s.legs[l].pc.WaitLock?
    ensures Scanned(s, AcquireNext(s, l), l)
  {
    hide Scanned;
    OnwardScanned(s, AcquireNext(s, l), l);
  }

  lemma LockedScanned(cfg: Config, s: World, l: nat)
    requires l in s.legs && s.legs[l].pc.LockedCluster?
    ensures Scanned(s, LockedClusterNext(cfg, s, l), l)
  {
    hide Goto, ClusterPin, Scanned;
    forall next: Pc | Onward(LockedCluster, next) ensures Scanned(s, Goto(s, l, next), l) {
      GotoScanned(s, l, next);
    }
  }

  lemma OwnScanned(s: World, l: nat)
    requires l in s.legs && s.legs[l].pc.LockedOwn?
    ensures Scanned(s, LockedOwnNext(s, l), l)
  {
    hide Goto, Content, Scanned;
    forall next: Pc | Onward(LockedOwn, next) ensures Scanned(s, Goto(s, l, next), l) {
      GotoScanned(s, l, next);
    }
    var leg := s.legs[l];
    OnwardScanned(s, Log(s.(legs :=
                            s.legs[l := leg.(pc := Scan(true, Content(s.pins, leg.vmid), ListPins),
                                             mark := |s.events|)]),
                         Witness(l, leg.vmid, leg.fp)), l);
  }

  lemma LinkScanned(s: World, l: nat, again: bool)
    requires l in s.legs && PastScan(s.legs[l].pc) && PastPre(s.legs[l].pc)
    ensures Scanned(s, CreateNext(s, l, again), l) && Scanned(s, RemoveNext(s, l), l)
    ensures Scanned(s, Goto(s, l, RemoveBlank), l)
  {
    hide Goto, PastScan, PastPre, EndsAs, LinkPin;
    GotoPc(s, l, Over);
    GotoPc(s, l, Reread);
    GotoPc(s, l, RemoveBlank);
    GotoPc(s.(pins := s.pins - {s.legs[l].vmid}), l, Recreate);
    LinkLegs(s, l);
  }

  lemma LinkLegs(s: World, l: nat)
    requires l in s.legs
    ensures l in LinkPin(s, l).legs
  {
  }

  lemma ReleaseScanned(s: World, l: nat)
    requires l in s.legs && s.legs[l].pc.Settled?
    ensures Scanned(s, ReleaseNext(s, l), l)
  {
    hide Scanned;
    OnwardScanned(s, ReleaseNext(s, l), l);
  }

  lemma IssueScanned(s: World, l: nat)
    requires l in s.legs && s.legs[l].pc.Issue?
    ensures Scanned(s, IssueNext(s, l), l)
  {
    hide Scanned, Goto;
    GotoPc(s, l, Over);
    OnwardScanned(s, IssueNext(s, l), l);
  }

  lemma AdvanceScanned(cfg: Config, s: World, l: nat)
    requires CanAdvance(s, l) && Inv(cfg, s)
    ensures Scanned(s, Advance(cfg, s, l), l)
  {
    hide Inv, Held, Scanned, Goto, Vet, CheckOf, ScanNext, TakeNext, AcquireNext, LockedClusterNext, LockedOwnNext,
         CreateNext, RereadNext, RemoveNext, ReleaseNext, IssueNext, ClusterPin, ReadyToLink, Bound, LookOk, HistoryOk,
         ScannedOk, Tracks, Vetted;
    LegFacts(cfg, s, l);
    match s.legs[l].pc
    case PreInventory => VetScanned(cfg, s, l, CheckOf(cfg, s, l, ""));
    case PreCluster => GotoScanned(s, l, PreOwn(ClusterPin(cfg, s, s.legs[l].vmid)));
    case PreOwn(cpin) => VetScanned(cfg, s, l, CheckOf(cfg, s, l, cpin));
    case Scan(_, _, _) => ScanScanned(cfg, s, l);
    case TakeSession => TakeScanned(s, l);
    case WaitLock => AcquireScanned(s, l);
    case LockedCluster => LockedScanned(cfg, s, l);
    case LockedOwn => OwnScanned(s, l);
    case Create => LinkScanned(s, l, false);
    case Reread => HeldReread(cfg, s, l); LinkScanned(s, l, false);
    case RemoveBlank => LinkScanned(s, l, false);
    case Recreate => LinkScanned(s, l, true);
    case Settled(_) => ReleaseScanned(s, l);
    case Issue(_) => IssueScanned(s, l);
    case _ =>
  }

  lemma ScannedHere(s: World, s': World, l: nat)
    requires Scanned(s, s', l) && SameIds(s, s', l) && ScannedOk(l, s.legs[l], s'.events)
    ensures ScannedOk(l, s'.legs[l], s'.events)
  {
    hide ClearedBy, PastPre, PastScan;
    forall section | EndsAs(s, s', l, section) ensures ClearedBy(s'.events, l, s.legs[l].vmid, s.legs[l].fp, section) {
      var e: Event :| s'.events == s.events + [e] && IsClear(e, l, s.legs[l].vmid, s.legs[l].fp, section);
      ClearedGrows(s.events, e, l, s.legs[l].vmid, s.legs[l].fp, section);
    }
  }

  lemma AdvanceCleared(cfg: Config, s: World, l: nat)
    requires CanAdvance(s, l) && Inv(cfg, s)
    ensures ClearedInv(Advance(cfg, s, l).legs, Advance(cfg, s, l).events)
  {
    hide Inv, Advance, ClearedInv, ScannedOk, LegFrame, Scanned, Tracks;
    var s' := Advance(cfg, s, l);
    InvParts(cfg, s);
    LegFacts(cfg, s, l);
    AdvanceFrame(cfg, s, l);
    AdvanceGrows(cfg, s, l);
    FrameIds(s, s', l);
    AdvanceScanned(cfg, s, l);
    if s'.events != s.events {
      var e: Event :| s'.events == s.events + [e];
      ClearedMore(s.legs, s.events, e);
      ScannedMore(l, s.legs[l], s.events, e);
    }
    ScannedHere(s, s', l);
    ClearedOne(s.legs, s'.events, l, s'.legs[l]);
  }

  // ----- how pin files change

  predicate Links(s: World, s': World, e: Event) {
    e.Created? && s'.events == s.events + [e] && e.pins == s.pins && e.vmid !in s.pins
      && s'.pins == s.pins[e.vmid := e.fp]
  }

  /** The service's ways with pin files: it leaves them alone, removes a blank
      one, or links one where none was, and logs the files it linked beside. */
  ghost predicate PinChange(s: World, s': World) {
    || s'.pins == s.pins
    || (exists vmid :: Blank(s.pins, vmid) && s'.pins == s.pins - {vmid})
    || (exists e: Event :: Links(s, s', e))
  }

  lemma CreateChange(s: World, l: nat, again: bool)
    requires l in s.legs
    ensures PinChange(s, CreateNext(s, l, again))
  {
    hide Goto;
    var leg := s.legs[l];
    GotoLeaves(s, l, if again then Over else Reread);
    if leg.vmid !in s.pins {
      assert Links(s, LinkPin(s, l), Created(l, leg.vmid, leg.fp, leg.entered, s.pins));
    }
  }

  lemma RemoveChange(s: World, l: nat)
    requires l in s.legs && Blank(s.pins, s.legs[l].vmid)
    ensures PinChange(s, RemoveNext(s, l))
  {
  }

  lemma OwnLeaves(s: World, l: nat)
    requires l in s.legs
    ensures LockedOwnNext(s, l).pins == s.pins
  {
    hide Goto, Content;
    GotoLeaves(s, l, Over);
    GotoLeaves(s, l, Scan(true, "", ListPins));
  }

  lemma Unchanged(s: World, s': World)
    requires s'.pins == s.pins
    ensures PinChange(s, s')
  {
  }

  lemma QuietChange(s: World, s': World)
    requires Quiet(s, s')
    ensures PinChange(s, s')
  {
  }

  lemma AdvanceChange(cfg: Config, s: World, l: nat)
    requires CanAdvance(s, l) && Inv(cfg, s)
    ensures PinChange(s, Advance(cfg, s, l))
  {
    hide Inv, Quiet, PinChange, ScanNext, TakeNext, AcquireNext, LockedClusterNext, LockedOwnNext, CreateNext,
         RereadNext, RemoveNext, ReleaseNext, IssueNext, Goto, Vet, CheckOf, ClusterPin, Content, Held, ReadyToLink,
         Bound, LookOk, HistoryOk;
    LegFacts(cfg, s, l);
    if !InSection(s.legs[l].pc) {
      OutsideFrame(cfg, s, l);
      QuietChange(s, Advance(cfg, s, l));
    } else {
      match s.legs[l].pc
      case Scan(_, _, _) => ScanQuiet(cfg, s, l); QuietChange(s, ScanNext(cfg, s, l));
      case LockedCluster => LockedClusterLeaves(cfg, s, l); Unchanged(s, LockedClusterNext(cfg, s, l));
      case LockedOwn => OwnLeaves(s, l); Unchanged(s, LockedOwnNext(s, l));
      case Create => CreateChange(s, l, false);
      case Reread => HeldReread(cfg, s, l); GotoLeaves(s, l, RemoveBlank); Unchanged(s, RereadNext(s, l));
      case RemoveBlank => RemoveChange(s, l);
      case Recreate => CreateChange(s, l, true);
      case Settled(_) => ReleaseLeaves(s, l); Unchanged(s, ReleaseNext(s, l));
      case _ =>
    }
  }

  // ----- scans under way

  lemma CreatedGrows(events: seq<Event>, e: Event, n: nat, vmid: string)
    requires n <= |events|
    ensures CreatedSince(events + [e], n, vmid) <==> CreatedSince(events, n, vmid) || (e.Created? && e.vmid == vmid)
  {
    if CreatedSince(events, n, vmid) {
      var k :| n <= k < |events| && events[k].Created? && events[k].vmid == vmid;
      assert (events + [e])[k] == events[k];
    }
    assert (events + [e])[|events|] == e;
  }

  /** What may have happened to the pin files when an event was logged: files
      were taken away, or the one created. */
  ghost predicate PinsStep(pins: map<string, string>, pins': map<string, string>, e: Event) {
    forall b :: b in pins' ==> (b in pins && pins'[b] == pins[b]) || (e.Created? && e.vmid == b)
  }

  lemma OldFewer(pins: map<string, string>, pins': map<string, string>, events: seq<Event>, e: Event, entered: nat)
    requires PinsStep(pins, pins', e) && entered <= |events|
    ensures Fewer(OldPins(pins', events + [e], entered), OldPins(pins, events, entered))
  {
    hide CreatedSince;
    forall b
      ensures CreatedSince(events + [e], entered, b) <==>
              CreatedSince(events, entered, b) || (e.Created? && e.vmid == b)
    {
      CreatedGrows(events, e, entered, b);
    }
  }

  lemma OldLess(pins: map<string, string>, pins': map<string, string>, events: seq<Event>, entered: nat)
    requires Fewer(pins', pins)
    ensures Fewer(OldPins(pins', events, entered), OldPins(pins, events, entered))
  {
    hide CreatedSince;
  }

  /** What may have happened to the cluster pins. */
  ghost predicate ClusterChange(clusterPins: map<string, string>, clusterPins': map<string, string>, e: Event) {
    && (forall v :: e == ClusterTouched(v) || (v in clusterPins <==> v in clusterPins'))
    && (forall v :: e != ClusterTouched(v) && v in clusterPins ==> clusterPins'[v] == clusterPins[v])
  }

  lemma ClusterGrows(clusterPins: map<string, string>, clusterPins': map<string, string>, events: seq<Event>, e: Event,
                     entered: nat, vmid: string, fp: string, pending: seq<string>, stale: set<string>)
    requires ClusterCovered(clusterPins, events, entered, vmid, fp, pending, stale) && entered <= |events|
    requires ClusterChange(clusterPins, clusterPins', e)
    ensures ClusterCovered(clusterPins', events + [e], entered, vmid, fp, pending, stale)
  {
    hide TouchedSince, ParseClusterPin, IsVMIDName;
    forall b
      ensures TouchedSince(events + [e], entered, b) <==> TouchedSince(events, entered, b) || e == ClusterTouched(b)
    {
      TouchedGrows(events, e, entered, b);
    }
  }

  /** What is left to deal with shrinks only by names that do not matter. */
  lemma ClusterStep(clusterPins: map<string, string>, events: seq<Event>, entered: nat, vmid: string, fp: string,
                    pending: seq<string>, stale: set<string>, pending': seq<string>, stale': set<string>)
    requires ClusterCovered(clusterPins, events, entered, vmid, fp, pending, stale) && stale <= stale'
    requires forall b :: b in pending && b in clusterPins && ParseClusterPin(clusterPins[b]) == Some(fp) ==>
               b in pending' || b in stale'
    ensures ClusterCovered(clusterPins, events, entered, vmid, fp, pending', stale')
  {
    hide TouchedSince, ParseClusterPin, IsVMIDName;
  }

  /** Others act, and log something. */
  lemma PhaseGrows(cfg: Config, l: nat, me: Self, section: bool, phase: Phase, pins: map<string, string>,
                   pins': map<string, string>, clusterPins: map<string, string>, clusterPins': map<string, string>,
                   events: seq<Event>, e: Event)
    requires PhaseOk(cfg, l, me, section, phase, pins, clusterPins, events) && me.entered <= |events|
    requires PinsStep(pins, pins', e) && ClusterChange(clusterPins, clusterPins', e)
    ensures PhaseOk(cfg, l, me, section, phase, pins', clusterPins', events + [e])
  {
    hide StaleLogged, Covered, ClusterCovered, OldPins, PinsStep, ClusterChange, Pending, Candidates, BeforeClusters;
    if !phase.ListPins? {
      StaleGrows(l, me.entered, me.stale, events, e);
      OldFewer(pins, pins', events, e, me.entered);
      if cfg.pinDir && !section {
        CoveredFewer(OldPins(pins, events, me.entered), OldPins(pins', events + [e], me.entered), me.vmid, me.fp,
                     Pending(phase), me.stale);
      }
      if cfg.clusterDir && !BeforeClusters(phase) {
        ClusterGrows(clusterPins, clusterPins', events, e, me.entered, me.vmid, me.fp, Candidates(phase), me.stale);
      }
    }
  }

  lemma TracksGrows(cfg: Config, l: nat, leg: Leg, pins: map<string, string>, pins': map<string, string>,
                    clusterPins: map<string, string>, clusterPins': map<string, string>, events: seq<Event>, e: Event)
    requires Tracks(cfg, l, leg, pins, clusterPins, events)
    requires PinsStep(pins, pins', e) && ClusterChange(clusterPins, clusterPins', e)
    ensures Tracks(cfg, l, leg, pins', clusterPins', events + [e])
  {
    hide PhaseOk, PinsStep, ClusterChange;
    if leg.pc.Scan? {
      PhaseGrows(cfg, l, leg.Me(), leg.pc.section, leg.pc.phase, pins, pins', clusterPins, clusterPins', events, e);
    }
  }

  /** Or they take a pin file away without a word. */
  lemma TracksFewer(cfg: Config, l: nat, leg: Leg, pins: map<string, string>, pins': map<string, string>,
                    clusterPins: map<string, string>, events: seq<Event>)
    requires Tracks(cfg, l, leg, pins, clusterPins, events) && Fewer(pins', pins)
    ensures Tracks(cfg, l, leg, pins', clusterPins, events)
  {
    hide StaleLogged, Covered, ClusterCovered, OldPins, Fewer, Pending, Candidates, BeforeClusters;
    if leg.pc.Scan? && !leg.pc.phase.ListPins? && cfg.pinDir && !leg.pc.section {
      OldLess(pins, pins', events, leg.entered);
      CoveredFewer(OldPins(pins, events, leg.entered), OldPins(pins', events, leg.entered), leg.vmid, leg.fp,
                   Pending(leg.pc.phase), leg.stale);
    }
  }

  /** Every leg is as before, or is looked after. */
  ghost predicate ElseTracks(cfg: Config, s: World, s': World) {
    forall m :: m in s'.legs ==>
      (m in s.legs && s'.legs[m] == s.legs[m]) || Tracks(cfg, m, s'.legs[m], s'.pins, s'.clusterPins, s'.events)
  }

  lemma ScansMore(cfg: Config, s: World, s': World, e: Event)
    requires ScansInv(cfg, s) && ElseTracks(cfg, s, s') && s'.events == s.events + [e]
    requires PinsStep(s.pins, s'.pins, e) && ClusterChange(s.clusterPins, s'.clusterPins, e)
    ensures ScansInv(cfg, s')
  {
    hide Tracks, PinsStep, ClusterChange;
    forall m | m in s'.legs ensures Tracks(cfg, m, s'.legs[m], s'.pins, s'.clusterPins, s'.events) {
      if m in s.legs && s'.legs[m] == s.legs[m] {
        TracksGrows(cfg, m, s.legs[m], s.pins, s'.pins, s.clusterPins, s'.clusterPins, s.events, e);
      }
    }
  }

  lemma ScansSame(cfg: Config, s: World, s': World)
    requires ScansInv(cfg, s) && ElseTracks(cfg, s, s') && s'.events == s.events && s'.clusterPins == s.clusterPins
             && Fewer(s'.pins, s.pins)
    ensures ScansInv(cfg, s')
  {
    hide Tracks, Fewer;
    forall m | m in s'.legs ensures Tracks(cfg, m, s'.legs[m], s'.pins, s'.clusterPins, s'.events) {
      if m in s.legs && s'.legs[m] == s.legs[m] {
        TracksFewer(cfg, m, s.legs[m], s.pins, s'.pins, s.clusterPins, s.events);
      }
    }
  }

  /** Nothing to look after: no scan, or one that has not listed anything. */
  lemma NotTracked(cfg: Config, l: nat, leg: Leg, pins: map<string, string>, clusterPins: map<string, string>,
                   events: seq<Event>)
    requires leg.pc.Scan? ==> leg.pc.phase.ListPins? && leg.entered <= |events|
    ensures Tracks(cfg, l, leg, pins, clusterPins, events)
  {
  }

  /** One leg changed, or left. */
  lemma ScansFrame(cfg: Config, s: World, s': World, l: nat)
    requires ScansInv(cfg, s) && LegFrame(s, s', l) && s'.events == s.events && s'.pins == s.pins
    requires Tracks(cfg, l, s'.legs[l], s.pins, s.clusterPins, s.events)
    ensures ScansInv(cfg, s')
  {
    hide Tracks, InSection;
    assert ElseTracks(cfg, s, s');
    ScansSame(cfg, s, s');
  }

  ghost predicate TracksHere(cfg: Config, s: World, l: nat) {
    l in s.legs && Tracks(cfg, l, s.legs[l], s.pins, s.clusterPins, s.events)
  }

  /** One action of a scan that ignores no one. */
  lemma PhaseOn(cfg: Config, l: nat, me: Self, section: bool, phase: Phase, next: Phase,
                pins: map<string, string>, clusterPins: map<string, string>, events: seq<Event>)
    requires PhaseOk(cfg, l, me, section, phase, pins, clusterPins, events) && !phase.ListPins? && me.fp != ""
    requires forall b :: b in Pending(phase) && Content(pins, b) == me.fp ==> b in Pending(next)
    requires BeforeClusters(phase) ==> BeforeClusters(next) || !cfg.clusterDir
    requires cfg.clusterDir ==>
               forall b :: b in Candidates(phase) && b in clusterPins &&
                           ParseClusterPin(clusterPins[b]) == Some(me.fp) ==>
                 b in Candidates(next)
    ensures PhaseOk(cfg, l, me, section, next, pins, clusterPins, events)
  {
    hide StaleLogged, Covered, ClusterCovered, CreatedSince, ParseClusterPin, Pending, Candidates, BeforeClusters;
    if cfg.pinDir && !section {
      CoveredStep(OldPins(pins, events, me.entered), me.vmid, me.fp, Pending(phase), me.stale, Pending(next), me.stale);
    }
    if cfg.clusterDir && !BeforeClusters(next) {
      ClusterStep(clusterPins, events, me.entered, me.vmid, me.fp, Candidates(phase), me.stale, Candidates(next),
                  me.stale);
    }
  }

  lemma GotoTracks(cfg: Config, s: World, l: nat, next: Phase)
    requires l in s.legs && s.legs[l].pc.Scan? && !s.legs[l].pc.phase.ListPins? && s.legs[l].fp != ""
    requires Tracks(cfg, l, s.legs[l], s.pins, s.clusterPins, s.events)
    requires var phase := s.legs[l].pc.phase;
             && (forall b :: b in Pending(phase) && Content(s.pins, b) == s.legs[l].fp ==> b in Pending(next))
             && (BeforeClusters(phase) ==> BeforeClusters(next) || !cfg.clusterDir)
             && (cfg.clusterDir ==>
                   forall b :: b in Candidates(phase) && b in s.clusterPins &&
                               ParseClusterPin(s.clusterPins[b]) == Some(s.legs[l].fp) ==>
                     b in Candidates(next))
    ensures TracksHere(cfg, Goto(s, l, s.legs[l].pc.(phase := next)), l)
  {
    hide PhaseOk, Pending, Candidates, BeforeClusters, ParseClusterPin, Content;
    var leg := s.legs[l];
    PhaseOn(cfg, l, leg.Me(), leg.pc.section, leg.pc.phase, next, s.pins, s.clusterPins, s.events);
  }

  lemma OverTracks(cfg: Config, s: World, l: nat)
    requires l in s.legs
    ensures TracksHere(cfg, Goto(s, l, Over), l)
  {
    hide PhaseOk;
  }

  lemma EndsTracks(cfg: Config, s: World, l: nat)
    requires l in s.legs && s.legs[l].pc.Scan?
    ensures TracksHere(cfg, ScanEnds(cfg, s, l), l)
  {
    hide PhaseOk;
  }

  lemma SuspectTracks(cfg: Config, s: World, l: nat, name: string, back: Back)
    requires l in s.legs && s.legs[l].pc.Scan? && s.legs[l].fp != ""
    requires Tracks(cfg, l, s.legs[l], s.pins, s.clusterPins, s.events)
    requires s.legs[l].pc.phase == (if back.ToPins? then Pins([name] + back.todo) else Suspects([name] + back.todo))
    ensures TracksHere(cfg, Goto(s, l, Suspect(cfg, s, s.legs[l].pc, name, back)), l)
  {
    hide Goto, Places, Tracks, TracksHere, Content, ParseClusterPin;
    OverTracks(cfg, s, l);
    if cfg.guestRoot {
      GotoTracks(cfg, s, l, Look(name, false, Places(cfg.nodes), |s.events|, name !in s.guests, back));
    }
  }

  lemma PhaseIgnored(cfg: Config, l: nat, me: Self, section: bool, phase: Phase,
                     pins: map<string, string>, clusterPins: map<string, string>, events: seq<Event>)
    requires PhaseOk(cfg, l, me, section, phase, pins, clusterPins, events) && phase.Look? && me.entered <= |events|
    ensures PhaseOk(cfg, l, me.(stale := me.stale + {phase.name}), section, Resume(phase.back), pins, clusterPins,
                    events + [Ignored(l, phase.name, phase.since, phase.absent)])
  {
    hide IgnoredSince, Covered, ClusterCovered, OldPins;
    var e := Ignored(l, phase.name, phase.since, phase.absent);
    var stale, next := me.stale + {phase.name}, Resume(phase.back);
    PhaseGrows(cfg, l, me, section, phase, pins, pins, clusterPins, clusterPins, events, e);
    IgnoredNow(l, me.entered, events, e);
    if cfg.pinDir && !section {
      CoveredStep(OldPins(pins, events + [e], me.entered), me.vmid, me.fp, Pending(phase), me.stale, Pending(next),
                  stale);
    }
    if cfg.clusterDir && !BeforeClusters(phase) {
      ClusterStep(clusterPins, events + [e], me.entered, me.vmid, me.fp, Candidates(phase), me.stale, Candidates(next),
                  stale);
    }
  }

  lemma IgnoredTracks(cfg: Config, s: World, l: nat)
    requires l in s.legs && s.legs[l].pc.Scan? && s.legs[l].pc.phase.Look?
    requires Tracks(cfg, l, s.legs[l], s.pins, s.clusterPins, s.events)
    ensures var leg, phase := s.legs[l], s.legs[l].pc.phase;
            TracksHere(cfg, Log(s.(legs :=
                                   s.legs[l := leg.(pc := leg.pc.(phase := Resume(phase.back)),
                                                    stale := leg.stale + {phase.name})]),
                                Ignored(l, phase.name, phase.since, phase.absent)), l)
  {
    hide PhaseOk, Resume;
    var leg := s.legs[l];
    PhaseIgnored(cfg, l, leg.Me(), leg.pc.section, leg.pc.phase, s.pins, s.clusterPins, s.events);
  }

  lemma ReadsTracks(cfg: Config, s: World, l: nat)
    requires l in s.legs && s.legs[l].pc.Scan? && s.legs[l].pc.phase.ClusterPins? && s.legs[l].fp != ""
    requires Tracks(cfg, l, s.legs[l], s.pins, s.clusterPins, s.events)
    ensures TracksHere(cfg, ScanNext(cfg, s, l), l)
  {
    hide Goto, Tracks, TracksHere, Content, ParseClusterPin;
    var leg, phase := s.legs[l], s.legs[l].pc.phase;
    if phase.todo == [] {
      GotoTracks(cfg, s, l, Suspects(phase.found));
    } else {
      GotoTracks(cfg, s, l, ClusterPins(phase.todo[1..], if ClusterPin(cfg, s, phase.todo[0]) == leg.fp
                                        then phase.found + [phase.todo[0]] else phase.found));
    }
  }

  lemma ScanTracks(cfg: Config, s: World, l: nat)
    requires CanAdvance(s, l) && s.legs[l].pc.Scan? && s.legs[l].fp != ""
    requires Tracks(cfg, l, s.legs[l], s.pins, s.clusterPins, s.events)
    ensures TracksHere(cfg, ScanNext(cfg, s, l), l)
  {
    hide Goto, Log, Tracks, TracksHere, Suspect, ScanEnds, Places, InventoryHas, ClusterPin, Content, ParseClusterPin;
    var leg := s.legs[l];
    var phase := leg.pc.phase;
    OverTracks(cfg, s, l);
    match phase
    case Pins(todo) =>
      if todo == [] {
        GotoTracks(cfg, s, l, AfterPins(cfg));
      } else if Content(s.pins, todo[0]) == leg.fp {
        assert [todo[0]] + todo[1..] == todo;
        SuspectTracks(cfg, s, l, todo[0], ToPins(todo[1..]));
      } else {
        GotoTracks(cfg, s, l, Pins(todo[1..]));
      }
    case ClusterPins(_, _) =>
      ReadsTracks(cfg, s, l);
    case Suspects(todo) =>
      if todo == [] {
        GotoTracks(cfg, s, l, InventoryPins);
      } else {
        assert [todo[0]] + todo[1..] == todo;
        SuspectTracks(cfg, s, l, todo[0], ToSuspects(todo[1..]));
      }
    case Look(name, again, places, since, absent, back) =>
      if places != [] {
        GotoTracks(cfg, s, l, phase.(places := places[1..]));
      } else if !again {
        GotoTracks(cfg, s, l, phase.(again := true, places := Places(cfg.nodes)));
      } else {
        IgnoredTracks(cfg, s, l);
      }
    case InventoryPins =>
      EndsTracks(cfg, s, l);
    case _ =>
  }

  lemma VetTracks(cfg: Config, s: World, l: nat, e: Event)
    requires l in s.legs && e.Checked?
    ensures TracksHere(cfg, Vet(cfg, s, l, e), l)
  {
    hide Goto, OwnAgrees, CreatedSince, TouchedSince;
    OverTracks(cfg, s, l);
  }

  /** An action outside a scan. */
  lemma OtherTracks(cfg: Config, s: World, l: nat)
    requires CanAdvance(s, l) && Inv(cfg, s) && !s.legs[l].pc.Scan?
    ensures TracksHere(cfg, Advance(cfg, s, l), l)
  {
    hide Inv, Advance, Tracks, Held, HeldAfter, NotLooking, LookHere, InSection, LockInv, LegFrame;
    var s' := Advance(cfg, s, l);
    if Vets(s.legs[l].pc) {
      AdvanceVets(cfg, s, l);
      VetTracks(cfg, s, l, if s.legs[l].pc.PreOwn? then CheckOf(cfg, s, l, s.legs[l].pc.cpin)
                else CheckOf(cfg, s, l, ""));
    } else {
      OtherLook(cfg, s, l);
      OtherScan(s', l);
      if s'.legs[l].pc.Scan? {
        OwnBegins(cfg, s, l);
      }
      NotTracked(cfg, l, s'.legs[l], s'.pins, s'.clusterPins, s'.events);
    }
  }

  lemma OtherScan(s: World, l: nat)
    requires NotLooking(s, l)
    ensures l in s.legs && (s.legs[l].pc.Scan? ==> s.legs[l].pc.section && s.legs[l].pc.phase.ListPins?)
  {
  }

  lemma AdvanceVets(cfg: Config, s: World, l: nat)
    requires CanAdvance(s, l)
    ensures s.legs[l].pc.PreOwn? ==> Advance(cfg, s, l) == Vet(cfg, s, l, CheckOf(cfg, s, l, s.legs[l].pc.cpin))
    ensures s.legs[l].pc.PreInventory? ==> Advance(cfg, s, l) == Vet(cfg, s, l, CheckOf(cfg, s, l, ""))
  {
  }

  /** The scan of a critical section begins in it. */
  lemma OwnBegins(cfg: Config, s: World, l: nat)
    requires CanAdvance(s, l) && Inv(cfg, s) && !s.legs[l].pc.Scan? && !Vets(s.legs[l].pc)
    requires l in Advance(cfg, s, l).legs && Advance(cfg, s, l).legs[l].pc.Scan?
             && Advance(cfg, s, l).legs[l].pc.section
    ensures Advance(cfg, s, l).legs[l].entered <= |Advance(cfg, s, l).events|
  {
    hide Inv, Advance, Held, LockInv, LegFrame, Tracks;
    LegFacts(cfg, s, l);
    InvParts(cfg, s);
    AdvanceHeld(cfg, s, l);
    AdvanceFrame(cfg, s, l);
    LockKept(s, Advance(cfg, s, l), l);
    LockOf(Advance(cfg, s, l), l);
    HeldEntered(cfg, l, Advance(cfg, s, l).legs[l], Advance(cfg, s, l).pins, Advance(cfg, s, l).clusterPins,
                Advance(cfg, s, l).events);
  }

  lemma AdvanceTracks(cfg: Config, s: World, l: nat)
    requires CanAdvance(s, l) && Inv(cfg, s)
    ensures ScansInv(cfg, Advance(cfg, s, l))
  {
    hide Inv, Advance, Tracks, LockInv, ScanNext, Held, LegFrame, PinChange;
    var s' := Advance(cfg, s, l);
    InvParts(cfg, s);
    LegFacts(cfg, s, l);
    AdvanceFrame(cfg, s, l);
    FrameParts(s, s', l);
    AdvanceGrows(cfg, s, l);
    AdvanceChange(cfg, s, l);
    if s.legs[l].pc.Scan? {
      AdvanceScans(cfg, s, l);
      ScanTracks(cfg, s, l);
    } else {
      OtherTracks(cfg, s, l);
    }
    assert ElseTracks(cfg, s, s');
    if s'.events == s.events {
      ChangeSilent(s, s');
      ScansSame(cfg, s, s');
    } else {
      var e: Event :| s'.events == s.events + [e];
      ChangeLogged(s, s', e);
      SameClusters(s.clusterPins, e);
      ScansMore(cfg, s, s', e);
    }
  }

  lemma SameClusters(clusterPins: map<string, string>, e: Event)
    ensures ClusterChange(clusterPins, clusterPins, e)
  {
  }

  lemma ChangeSilent(s: World, s': World)
    requires PinChange(s, s') && s'.events == s.events
    ensures Fewer(s'.pins, s.pins)
  {
  }

  lemma ChangeLogged(s: World, s': World, e: Event)
    requires PinChange(s, s') && s'.events == s.events + [e]
    ensures PinsStep(s.pins, s'.pins, e)
  {
    forall d: Event | Links(s, s', d) ensures d == e {
      assert (s.events + [d])[|s.events|] == (s.events + [e])[|s.events|];
    }
  }
}
