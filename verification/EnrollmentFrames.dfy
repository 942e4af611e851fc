/** What one action of a leg leaves alone. */
module EnrollmentFrames {
  import opened Options
  import opened Enrollment
  import opened EnrollmentSection

  // ----- what an action of a leg leaves alone

  /** The lock goes to a leg that enters its section and comes back from one
      that leaves it. */
  ghost predicate LockMoves(lock: Option<nat>, l: nat, pc: Pc, lock': Option<nat>) {
    if InSection(pc) then lock' == Some(l) && (lock.None? || lock == Some(l))
    else lock' == if lock == Some(l) then None else lock
  }

  ghost predicate LegFrame(s: World, s': World, l: nat) {
    && l in s.legs && l in s'.legs && s'.legs == s.legs[l := s'.legs[l]]
    && s'.legs[l].vmid == s.legs[l].vmid && s'.legs[l].fp == s.legs[l].fp && s'.legs[l].sid == s.legs[l].sid
    && s'.legs[l].inv == s.legs[l].inv
    && s'.guests == s.guests && s'.clusterPins == s.clusterPins && s'.inventory == s.inventory
    && LockMoves(s.lock, l, s'.legs[l].pc, s'.lock)
  }

  lemma LockOf(s: World, l: nat)
    requires l in s.legs && LockInv(s.legs, s.lock)
    ensures s.lock == Some(l) <==> InSection(s.legs[l].pc)
  {
  }

  lemma GotoFrame(s: World, l: nat, pc: Pc)
    requires l in s.legs && LockInv(s.legs, s.lock)
    requires pc.Over? || InSection(pc) == InSection(s.legs[l].pc)
    ensures LegFrame(s, Goto(s, l, pc), l)
  {
    hide LockInv;
    LockOf(s, l);
  }

  lemma LoggedLater(s: World, s1: World, l: nat, e: Event)
    requires LegFrame(s, s1, l)
    ensures LegFrame(s, Log(s1, e), l)
  {
    hide InSection;
  }

  lemma EndsFrame(cfg: Config, s: World, l: nat)
    requires l in s.legs && s.legs[l].pc.Scan? && LockInv(s.legs, s.lock)
    ensures LegFrame(s, ScanEnds(cfg, s, l), l)
  {
    hide Goto, LegFrame, LockInv;
    var leg := s.legs[l];
    GotoFrame(s, l, ScanDone(leg, leg.pc));
    LoggedLater(s, Goto(s, l, ScanDone(leg, leg.pc)), l, ClearOf(cfg, s, l));
  }

  lemma ScanFrame(cfg: Config, s: World, l: nat)
    requires CanAdvance(s, l) && s.legs[l].pc.Scan? && LockInv(s.legs, s.lock)
    ensures LegFrame(s, ScanNext(cfg, s, l), l)
  {
    hide Goto, LegFrame, InventoryHas, Places, ClusterPin, LockInv, Content, AfterPins, ScanEnds;
    var leg := s.legs[l];
    var phase := leg.pc.phase;
    GotoFrame(s, l, Over);
    match phase
    case Pins(todo) =>
      GotoFrame(s, l, leg.pc.(phase := AfterPins(cfg)));
      if todo != [] {
        GotoFrame(s, l, leg.pc.(phase := Pins(todo[1..])));
        SuspectFrame(cfg, s, l, todo[0], ToPins(todo[1..]));
      }
    case ClusterPins(todo, found) =>
      GotoFrame(s, l, leg.pc.(phase := Suspects(found)));
      if todo != [] {
        var more := if ClusterPin(cfg, s, todo[0]) == leg.fp then found + [todo[0]] else found;
        GotoFrame(s, l, leg.pc.(phase := ClusterPins(todo[1..], more)));
      }
    case Suspects(todo) =>
      GotoFrame(s, l, leg.pc.(phase := InventoryPins));
      if todo != [] {
        SuspectFrame(cfg, s, l, todo[0], ToSuspects(todo[1..]));
      }
    case Look(name, again, places, since, absent, back) =>
      GotoFrame(s, l, leg.pc.(phase := phase.(again := true, places := Places(cfg.nodes))));
      if places != [] {
        GotoFrame(s, l, leg.pc.(phase := phase.(places := places[1..])));
      } else if again {
        IgnoredFrame(s, l);
      }
    case InventoryPins =>
      EndsFrame(cfg, s, l);
    case _ =>
  }

  lemma SuspectFrame(cfg: Config, s: World, l: nat, name: string, back: Back)
    requires l in s.legs && s.legs[l].pc.Scan? && LockInv(s.legs, s.lock)
    ensures LegFrame(s, Goto(s, l, Suspect(cfg, s, s.legs[l].pc, name, back)), l)
  {
    hide Goto, LegFrame, Places, LockInv;
    GotoFrame(s, l, Suspect(cfg, s, s.legs[l].pc, name, back));
  }

  lemma IgnoredFrame(s: World, l: nat)
    requires l in s.legs && s.legs[l].pc.Scan? && s.legs[l].pc.phase.Look? && LockInv(s.legs, s.lock)
    ensures var leg, phase := s.legs[l], s.legs[l].pc.phase;
            LegFrame(s, Log(s.(legs :=
                               s.legs[l := leg.(pc := leg.pc.(phase := Resume(phase.back)),
                                                stale := leg.stale + {phase.name})]),
                            Ignored(l, phase.name, phase.since, phase.absent)), l)
  {
  }

  lemma TakeFrame(s: World, l: nat)
    requires l in s.legs && s.legs[l].pc.TakeSession? && LockInv(s.legs, s.lock)
    ensures LegFrame(s, TakeNext(s, l), l)
  {
    hide LockInv, InSection, Goto, LegFrame;
    NotInSection();
    GotoFrame(s, l, Over);
    LockOf(s, l);
    if s.legs[l].sid in s.sessions {
      TakenFrame(s, l);
    }
  }

  lemma TakenFrame(s: World, l: nat)
    requires l in s.legs && s.legs[l].sid in s.sessions && s.lock != Some(l)
    ensures LegFrame(s, TakeNext(s, l), l)
  {
    hide LockInv, InSection;
    NotInSection();
  }

  lemma NotInSection()
    ensures !InSection(Over) && !InSection(TakeSession) && !InSection(WaitLock) && !InSection(Issue(ByInventory))
  {
  }

  lemma AcquireFrame(s: World, l: nat)
    requires l in s.legs && s.lock.None?
    ensures LegFrame(s, AcquireNext(s, l), l)
  {
  }

  lemma LinkFrame(s: World, l: nat)
    requires l in s.legs && s.lock == Some(l)
    ensures LegFrame(s, LinkPin(s, l), l)
  {
  }

  lemma CreateFrame(s: World, l: nat, again: bool)
    requires l in s.legs && LockInv(s.legs, s.lock) && InSection(s.legs[l].pc)
    ensures LegFrame(s, CreateNext(s, l, again), l)
  {
    hide LegFrame, LinkPin, Goto, LockInv;
    LockOf(s, l);
    LinkFrame(s, l);
    GotoFrame(s, l, if again then Over else Reread);
  }

  /** The leg stays in its section and logs something. */
  lemma LoggedFrame(s: World, l: nat, leg: Leg, e: Event)
    requires l in s.legs && s.lock == Some(l) && InSection(leg.pc)
    requires leg.vmid == s.legs[l].vmid && leg.fp == s.legs[l].fp && leg.sid == s.legs[l].sid
    requires leg.inv == s.legs[l].inv
    ensures LegFrame(s, Log(s.(legs := s.legs[l := leg]), e), l)
  {
  }

  lemma LockedOwnFrame(s: World, l: nat)
    requires l in s.legs && LockInv(s.legs, s.lock) && InSection(s.legs[l].pc)
    ensures LegFrame(s, LockedOwnNext(s, l), l)
  {
    hide LockInv, Content, LegFrame, Goto, Log;
    LockOf(s, l);
    var leg := s.legs[l];
    GotoFrame(s, l, Scan(true, "", ListPins));
    GotoFrame(s, l, Over);
    LoggedFrame(s, l, leg.(pc := Scan(true, Content(s.pins, leg.vmid), ListPins), mark := |s.events|),
                Witness(l, leg.vmid, leg.fp));
  }

  lemma RereadFrame(s: World, l: nat)
    requires l in s.legs && LockInv(s.legs, s.lock) && InSection(s.legs[l].pc)
    ensures LegFrame(s, RereadNext(s, l), l)
  {
    hide LockInv, Content, LegFrame, Goto, Log;
    LockOf(s, l);
    var leg := s.legs[l];
    GotoFrame(s, l, RemoveBlank);
    GotoFrame(s, l, Over);
    LoggedFrame(s, l, leg.(pc := Settled(ByLocal(|s.events|)), mark := |s.events|), Witness(l, leg.vmid, leg.fp));
  }

  lemma RemoveFrame(s: World, l: nat)
    requires l in s.legs && LockInv(s.legs, s.lock) && InSection(s.legs[l].pc)
    ensures LegFrame(s, RemoveNext(s, l), l)
  {
    hide LockInv;
    LockOf(s, l);
  }

  lemma ReleaseFrame(s: World, l: nat)
    requires l in s.legs && LockInv(s.legs, s.lock) && s.legs[l].pc.Settled?
    ensures LegFrame(s, ReleaseNext(s, l), l)
  {
    hide LockInv;
    LockOf(s, l);
  }

  lemma IssueFrame(s: World, l: nat)
    requires l in s.legs && LockInv(s.legs, s.lock) && s.legs[l].pc.Issue?
    ensures LegFrame(s, IssueNext(s, l), l)
  {
    hide LockInv;
    LockOf(s, l);
  }

  lemma LockedClusterFrame(cfg: Config, s: World, l: nat)
    requires l in s.legs && LockInv(s.legs, s.lock) && InSection(s.legs[l].pc)
    ensures LegFrame(s, LockedClusterNext(cfg, s, l), l)
  {
    hide LegFrame, LockInv, ClusterPin, Goto;
    GotoFrame(s, l, Over);
    GotoFrame(s, l, Settled(ByCluster(|s.events|)));
    GotoFrame(s, l, Settled(NoStore));
    GotoFrame(s, l, LockedOwn);
  }

  lemma VetFrame(cfg: Config, s: World, l: nat, e: Event)
    requires l in s.legs && e.Checked? && LockInv(s.legs, s.lock) && !InSection(s.legs[l].pc)
    ensures LegFrame(s, Vet(cfg, s, l, e), l)
  {
    hide Goto, LegFrame, LockInv, OwnAgrees, BeginScan;
    GotoFrame(s, l, Over);
    BeginFrame(cfg, s, l);
    LoggedLater(s, BeginScan(cfg, s, l), l, e);
  }

  lemma BeginFrame(cfg: Config, s: World, l: nat)
    requires l in s.legs && LockInv(s.legs, s.lock) && !InSection(s.legs[l].pc)
    ensures LegFrame(s, BeginScan(cfg, s, l), l)
  {
    hide LockInv, FirstPhase;
    LockOf(s, l);
  }

  lemma AdvanceFrame(cfg: Config, s: World, l: nat)
    requires CanAdvance(s, l) && LockInv(s.legs, s.lock)
    ensures LegFrame(s, Advance(cfg, s, l), l)
  {
    hide LegFrame, ScanNext, TakeNext, LockInv, LockedClusterNext, LockedOwnNext, CreateNext, RereadNext, RemoveNext,
         ReleaseNext, IssueNext, AcquireNext, Goto, Vet, CheckOf, ClusterPin, Content, FirstPhase;
    match s.legs[l].pc
    case PreCluster => GotoFrame(s, l, PreOwn(ClusterPin(cfg, s, s.legs[l].vmid)));
    case PreInventory => VetFrame(cfg, s, l, CheckOf(cfg, s, l, ""));
    case PreOwn(cpin) => VetFrame(cfg, s, l, CheckOf(cfg, s, l, cpin));
    case Scan(_, _, _) => ScanFrame(cfg, s, l);
    case TakeSession => TakeFrame(s, l);
    case WaitLock => AcquireFrame(s, l);
    case LockedCluster => LockedClusterFrame(cfg, s, l);
    case LockedOwn => LockedOwnFrame(s, l);
    case Create => CreateFrame(s, l, false);
    case Reread => RereadFrame(s, l);
    case RemoveBlank => RemoveFrame(s, l);
    case Recreate => CreateFrame(s, l, true);
    case Settled(_) => ReleaseFrame(s, l);
    case Issue(_) => IssueFrame(s, l);
    case _ =>
  }

  predicate LogsOutside(e: Event) {
    e.Ignored? || e.Issued? || e.SessionPut? || e.Checked? || e.Cleared?
  }

  /** Outside the section a leg touches no pin file, and logs no pin. */
  ghost predicate Quiet(s: World, s': World) {
    s'.pins == s.pins && (s'.events == s.events || exists e: Event :: LogsOutside(e) && s'.events == s.events + [e])
  }

  lemma GotoQuiet(s: World, l: nat, pc: Pc)
    requires l in s.legs
    ensures Quiet(s, Goto(s, l, pc))
  {
  }

  lemma LogQuiet(s: World, s1: World, e: Event)
    requires s1.pins == s.pins && s1.events == s.events && LogsOutside(e)
    ensures Quiet(s, Log(s1, e))
  {
  }

  lemma EndsQuiet(cfg: Config, s: World, l: nat)
    requires l in s.legs && s.legs[l].pc.Scan?
    ensures Quiet(s, ScanEnds(cfg, s, l))
  {
    hide Quiet, Goto, Log, ScanDone;
    var next := ScanDone(s.legs[l], s.legs[l].pc);
    GotoQuiet(s, l, next);
    GotoLeaves(s, l, next);
    LogQuiet(s, Goto(s, l, next), ClearOf(cfg, s, l));
  }

  /** So does a scan, and no scan logs more than what it ignored. */
  lemma ScanQuiet(cfg: Config, s: World, l: nat)
    requires CanAdvance(s, l) && s.legs[l].pc.Scan?
    ensures Quiet(s, ScanNext(cfg, s, l))
  {
    hide Quiet, Goto, Log, InventoryHas, Places, ClusterPin, Content, Suspect, ScanDone, AfterPins, ScanEnds;
    EndsQuiet(cfg, s, l);
    forall pc: Pc ensures Quiet(s, Goto(s, l, pc)) {
      GotoQuiet(s, l, pc);
    }
    var leg, phase := s.legs[l], s.legs[l].pc.phase;
    if phase.Look? {
      LogQuiet(s, s.(legs := s.legs[l :=
                                    leg.(pc := leg.pc.(phase := Resume(phase.back)),
                                         stale := leg.stale + {phase.name})]),
               Ignored(l, phase.name, phase.since, phase.absent));
    }
  }

  lemma OutsideFrame(cfg: Config, s: World, l: nat)
    requires CanAdvance(s, l) && !InSection(s.legs[l].pc)
    ensures Quiet(s, Advance(cfg, s, l))
  {
    hide Quiet, ScanNext, Goto, Vet, CheckOf, ClusterPin, Content, TakeNext, AcquireNext, IssueNext;
    match s.legs[l].pc
    case PreCluster => GotoQuiet(s, l, PreOwn(ClusterPin(cfg, s, s.legs[l].vmid)));
    case PreInventory => VetQuiet(cfg, s, l, CheckOf(cfg, s, l, ""));
    case PreOwn(cpin) => VetQuiet(cfg, s, l, CheckOf(cfg, s, l, cpin));
    case Scan(_, _, _) => ScanQuiet(cfg, s, l);
    case TakeSession => TakeQuiet(s, l);
    case WaitLock => AcquireQuiet(s, l);
    case Issue(_) => IssueQuiet(s, l);
    case _ =>
  }

  lemma VetQuiet(cfg: Config, s: World, l: nat, e: Event)
    requires l in s.legs && e.Checked?
    ensures Quiet(s, Vet(cfg, s, l, e))
  {
    hide Quiet, Log, Goto, OwnAgrees, BeginScan;
    GotoQuiet(s, l, Over);
    BeginLeaves(cfg, s, l);
    LogQuiet(s, BeginScan(cfg, s, l), e);
  }

  lemma BeginLeaves(cfg: Config, s: World, l: nat)
    requires l in s.legs
    ensures BeginScan(cfg, s, l).pins == s.pins && BeginScan(cfg, s, l).events == s.events
    ensures l in BeginScan(cfg, s, l).legs && BeginScan(cfg, s, l).legs[l].pc == Scan(false, "", FirstPhase(cfg))
  {
  }

  lemma TakeQuiet(s: World, l: nat)
    requires l in s.legs
    ensures Quiet(s, TakeNext(s, l))
  {
  }

  lemma AcquireQuiet(s: World, l: nat)
    requires l in s.legs
    ensures Quiet(s, AcquireNext(s, l))
  {
  }

  lemma IssueQuiet(s: World, l: nat)
    requires l in s.legs && s.legs[l].pc.Issue?
    ensures Quiet(s, IssueNext(s, l))
  {
    hide Quiet, Log, Goto;
    var leg := s.legs[l];
    GotoQuiet(s, l, Over);
    GotoLeaves(s, l, Over);
    LogQuiet(s, Goto(s, l, Over), Issued(l, leg.sid, leg.bound.vmid, leg.vmid, leg.fp, leg.pc.reason));
  }

  lemma GotoLeaves(s: World, l: nat, pc: Pc)
    requires l in s.legs
    ensures Goto(s, l, pc).pins == s.pins && Goto(s, l, pc).events == s.events && Goto(s, l, pc).sessions == s.sessions
  {
  }

  lemma LockKept(s: World, s': World, l: nat)
    requires LockInv(s.legs, s.lock) && LegFrame(s, s', l)
    ensures LockInv(s'.legs, s'.lock)
  {
    hide InSection;
  }

  lemma LegsKept(s: World, s': World, l: nat)
    requires LegsInv(s.legs) && LegFrame(s, s', l)
    ensures LegsInv(s'.legs)
  {
    hide IsVMIDName, IsFingerprint;
  }
}
