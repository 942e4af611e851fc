/** What the check of a request's own pins was about. */
module EnrollmentChecks {
  import opened Options
  import opened Enrollment
  import opened EnrollmentSection
  import opened EnrollmentFrames
  import opened EnrollmentActions
  import opened EnrollmentSteps
  import opened EnrollmentRuns

  // ----- how a leg gets to its check

  /** The leg has not passed the check yet. */
  predicate Early(pc: Pc) {
    pc.PreInventory? || pc.PreCluster? || pc.PreOwn?
  }

  /** The leg is past its check, or over. */
  predicate Passed(s: World, l: nat) {
    l in s.legs && !Early(s.legs[l].pc)
  }

  lemma GotoPasses(s: World, l: nat, pc: Pc)
    requires l in s.legs && !Early(pc)
    ensures Passed(Goto(s, l, pc), l)
  {
  }

  lemma LogPasses(s: World, l: nat, e: Event)
    requires Passed(s, l)
    ensures Passed(Log(s, e), l)
  {
  }

  lemma VetPasses(cfg: Config, s: World, l: nat, e: Event)
    requires l in s.legs && e.Checked?
    ensures Passed(Vet(cfg, s, l, e), l)
  {
    hide Goto, Log, OwnAgrees, BeginScan, Passed;
    GotoPasses(s, l, Over);
    BeginPasses(cfg, s, l);
    LogPasses(BeginScan(cfg, s, l), l, e);
  }

  lemma BeginPasses(cfg: Config, s: World, l: nat)
    requires l in s.legs
    ensures Passed(BeginScan(cfg, s, l), l)
  {
    hide FirstPhase;
  }

  lemma ScanPasses(cfg: Config, s: World, l: nat)
    requires CanAdvance(s, l) && s.legs[l].pc.Scan?
    ensures Passed(ScanNext(cfg, s, l), l)
  {
    hide Goto, Log, InventoryHas, Places, ClusterPin, Content, AfterPins, Passed, ClearOf;
    forall pc: Pc | !Early(pc) ensures Passed(Goto(s, l, pc), l) {
      GotoPasses(s, l, pc);
    }
    var leg, phase := s.legs[l], s.legs[l].pc.phase;
    if phase.Look? {
      IgnorePasses(s, l);
    } else if phase.InventoryPins? {
      LogPasses(Goto(s, l, ScanDone(leg, leg.pc)), l, ClearOf(cfg, s, l));
    }
  }

  lemma IgnorePasses(s: World, l: nat)
    requires l in s.legs && s.legs[l].pc.Scan? && s.legs[l].pc.phase.Look?
    ensures var leg, phase := s.legs[l], s.legs[l].pc.phase;
            Passed(Log(s.(legs := s.legs[l :=
                                         leg.(pc := leg.pc.(phase := Resume(phase.back)),
                                              stale := leg.stale + {phase.name})]),
                       Ignored(l, phase.name, phase.since, phase.absent)), l)
  {
  }

  lemma TakePasses(s: World, l: nat)
    requires l in s.legs
    ensures Passed(TakeNext(s, l), l)
  {
    hide Goto;
    var leg := s.legs[l];
    GotoPasses(s, l, Over);
    if leg.sid in s.sessions {
      GotoPasses(s.(sessions := s.sessions - {leg.sid}), l, Over);
    }
  }

  lemma AcquirePasses(s: World, l: nat)
    requires l in s.legs
    ensures Passed(AcquireNext(s, l), l)
  {
  }

  lemma LockedClusterPasses(cfg: Config, s: World, l: nat)
    requires l in s.legs
    ensures Passed(LockedClusterNext(cfg, s, l), l)
  {
    hide Goto, Passed, ClusterPin;
    forall pc: Pc | !Early(pc) ensures Passed(Goto(s, l, pc), l) {
      GotoPasses(s, l, pc);
    }
  }

  /** The leg goes on, and something is logged. */
  lemma LoggedPasses(s: World, l: nat, leg: Leg, e: Event)
    requires !Early(leg.pc)
    ensures Passed(Log(s.(legs := s.legs[l := leg]), e), l)
  {
  }

  lemma LockedOwnPasses(s: World, l: nat)
    requires l in s.legs
    ensures Passed(LockedOwnNext(s, l), l)
  {
    hide Goto, Passed, Content, Log;
    var leg := s.legs[l];
    GotoPasses(s, l, Over);
    GotoPasses(s, l, Scan(true, "", ListPins));
    LoggedPasses(s, l, leg.(pc := Scan(true, Content(s.pins, leg.vmid), ListPins), mark := |s.events|),
                 Witness(l, leg.vmid, leg.fp));
  }

  lemma RereadPasses(s: World, l: nat)
    requires l in s.legs
    ensures Passed(RereadNext(s, l), l)
  {
    hide Goto, Passed, Content, Log;
    var leg := s.legs[l];
    GotoPasses(s, l, Over);
    GotoPasses(s, l, RemoveBlank);
    LoggedPasses(s, l, leg.(pc := Settled(ByLocal(|s.events|)), mark := |s.events|), Witness(l, leg.vmid, leg.fp));
  }

  lemma CreatePasses(s: World, l: nat, again: bool)
    requires l in s.legs
    ensures Passed(CreateNext(s, l, again), l)
  {
    hide Goto, LinkPin, Passed;
    GotoPasses(s, l, if again then Over else Reread);
    LinkPasses(s, l);
  }

  lemma LinkPasses(s: World, l: nat)
    requires l in s.legs
    ensures Passed(LinkPin(s, l), l)
  {
  }

  lemma RemovePasses(s: World, l: nat)
    requires l in s.legs
    ensures Passed(RemoveNext(s, l), l)
  {
    hide Goto, Passed;
    GotoPasses(s.(pins := s.pins - {s.legs[l].vmid}), l, Recreate);
  }

  lemma LastPasses(s: World, l: nat)
    requires l in s.legs
    ensures s.legs[l].pc.Settled? ==> Passed(ReleaseNext(s, l), l)
    ensures s.legs[l].pc.Issue? ==> Passed(IssueNext(s, l), l)
  {
  }

  /** From the read of its cluster pin a leg comes to its check, from anywhere
      else past it. */
  lemma AdvancePasses(cfg: Config, s: World, l: nat)
    requires CanAdvance(s, l) && !s.legs[l].pc.PreCluster?
    ensures Passed(Advance(cfg, s, l), l)
  {
    hide Goto, Vet, CheckOf, ScanNext, TakeNext, AcquireNext, LockedClusterNext, LockedOwnNext, CreateNext, RereadNext,
         RemoveNext, ReleaseNext, IssueNext, ClusterPin, Passed;
    match s.legs[l].pc
    case PreInventory => VetPasses(cfg, s, l, CheckOf(cfg, s, l, ""));
    case PreOwn(cpin) => VetPasses(cfg, s, l, CheckOf(cfg, s, l, cpin));
    case Scan(_, _, _) => ScanPasses(cfg, s, l);
    case TakeSession => TakePasses(s, l);
    case WaitLock => AcquirePasses(s, l);
    case LockedCluster => LockedClusterPasses(cfg, s, l);
    case LockedOwn => LockedOwnPasses(s, l);
    case Create => CreatePasses(s, l, false);
    case Reread => RereadPasses(s, l);
    case RemoveBlank => RemovePasses(s, l);
    case Recreate => CreatePasses(s, l, true);
    case _ => LastPasses(s, l);
  }

  /** What one step makes of a leg before its check: the request stays what it
      was, and the pin it comes with is the cluster's pin of now. */
  ghost predicate Approaches(cfg: Config, s: World, leg: Leg, leg': Leg) {
    && leg'.vmid == leg.vmid && leg'.inv == leg.inv
    && (Early(leg'.pc) ==>
          leg'.pc == leg.pc || (leg.pc.PreCluster? && leg'.pc == PreOwn(ClusterPin(cfg, s, leg.vmid))))
  }

  ghost predicate Approach(cfg: Config, s: World, s': World) {
    forall l :: l in s.legs ==> l in s'.legs && Approaches(cfg, s, s.legs[l], s'.legs[l])
  }

  lemma PassedApproach(cfg: Config, s: World, s': World, l: nat)
    requires LegFrame(s, s', l) && Passed(s', l)
    ensures Approach(cfg, s, s')
  {
    hide ClusterPin, LockMoves;
  }

  lemma SameApproach(cfg: Config, s: World, s': World)
    requires forall l :: l in s.legs ==> l in s'.legs && s'.legs[l] == s.legs[l]
    ensures Approach(cfg, s, s')
  {
    hide ClusterPin;
  }

  lemma AdvanceApproach(cfg: Config, s: World, l: nat)
    requires CanAdvance(s, l) && LockInv(s.legs, s.lock)
    ensures Approach(cfg, s, Advance(cfg, s, l))
  {
    hide Advance, Goto, LegFrame, Passed, Approach, LockInv;
    if s.legs[l].pc.PreCluster? {
      ClusterApproach(cfg, s, l);
    } else {
      AdvanceFrame(cfg, s, l);
      AdvancePasses(cfg, s, l);
      PassedApproach(cfg, s, Advance(cfg, s, l), l);
    }
  }

  lemma ClusterApproach(cfg: Config, s: World, l: nat)
    requires CanAdvance(s, l) && s.legs[l].pc.PreCluster?
    ensures Approach(cfg, s, Advance(cfg, s, l))
  {
    hide ClusterPin;
  }

  lemma OverApproach(cfg: Config, s: World, l: nat)
    requires l in s.legs
    ensures Approach(cfg, s, Goto(s, l, Over))
  {
    hide ClusterPin;
  }

  lemma ListApproach(cfg: Config, s: World, l: nat, names: seq<string>)
    requires AtPhase(s, l, ListPins) || AtPhase(s, l, ListClusterPins)
    ensures Approach(cfg, s, ListNext(s, l, names))
  {
    hide ClusterPin;
  }

  lemma PutApproach(cfg: Config, s: World, l: nat, sid: string, nonce: nat)
    requires l in s.legs
    ensures Approach(cfg, s, PutNext(s, l, sid, nonce))
  {
    hide ClusterPin;
  }

  lemma StepApproach(cfg: Config, s: World, step: Step)
    requires Inv(cfg, s) && Enabled(cfg, s, step)
    ensures Approach(cfg, s, After(cfg, s, step))
  {
    hide Inv, Advance, Goto, PutNext, ListNext, CanAdvance, NewLeg, Places, FreshSession, IsListing, Approach, AtPhase;
    match step
    case Advances(l) => InvParts(cfg, s); AdvanceApproach(cfg, s, l);
    case Lists(l, names) => ListApproach(cfg, s, l, names);
    case Doubts(l) => OverApproach(cfg, s, l);
    case Fails(l) => OverApproach(cfg, s, l);
    case Puts(l, sid, nonce) => PutApproach(cfg, s, l, sid, nonce);
    case _ => SameApproach(cfg, s, After(cfg, s, step));
  }

  // ----- where the pins of a check come from

  /** Before its check: the pin a leg came with was the inventory's when the
      request arrived, in world a; without one, the cluster pin it has read was
      the cluster's afterwards, in world b. */
  ghost predicate Grounded(cfg: Config, worlds: seq<World>, i: nat, leg: Leg, a: nat, b: nat) {
    && a <= b < i < |worlds|
    && leg.inv == Content(worlds[a].inventory, leg.vmid)
    && (leg.pc.PreInventory? ==> leg.inv != "")
    && (leg.pc.PreOwn? ==> leg.pc.cpin == ClusterPin(cfg, worlds[b], leg.vmid))
  }

  lemma OverLegs(s: World, l: nat)
    requires l in s.legs
    ensures Goto(s, l, Over).legs.Keys == s.legs.Keys
  {
  }

  lemma ListLegs(s: World, l: nat, names: seq<string>)
    requires AtPhase(s, l, ListPins) || AtPhase(s, l, ListClusterPins)
    ensures ListNext(s, l, names).legs.Keys == s.legs.Keys
  {
  }

  lemma PutLegs(s: World, l: nat, sid: string, nonce: nat)
    requires l in s.legs
    ensures PutNext(s, l, sid, nonce).legs.Keys == s.legs.Keys
  {
    hide FreshSession;
  }

  /** A request arrives with the inventory's pin of now, and no other. */
  lemma Newcomer(cfg: Config, s: World, step: Step, l: nat)
    requires Inv(cfg, s) && Enabled(cfg, s, step) && l !in s.legs && l in After(cfg, s, step).legs
    ensures var leg := After(cfg, s, step).legs[l];
            leg.inv == Content(s.inventory, leg.vmid) && !leg.pc.PreOwn? && (leg.pc.PreInventory? ==> leg.inv != "")
  {
    hide Inv, Advance, Goto, ListNext, PutNext, AtPhase, CanAdvance, Content, Places, FreshSession, IsListing,
         IsVMIDName, IsFingerprint;
    match step
    case Advances(m) => AdvanceLegs(cfg, s, m, l);
    case Lists(m, names) => ListLegs(s, m, names);
    case Doubts(m) => OverLegs(s, m);
    case Fails(m) => OverLegs(s, m);
    case Puts(m, sid, nonce) => PutLegs(s, m, sid, nonce);
    case _ =>
  }

  lemma AdvanceLegs(cfg: Config, s: World, m: nat, l: nat)
    requires Inv(cfg, s) && CanAdvance(s, m) && l !in s.legs
    ensures l !in Advance(cfg, s, m).legs
  {
    hide Inv, Advance, LockInv, CanAdvance, LockMoves;
    InvParts(cfg, s);
    AdvanceFrame(cfg, s, m);
  }

  lemma {:induction false} LegGrounded(cfg: Config, worlds: seq<World>, steps: seq<Step>, i: nat, l: nat)
    returns (a: nat, b: nat)
    requires IsRun(cfg, worlds, steps) && i < |worlds| && l in worlds[i].legs
    ensures Grounded(cfg, worlds, i, worlds[i].legs[l], a, b)
  {
    hide Inv, Enabled, After, Content, ClusterPin;
    var j := i - 1;
    RunKeeps(cfg, worlds, steps, j);
    StepApproach(cfg, worlds[j], steps[j]);
    if l in worlds[j].legs {
      a, b := LegGrounded(cfg, worlds, steps, j, l);
      if worlds[j].legs[l].pc.PreCluster? {
        b := j;
      }
    } else {
      Newcomer(cfg, worlds[j], steps[j], l);
      a, b := j, j;
    }
  }

  /** The check of event k: the pin compared was the inventory's for the VM in
      some world a; without one, the cluster pin was the cluster's in some world
      b from then on, and the local pin the pin file's in the world of the check,
      c, the last one without event k. */
  ghost predicate PinsWere(cfg: Config, worlds: seq<World>, events: seq<Event>, k: nat) {
    && k < |events| && events[k].Checked?
    && var e := events[k];
       && e.required == cfg.requireClusterPin
       && exists a, b, c :: 0 <= a <= b <= c < |worlds| && worlds[c].events == events[..k]
            && e.inv == Content(worlds[a].inventory, e.vmid)
            && (e.inv == "" ==> e.cpin == ClusterPin(cfg, worlds[b], e.vmid))
            && (e.inv == "" && cfg.pinDir ==> e.stored == Content(worlds[c].pins, e.vmid))
            && (e.inv == "" && !cfg.pinDir ==> e.stored == "")
  }

  /** A request passes its check by pins that were there. */
  lemma ChecksWhatWas(cfg: Config, worlds: seq<World>, steps: seq<Step>, i: nat, k: nat)
    requires IsRun(cfg, worlds, steps) && i < |worlds| && k < |worlds[i].events| && worlds[i].events[k].Checked?
    ensures PinsWere(cfg, worlds, worlds[i].events, k) && OwnAgrees(worlds[i].events[k])
  {
    hide Inv, Enabled, After, Initial, OwnAgrees, NotesTruly, Content, ClusterPin;
    var events := worlds[i].events;
    var e := events[k];
    RunKeeps(cfg, worlds, steps, i);
    InvParts(cfg, worlds[i]);
    CheckAgrees(events, k);
    var c := LoggedAt(cfg, worlds, steps, i, k);
    StepNotes(cfg, worlds[c], steps[c]);
    assert events[..k + 1] == events[..k] + [e];
    NotedNow(cfg, worlds[c], worlds[c + 1], e);
    var a, b := LegGrounded(cfg, worlds, steps, c, e.leg);
    assert 0 <= a <= b <= c < |worlds| && worlds[c].events == events[..k];
  }

  lemma CheckAgrees(events: seq<Event>, k: nat)
    requires LogOk(events) && k < |events| && events[k].Checked?
    ensures OwnAgrees(events[k])
  {
    assert EntryOk(events[..k], events[k]);
  }

  /** On both legs the VM's own pin was read and agreed with the EK: on the leg
      that put the session and on the one the certificate was issued to. */
  lemma BothLegsChecked(cfg: Config, worlds: seq<World>, steps: seq<Step>, i: nat, n: nat)
    requires IsRun(cfg, worlds, steps) && i < |worlds| && n < |worlds[i].events| && worlds[i].events[n].Issued?
    ensures var events, e := worlds[i].events, worlds[i].events[n];
            && (exists k :: 0 <= k < n && IsCheck(events[k], e.leg, e.vmid, e.fp) && OwnAgrees(events[k])
                            && PinsWere(cfg, worlds, events, k))
            && (exists j, k :: 0 <= j < k < n && events[k] == SessionPut(e.sid, e.vmid, e.fp)
                               && events[j].Checked? && IsCheck(events[j], events[j].leg, e.vmid, e.fp)
                                  && OwnAgrees(events[j])
                               && PinsWere(cfg, worlds, events, j))
  {
    hide Inv, IsRun, IsWitness, OwnAgrees, PinsWere;
    RunKeeps(cfg, worlds, steps, i);
    InvParts(cfg, worlds[i]);
    var events, e := worlds[i].events, worlds[i].events[n];
    assert EntryOk(events[..n], e);
    var a :| 0 <= a < n && IsCheck(events[..n][a], e.leg, e.vmid, e.fp);
    ChecksWhatWas(cfg, worlds, steps, i, a);
    var k :| 0 <= k < n && events[..n][k] == SessionPut(e.sid, e.vmid, e.fp);
    assert EntryOk(events[..k], events[k]);
    var l :| Vetted(events[..k], l, e.vmid, e.fp);
    var j :| 0 <= j < k && IsCheck(events[..k][j], l, e.vmid, e.fp);
    ChecksWhatWas(cfg, worlds, steps, i, j);
    assert events[k] == SessionPut(e.sid, e.vmid, e.fp) && IsCheck(events[j], events[j].leg, e.vmid, e.fp);
  }
}
