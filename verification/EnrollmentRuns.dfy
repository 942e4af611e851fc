/** What holds over all runs of the enrolment protocol. */
module EnrollmentRuns {
  import opened Options
  import opened Enrollment
  import opened EnrollmentSection
  import opened EnrollmentFrames
  import opened EnrollmentActions
  import opened EnrollmentSteps

  // ----- all runs

  lemma InitialInv(cfg: Config, s: World)
    requires Initial(cfg, s)
    ensures Inv(cfg, s)
  {
  }

  /** The invariant holds in every world of every run. */
  lemma {:induction false} RunKeeps(cfg: Config, worlds: seq<World>, steps: seq<Step>, n: nat)
    requires IsRun(cfg, worlds, steps) && n < |worlds|
    ensures Inv(cfg, worlds[n])
  {
    hide Inv, Enabled, After, Initial;
    if n == 0 {
      InitialInv(cfg, worlds[0]);
    } else {
      RunKeeps(cfg, worlds, steps, n - 1);
      StepKeeps(cfg, worlds[n - 1], steps[n - 1]);
    }
  }

  /** Two looks miss a guest only if it was not there when they began, was
      destroyed meanwhile, or moved twice meanwhile. */
  lemma MissedOnlyIfGone(cfg: Config, worlds: seq<World>, steps: seq<Step>, i: nat, n: nat)
    requires IsRun(cfg, worlds, steps) && i < |worlds| && n < |worlds[i].events| && worlds[i].events[n].Ignored?
    ensures var e := worlds[i].events[n];
            && e.since <= n
            && (e.absent || DestroyedSince(worlds[i].events[..n], e.since, e.vmid)
                || MoveCount(worlds[i].events[e.since..n], e.vmid) >= 2)
  {
    hide Inv, IsRun, MoveCount;
    RunKeeps(cfg, worlds, steps, i);
    InvParts(cfg, worlds[i]);
    var events := worlds[i].events;
    assert EntryOk(events[..n], events[n]);
    assert events[..n][events[n].since..] == events[events[n].since..n];
  }

  /** Every certificate stems from one session, which no other certificate stems
      from: put for the VM and the EK it is issued to; the common name is that
      VM's ID. By a local pin it is issued only once that pin was seen. */
  lemma IssuedOncePerSession(cfg: Config, worlds: seq<World>, steps: seq<Step>, i: nat, n: nat)
    requires IsRun(cfg, worlds, steps) && i < |worlds| && n < |worlds[i].events| && worlds[i].events[n].Issued?
    ensures var events, e := worlds[i].events, worlds[i].events[n];
            && e.cn == e.vmid
            && (exists k :: 0 <= k < n && events[k] == SessionPut(e.sid, e.vmid, e.fp))
            && (forall k :: 0 <= k < |events| && k != n && events[k].Issued? ==> events[k].sid != e.sid)
            && (forall k, m :: 0 <= k < m < |events| && events[k].SessionPut? && events[m].SessionPut? ==>
                  events[k].sid != events[m].sid)
            && (e.path.ByLocal? ==> e.path.mark < n && IsWitness(events[e.path.mark], e.vmid, e.fp))
  {
    hide *;
    RunKeeps(cfg, worlds, steps, i);
    InvParts(cfg, worlds[i]);
    var events := worlds[i].events;
    var k := IssuedFrom(events, n);
    forall m | 0 <= m < |events| && m != n && events[m].Issued? ensures events[m].sid != events[n].sid {
      if m < n {
        IssuedApart(events, m, n);
      } else {
        IssuedApart(events, n, m);
      }
    }
    forall j, m | 0 <= j < m < |events| && events[j].SessionPut? && events[m].SessionPut?
      ensures events[j].sid != events[m].sid
    {
      PutApart(events, j, m);
    }
  }

  lemma EntryHere(events: seq<Event>, n: nat)
    requires LogOk(events) && n < |events|
    ensures EntryOk(events[..n], events[n])
  {
    hide EntryOk;
  }

  lemma IssuedFrom(events: seq<Event>, n: nat) returns (k: nat)
    requires LogOk(events) && n < |events| && events[n].Issued?
    ensures var e := events[n];
            && e.cn == e.vmid && k < n && events[k] == SessionPut(e.sid, e.vmid, e.fp)
            && (e.path.ByLocal? ==> e.path.mark < n && IsWitness(events[e.path.mark], e.vmid, e.fp))
  {
    hide LogOk, Vetted, ClearedBy, IsWitness;
    EntryHere(events, n);
    k :| 0 <= k < n && events[..n][k] == SessionPut(events[n].sid, events[n].vmid, events[n].fp);
  }

  lemma IssuedApart(events: seq<Event>, m: nat, n: nat)
    requires LogOk(events) && m < n < |events| && events[m].Issued? && events[n].Issued?
    ensures events[m].sid != events[n].sid
  {
    hide LogOk, Vetted, ClearedBy, IsWitness;
    EntryHere(events, n);
    assert events[..n][m] in events[..n];
  }

  lemma PutApart(events: seq<Event>, j: nat, m: nat)
    requires LogOk(events) && j < m < |events| && events[j].SessionPut? && events[m].SessionPut?
    ensures events[j].sid != events[m].sid
  {
    hide LogOk, WasChecked;
    EntryHere(events, m);
    assert events[..m][j] in events[..m];
  }

  /** Two certificates issued to one VM by its local pin for different EKs: an
      operator deleted the pin between the times the pins were seen. */
  lemma DifferentKeysNeedDelete(cfg: Config, worlds: seq<World>, steps: seq<Step>, i: nat, m: nat, n: nat)
    requires IsRun(cfg, worlds, steps) && i < |worlds| && m < |worlds[i].events| && n < |worlds[i].events|
    requires var d, e := worlds[i].events[m], worlds[i].events[n];
             && d.Issued? && e.Issued? && d.path.ByLocal? && e.path.ByLocal?
             && d.vmid == e.vmid && d.fp != e.fp && d.path.mark <= e.path.mark
    ensures var d, e := worlds[i].events[m], worlds[i].events[n];
            exists k :: d.path.mark < k < e.path.mark && k < |worlds[i].events|
              && worlds[i].events[k] == Deleted(e.vmid)
  {
    hide Inv, IsRun, EntryOk, IsWitness, DeletedSince, MoveCount;
    var events := worlds[i].events;
    var d, e := events[m], events[n];
    IssuedOncePerSession(cfg, worlds, steps, i, m);
    IssuedOncePerSession(cfg, worlds, steps, i, n);
    RunKeeps(cfg, worlds, steps, i);
    InvParts(cfg, worlds[i]);
    var x := DeleteBetween(events, d.path.mark, e.path.mark, e.vmid, d.fp, e.fp);
  }

  lemma DeleteBetween(events: seq<Event>, j: nat, k: nat, vmid: string, f: string, fp: string) returns (x: nat)
    requires LogOk(events) && j <= k < |events| && f != fp
    requires IsWitness(events[j], vmid, f) && IsWitness(events[k], vmid, fp)
    ensures j < x < k && events[x] == Deleted(vmid)
  {
    assert EntryOk(events[..k], events[k]);
    assert IsWitness(events[..k][j], vmid, f);
    x :| j <= x < k && events[..k][x] == Deleted(vmid);
    assert events[x] == Deleted(vmid);
  }

  /** When a critical section ends well, the pin the certificate rests on equals
      the fingerprint: the local pin exactly if no operator deleted it since it
      was seen, the cluster pin unless the cluster's root touched it since it was
      read. */
  lemma SectionEndsPinned(cfg: Config, worlds: seq<World>, steps: seq<Step>, i: nat, l: nat)
    requires IsRun(cfg, worlds, steps) && i < |worlds| && l in worlds[i].legs && worlds[i].legs[l].pc.Settled?
    ensures var s, leg := worlds[i], worlds[i].legs[l];
            match leg.pc.path
            case ByLocal(mark) =>
              && mark < |s.events| && IsWitness(s.events[mark], leg.vmid, leg.fp)
              && ((leg.vmid in s.pins && s.pins[leg.vmid] == leg.fp) <==> !DeletedSince(s.events, mark, leg.vmid))
            case ByCluster(read) => ClusterPin(cfg, s, leg.vmid) == leg.fp || TouchedSince(s.events, read, leg.vmid)
            case NoStore => !cfg.pinDir
            case ByInventory => false
  {
    hide Inv, IsRun, DeletedSince, TouchedSince, ParseClusterPin;
    var s := worlds[i];
    RunKeeps(cfg, worlds, steps, i);
    InvParts(cfg, s);
    SettledSeen(cfg, s, l);
  }

  // ----- how pin files change

  /** Only an operator changes pin files otherwise. */
  lemma StepChange(cfg: Config, s: World, step: Step)
    requires Inv(cfg, s) && Enabled(cfg, s, step) && !step.OperatorDeletes?
    ensures PinChange(s, After(cfg, s, step))
  {
    hide Inv, PinChange, Advance, Goto, PutNext, ListNext, CanAdvance, NewLeg, Places, FreshSession, IsListing;
    match step
    case Advances(l) => AdvanceChange(cfg, s, l);
    case Lists(l, names) => ListLeaves(s, l, names); Unchanged(s, After(cfg, s, step));
    case Doubts(l) => GotoLeaves(s, l, Over); Unchanged(s, After(cfg, s, step));
    case Fails(l) => GotoLeaves(s, l, Over); Unchanged(s, After(cfg, s, step));
    case Puts(l, sid, nonce) => PutLeaves(s, l, sid, nonce); Unchanged(s, After(cfg, s, step));
    case OperatorDeletes(_) =>
    case _ => Unchanged(s, After(cfg, s, step));
  }

  lemma ListLeaves(s: World, l: nat, names: seq<string>)
    requires AtPhase(s, l, ListPins) || AtPhase(s, l, ListClusterPins)
    ensures ListNext(s, l, names).pins == s.pins && ListNext(s, l, names).guests == s.guests
            && ListNext(s, l, names).events == s.events
  {
  }

  lemma PutLeaves(s: World, l: nat, sid: string, nonce: nat)
    requires l in s.legs
    ensures PutNext(s, l, sid, nonce).pins == s.pins && PutNext(s, l, sid, nonce).guests == s.guests
  {
  }

  /** The file of that VM is as it was. */
  predicate SamePin(before: map<string, string>, after: map<string, string>, vmid: string) {
    vmid in before && before[vmid] != "" ==> vmid in after && after[vmid] == before[vmid]
  }

  lemma StepSame(cfg: Config, s: World, step: Step, vmid: string)
    requires Inv(cfg, s) && Enabled(cfg, s, step) && step != OperatorDeletes(vmid)
    ensures SamePin(s.pins, After(cfg, s, step).pins, vmid)
  {
    hide Inv, Enabled, After;
    if step.OperatorDeletes? {
      DeleteOther(cfg, s, step, vmid);
    } else {
      StepChange(cfg, s, step);
    }
  }

  lemma DeleteOther(cfg: Config, s: World, step: Step, vmid: string)
    requires Enabled(cfg, s, step) && step.OperatorDeletes? && step != OperatorDeletes(vmid)
    ensures SamePin(s.pins, After(cfg, s, step).pins, vmid)
  {
  }

  /** Whenever a fingerprint appears in a VM's pin file while another VM's file
      holds it, the step that wrote it was a request of that VM that had looked
      for the other VM's guest twice, in the same critical section, and had not
      found it. */
  lemma PinAppearsOnlyPastIgnored(cfg: Config, worlds: seq<World>, steps: seq<Step>, i: nat, a: string, b: string,
                                  fp: string)
    requires IsRun(cfg, worlds, steps) && i < |steps| && fp != "" && a != b && IsVMIDName(b)
    requires Content(worlds[i].pins, a) != fp && Content(worlds[i + 1].pins, a) == fp
             && Content(worlds[i].pins, b) == fp
    ensures var past := worlds[i].events;
            exists e: Event :: worlds[i + 1].events == past + [e] && e.Created? && e.vmid == a && e.fp == fp
              && IgnoredSince(past, e.entered, e.leg, b)
  {
    hide Inv, Enabled, After, Initial, IgnoredSince, IsVMIDName, PinChange, SamePin;
    var s, s' := worlds[i], worlds[i + 1];
    RunKeeps(cfg, worlds, steps, i);
    RunKeeps(cfg, worlds, steps, i + 1);
    assert !steps[i].OperatorDeletes? by {
      if steps[i].OperatorDeletes? {
        DeleteWritesNothing(cfg, s, steps[i], a);
      }
    }
    StepChange(cfg, s, steps[i]);
    var e := Linked(s, s', a, fp);
    InvParts(cfg, s');
    LastEntry(s.events, e);
  }

  lemma DeleteWritesNothing(cfg: Config, s: World, step: Step, vmid: string)
    requires Enabled(cfg, s, step) && step.OperatorDeletes?
    ensures Content(After(cfg, s, step).pins, vmid) in {"", Content(s.pins, vmid)}
  {
  }

  lemma Linked(s: World, s': World, a: string, fp: string) returns (e: Event)
    requires PinChange(s, s') && fp != "" && Content(s.pins, a) != fp && Content(s'.pins, a) == fp
    ensures Links(s, s', e) && e.vmid == a && e.fp == fp
  {
    e :| Links(s, s', e);
  }

  lemma LastEntry(past: seq<Event>, e: Event)
    requires LogOk(past + [e])
    ensures EntryOk(past, e)
  {
    hide EntryOk;
    assert (past + [e])[..|past|] == past;
    assert EntryOk((past + [e])[..|past|], (past + [e])[|past|]);
  }

  /** A pin file that is not blank stays as it is until an operator deletes it. */
  lemma {:induction false} PinsPersist(cfg: Config, worlds: seq<World>, steps: seq<Step>, i: nat, j: nat, vmid: string)
    requires IsRun(cfg, worlds, steps) && i <= j < |worlds|
    requires vmid in worlds[i].pins && worlds[i].pins[vmid] != ""
    requires forall k :: i <= k < j ==> steps[k] != OperatorDeletes(vmid)
    ensures vmid in worlds[j].pins && worlds[j].pins[vmid] == worlds[i].pins[vmid]
  {
    hide Inv, Enabled, After, Initial;
    if i < j {
      PinsPersist(cfg, worlds, steps, i, j - 1, vmid);
      RunKeeps(cfg, worlds, steps, j - 1);
      StepSame(cfg, worlds[j - 1], steps[j - 1], vmid);
    }
  }

  // ----- when a scan was

  /** The history is only ever added to, one event at a time. */
  predicate Extends(before: seq<Event>, after: seq<Event>) {
    after == before || (|after| == |before| + 1 && after[..|before|] == before)
  }

  lemma GrowsExtends(before: seq<Event>, after: seq<Event>)
    requires Grows(before, after)
    ensures Extends(before, after)
  {
  }

  lemma StepExtends(cfg: Config, s: World, step: Step)
    requires Enabled(cfg, s, step)
    ensures Extends(s.events, After(cfg, s, step).events)
  {
    hide Advance, Goto, PutNext, ListNext, CanAdvance, NewLeg, Places, FreshSession, IsListing, Grows;
    match step
    case Advances(l) => AdvanceGrows(cfg, s, l); GrowsExtends(s.events, After(cfg, s, step).events);
    case Lists(l, names) => ListLeaves(s, l, names);
    case Doubts(l) => GotoLeaves(s, l, Over);
    case Fails(l) => GotoLeaves(s, l, Over);
    case Puts(l, sid, nonce) => PutLogs(s, l, sid, nonce);
    case _ =>
  }

  lemma PutLogs(s: World, l: nat, sid: string, nonce: nat)
    requires l in s.legs
    ensures PutNext(s, l, sid, nonce).events == s.events + [SessionPut(sid, s.legs[l].vmid, s.legs[l].fp)]
  {
  }

  /** Every event was logged by one step of the run. */
  lemma {:induction false} LoggedAt(cfg: Config, worlds: seq<World>, steps: seq<Step>, i: nat, n: nat) returns (j: nat)
    requires IsRun(cfg, worlds, steps) && i < |worlds| && n < |worlds[i].events|
    ensures j < i && worlds[j].events == worlds[i].events[..n] && worlds[j + 1].events == worlds[i].events[..n + 1]
  {
    hide Inv, Enabled, After;
    j := i - 1;
    StepExtends(cfg, worlds[j], steps[j]);
    if n < |worlds[j].events| {
      var before := worlds[j].events;
      assert worlds[i].events[..n] == before[..n] && worlds[i].events[..n + 1] == before[..n + 1];
      j := LoggedAt(cfg, worlds, steps, j, n);
    }
  }

  /** A scan is about to end. */
  predicate Ending(s: World, l: nat) {
    l in s.legs && s.legs[l].pc.Scan? && s.legs[l].pc.phase.InventoryPins?
  }

  /** A leg is about to pass the check of its own pins. */
  ghost predicate Checking(cfg: Config, s: World, e: Event) {
    && e.Checked? && e.leg in s.legs
    && var pc := s.legs[e.leg].pc;
       && (pc.PreInventory? || pc.PreOwn?)
       && e == CheckOf(cfg, s, e.leg, if pc.PreOwn? then pc.cpin else "")
  }

  /** The end of a scan and a check are logged when they happen, as they are. */
  ghost predicate NotesTruly(cfg: Config, s: World, s': World) {
    forall e: Event :: s'.events == s.events + [e] ==>
      && (e.Cleared? ==> Ending(s, e.leg) && e == ClearOf(cfg, s, e.leg))
      && (e.Checked? ==> Checking(cfg, s, e))
  }

  predicate Plain(e: Event) {
    !e.Cleared? && !e.Checked?
  }

  lemma NothingNoted(cfg: Config, s: World, s': World)
    requires s'.events == s.events || (s'.events != [] && Plain(s'.events[|s'.events| - 1]))
    ensures NotesTruly(cfg, s, s')
  {
  }

  lemma GotoNotes(cfg: Config, s: World, l: nat, pc: Pc)
    requires l in s.legs
    ensures NotesTruly(cfg, s, Goto(s, l, pc))
  {
    hide Goto, NotesTruly;
    GotoLeaves(s, l, pc);
    NothingNoted(cfg, s, Goto(s, l, pc));
  }

  lemma LogNotes(cfg: Config, s: World, s1: World, e: Event)
    requires Plain(e)
    ensures NotesTruly(cfg, s, Log(s1, e))
  {
    hide NotesTruly;
    NothingNoted(cfg, s, Log(s1, e));
  }

  lemma EndNotes(cfg: Config, s: World, l: nat)
    requires l in s.legs && s.legs[l].pc.Scan? && s.legs[l].pc.phase.InventoryPins?
    ensures NotesTruly(cfg, s, ScanEnds(cfg, s, l))
  {
    hide Goto, ScanDone, ClearOf;
    GotoLeaves(s, l, ScanDone(s.legs[l], s.legs[l].pc));
    forall e: Event | ScanEnds(cfg, s, l).events == s.events + [e] ensures e == ClearOf(cfg, s, l) {
      assert (s.events + [e])[|s.events|] == e;
    }
  }

  lemma ScanNotes(cfg: Config, s: World, l: nat)
    requires CanAdvance(s, l) && s.legs[l].pc.Scan?
    ensures NotesTruly(cfg, s, ScanNext(cfg, s, l))
  {
    hide Goto, Log, NotesTruly, Suspect, InventoryHas, Places, ClusterPin, Content, AfterPins, ScanEnds;
    forall pc: Pc ensures NotesTruly(cfg, s, Goto(s, l, pc)) {
      GotoNotes(cfg, s, l, pc);
    }
    var leg, phase := s.legs[l], s.legs[l].pc.phase;
    if phase.Look? {
      LogNotes(cfg, s, s.(legs :=
                          s.legs[l := leg.(pc := leg.pc.(phase := Resume(phase.back)),
                                           stale := leg.stale + {phase.name})]),
                Ignored(l, phase.name, phase.since, phase.absent));
    } else if phase.InventoryPins? {
      EndNotes(cfg, s, l);
    }
  }

  lemma VetNotes(cfg: Config, s: World, l: nat, e: Event)
    requires l in s.legs && Checking(cfg, s, e) && e.Checked?
    ensures NotesTruly(cfg, s, Vet(cfg, s, l, e))
  {
    hide Goto, Log, NotesTruly, OwnAgrees, BeginScan, Checking;
    GotoNotes(cfg, s, l, Over);
    BeginLeaves(cfg, s, l);
    CheckNotes(cfg, s, BeginScan(cfg, s, l), e);
  }

  lemma CheckNotes(cfg: Config, s: World, s1: World, e: Event)
    requires Checking(cfg, s, e) && e.Checked? && s1.events == s.events
    ensures NotesTruly(cfg, s, Log(s1, e))
  {
    hide Checking;
    forall f: Event | Log(s1, e).events == s.events + [f] ensures f == e {
      assert (s.events + [f])[|s.events|] == f && (s.events + [e])[|s.events|] == e;
    }
  }

  lemma EarlyNotes(cfg: Config, s: World, l: nat)
    requires l in s.legs
    ensures NotesTruly(cfg, s, TakeNext(s, l)) && NotesTruly(cfg, s, AcquireNext(s, l))
            && NotesTruly(cfg, s, LockedClusterNext(cfg, s, l))
  {
    hide TakeNext, AcquireNext, LockedClusterNext, NotesTruly;
    TakeLeaves(s, l);
    AcquireLeaves(s, l);
    LockedClusterLeaves(cfg, s, l);
    NothingNoted(cfg, s, TakeNext(s, l));
    NothingNoted(cfg, s, AcquireNext(s, l));
    NothingNoted(cfg, s, LockedClusterNext(cfg, s, l));
  }

  lemma SectionNotes(cfg: Config, s: World, l: nat)
    requires l in s.legs
    ensures NotesTruly(cfg, s, LockedOwnNext(s, l)) && NotesTruly(cfg, s, LinkPin(s, l))
            && NotesTruly(cfg, s, RereadNext(s, l))
  {
    hide Goto, Log, Content, NotesTruly;
    var leg := s.legs[l];
    forall pc: Pc ensures NotesTruly(cfg, s, Goto(s, l, pc)) {
      GotoNotes(cfg, s, l, pc);
    }
    forall w: World, e: Event | Plain(e) ensures NotesTruly(cfg, s, Log(w, e)) {
      LogNotes(cfg, s, w, e);
    }
  }

  lemma CreateNotes(cfg: Config, s: World, l: nat, again: bool)
    requires l in s.legs
    ensures NotesTruly(cfg, s, CreateNext(s, l, again))
  {
    hide Goto, LinkPin, NotesTruly;
    SectionNotes(cfg, s, l);
    GotoNotes(cfg, s, l, if again then Over else Reread);
  }

  lemma LastNotes(cfg: Config, s: World, l: nat)
    requires l in s.legs
    ensures NotesTruly(cfg, s, RemoveNext(s, l))
    ensures s.legs[l].pc.Settled? ==> NotesTruly(cfg, s, ReleaseNext(s, l))
    ensures s.legs[l].pc.Issue? ==> NotesTruly(cfg, s, IssueNext(s, l))
  {
    hide Goto, Log, RemoveNext, ReleaseNext, NotesTruly;
    RemoveLeaves(s, l);
    NothingNoted(cfg, s, RemoveNext(s, l));
    if s.legs[l].pc.Settled? {
      ReleaseLeaves(s, l);
      NothingNoted(cfg, s, ReleaseNext(s, l));
    } else if s.legs[l].pc.Issue? {
      var leg := s.legs[l];
      LogNotes(cfg, s, Goto(s, l, Over), Issued(l, leg.sid, leg.bound.vmid, leg.vmid, leg.fp, leg.pc.reason));
    }
  }

  lemma AdvanceNotes(cfg: Config, s: World, l: nat)
    requires CanAdvance(s, l)
    ensures NotesTruly(cfg, s, Advance(cfg, s, l))
  {
    hide NotesTruly, Goto, Vet, CheckOf, ScanNext, TakeNext, AcquireNext, LockedClusterNext, LockedOwnNext, CreateNext,
         RereadNext, RemoveNext, ReleaseNext, IssueNext, ClusterPin;
    EarlyNotes(cfg, s, l);
    SectionNotes(cfg, s, l);
    LastNotes(cfg, s, l);
    match s.legs[l].pc
    case PreInventory => VetNotes(cfg, s, l, CheckOf(cfg, s, l, ""));
    case PreCluster => GotoNotes(cfg, s, l, PreOwn(ClusterPin(cfg, s, s.legs[l].vmid)));
    case PreOwn(cpin) => VetNotes(cfg, s, l, CheckOf(cfg, s, l, cpin));
    case Scan(_, _, _) => ScanNotes(cfg, s, l);
    case Create => CreateNotes(cfg, s, l, false);
    case Recreate => CreateNotes(cfg, s, l, true);
    case _ =>
  }

  lemma StepNotes(cfg: Config, s: World, step: Step)
    requires Enabled(cfg, s, step)
    ensures NotesTruly(cfg, s, After(cfg, s, step))
  {
    hide Advance, Goto, PutNext, ListNext, CanAdvance, NewLeg, Places, FreshSession, IsListing, NotesTruly;
    match step
    case Advances(l) => AdvanceNotes(cfg, s, l);
    case Lists(l, names) => ListLeaves(s, l, names); NothingNoted(cfg, s, After(cfg, s, step));
    case Doubts(l) => GotoNotes(cfg, s, l, Over);
    case Fails(l) => GotoNotes(cfg, s, l, Over);
    case Puts(l, sid, nonce) => PutLogs(s, l, sid, nonce); NothingNoted(cfg, s, After(cfg, s, step));
    case _ => NothingNoted(cfg, s, After(cfg, s, step));
  }

  /** Of every other VM that has the fingerprint in its pin file, or in its
      cluster pin, the guest was looked for in this scan and not found, unless
      that pin was written since the scan began, or since the critical section
      did if the scan is its; there no pin file is created meanwhile. No other
      VM has it as its inventory pin. */
  ghost predicate NoOtherPinned(cfg: Config, s: World, l: nat, vmid: string, fp: string, section: bool) {
    && l in s.legs && s.legs[l].vmid == vmid && s.legs[l].fp == fp && (section ==> s.lock == Some(l))
    && var entered := s.legs[l].entered;
       && (section || cfg.pinDir ==>
             forall b :: b in s.pins && b != vmid && IsVMIDName(b) && s.pins[b] == fp ==>
               IgnoredSince(s.events, entered, l, b) || (!section && CreatedSince(s.events, entered, b)))
       && (forall b :: b in s.clusterPins && b != vmid && IsVMIDName(b) && ClusterPin(cfg, s, b) == fp ==>
             IgnoredSince(s.events, entered, l, b) || TouchedSince(s.events, entered, b))
       && (forall b :: b in s.inventory && b != vmid ==> s.inventory[b] != fp)
  }

  /** At some time before the n-th event of the history. */
  ghost predicate ScannedBefore(cfg: Config, worlds: seq<World>, events: seq<Event>, n: nat, l: nat, vmid: string,
                                fp: string, section: bool)
  {
    exists j :: 0 <= j < |worlds| && |worlds[j].events| < n <= |events|
      && worlds[j].events == events[..|worlds[j].events|]
                && NoOtherPinned(cfg, worlds[j], l, vmid, fp, section)
  }

  lemma ScanWas(cfg: Config, worlds: seq<World>, steps: seq<Step>, i: nat, n: nat, l: nat, vmid: string, fp: string,
                section: bool)
    requires IsRun(cfg, worlds, steps) && i < |worlds| && n < |worlds[i].events|
    requires ClearedBy(worlds[i].events[..n], l, vmid, fp, section)
    ensures ScannedBefore(cfg, worlds, worlds[i].events, n, l, vmid, fp, section)
  {
    hide Inv, Enabled, After, Initial, NoOtherPinned, AllHeeded, IsWitness, Vetted, NotesTruly, ClearOf;
    var events := worlds[i].events;
    RunKeeps(cfg, worlds, steps, i);
    InvParts(cfg, worlds[i]);
    var k := ClearBefore(events, n, l, vmid, fp, section);
    EntryHere(events, k);
    var j := LoggedAt(cfg, worlds, steps, i, k);
    RunKeeps(cfg, worlds, steps, j);
    StepNotes(cfg, worlds[j], steps[j]);
    assert events[..k + 1] == events[..k] + [events[k]];
    NotedNow(cfg, worlds[j], worlds[j + 1], events[k]);
    HeededMeaning(cfg, worlds[j], l);
  }

  /** No certificate is issued, by whatever pin, unless the scans of both legs
      found the EK pinned to no other VM, and by a local pin not unless the scan
      in the critical section did. */
  lemma IssuedOnlyScanned(cfg: Config, worlds: seq<World>, steps: seq<Step>, i: nat, n: nat)
    requires IsRun(cfg, worlds, steps) && i < |worlds| && n < |worlds[i].events| && worlds[i].events[n].Issued?
    ensures var events, e := worlds[i].events, worlds[i].events[n];
            && ScannedBefore(cfg, worlds, events, n, e.leg, e.vmid, e.fp, false)
            && (e.path.ByLocal? ==> ScannedBefore(cfg, worlds, events, n, e.leg, e.vmid, e.fp, true))
            && (exists k, l :: 0 <= k < n && events[k] == SessionPut(e.sid, e.vmid, e.fp) &&
                               ScannedBefore(cfg, worlds, events, k, l, e.vmid, e.fp, false))
  {
    hide *;
    var events := worlds[i].events;
    RunKeeps(cfg, worlds, steps, i);
    InvParts(cfg, worlds[i]);
    var k := IssuedFrom(events, n);
    var l := IssuedCleared(events, k, n);
    var e := events[n];
    ScanWas(cfg, worlds, steps, i, n, e.leg, e.vmid, e.fp, false);
    if e.path.ByLocal? {
      ScanWas(cfg, worlds, steps, i, n, e.leg, e.vmid, e.fp, true);
    }
    ScanWas(cfg, worlds, steps, i, k, l, e.vmid, e.fp, false);
  }

  lemma IssuedCleared(events: seq<Event>, k: nat, n: nat) returns (l: nat)
    requires LogOk(events) && k < n < |events| && events[n].Issued?
             && events[k] == SessionPut(events[n].sid, events[n].vmid, events[n].fp)
    ensures var e := events[n];
            && ClearedBy(events[..n], e.leg, e.vmid, e.fp, false)
            && (e.path.ByLocal? ==> ClearedBy(events[..n], e.leg, e.vmid, e.fp, true))
            && ClearedBy(events[..k], l, e.vmid, e.fp, false)
  {
    hide LogOk, Vetted, WasChecked, ClearedBy, IsWitness;
    EntryHere(events, n);
    EntryHere(events, k);
    l :| ClearedBy(events[..k], l, events[n].vmid, events[n].fp, false);
  }

  lemma ClearBefore(events: seq<Event>, n: nat, l: nat, vmid: string, fp: string, section: bool) returns (k: nat)
    requires n <= |events| && ClearedBy(events[..n], l, vmid, fp, section)
    ensures k < n && IsClear(events[k], l, vmid, fp, section)
  {
    k :| 0 <= k < n && IsClear(events[..n][k], l, vmid, fp, section);
  }

  lemma NotedNow(cfg: Config, s: World, s': World, e: Event)
    requires NotesTruly(cfg, s, s') && s'.events == s.events + [e]
    ensures e.Cleared? ==> Ending(s, e.leg) && e == ClearOf(cfg, s, e.leg)
    ensures e.Checked? ==> Checking(cfg, s, e)
  {
  }

  lemma HeededMeaning(cfg: Config, s: World, l: nat)
    requires Inv(cfg, s) && Ending(s, l) && AllHeeded(s.events, ClearOf(cfg, s, l))
    ensures NoOtherPinned(cfg, s, l, s.legs[l].vmid, s.legs[l].fp, s.legs[l].pc.section)
  {
    hide Inv, Held, Tracks, IgnoredSince, TouchedSince, CreatedSince, ParseClusterPin, IsVMIDName, IsFingerprint;
    InvParts(cfg, s);
    LegFacts(cfg, s, l);
    if s.legs[l].pc.section {
      HeldScanParts(cfg, l, s.legs[l], s.pins, s.clusterPins, s.events);
    }
  }

  // ----- no two VMs with one EK

  /** No two VMs' pin files hold one fingerprint. */
  ghost predicate NoSharedPins(pins: map<string, string>) {
    forall a, b :: a in pins && b in pins && a != b && IsVMIDName(a) && IsVMIDName(b) && pins[a] == pins[b] ==>
      pins[a] == ""
  }

  /** Pinned VMs have a guest. */
  ghost predicate PinnedExist(pins: map<string, string>, guests: map<string, Place>) {
    forall b :: b in pins && IsVMIDName(b) ==> b in guests
  }

  /** No guest is destroyed, and requests come from guests. */
  ghost predicate Peaceful(s: World, step: Step) {
    !step.Destroys? && (step.Arrive? ==> step.vmid in s.guests)
  }

  ghost predicate CalmLook(phase: Phase, events: seq<Event>) {
    phase.Look? && phase.since <= |events| ==> MoveCount(events[phase.since..], phase.name) <= 1
  }

  /** In no call of guestExists does the guest move more than once. */
  ghost predicate Calm(s: World) {
    forall l :: l in s.legs && s.legs[l].pc.Scan? ==> CalmLook(s.legs[l].pc.phase, s.events)
  }

  ghost predicate StaleUnpinned(stale: set<string>, pins: map<string, string>) {
    forall b :: b in stale && IsVMIDName(b) ==> b !in pins
  }

  ghost predicate LookHeeded(phase: Phase, pins: map<string, string>) {
    phase.Look? && phase.name in pins && IsVMIDName(phase.name) ==> !phase.absent
  }

  /** Nothing ignored is pinned, and no pinned guest counts as absent. */
  ghost predicate Heeded(pc: Pc, stale: set<string>, pins: map<string, string>) {
    match pc
    case Scan(section, _, phase) =>
      section && !phase.ListPins? ==> StaleUnpinned(stale, pins) && LookHeeded(phase, pins)
    case Create => StaleUnpinned(stale, pins)
    case Reread => StaleUnpinned(stale, pins)
    case RemoveBlank => StaleUnpinned(stale, pins)
    case Recreate => StaleUnpinned(stale, pins)
    case _ => true
  }

  /** What holds besides the invariant while no guest is destroyed. */
  ghost predicate PeaceInv(s: World) {
    && NoSharedPins(s.pins)
    && PinnedExist(s.pins, s.guests)
    && (forall l :: l in s.legs ==> s.legs[l].vmid in s.guests)
    && (forall e :: e in s.events ==> !e.Destroyed?)
    && (s.lock.Some? && s.lock.value in s.legs ==> Heeded(s.legs[s.lock.value].pc, s.legs[s.lock.value].stale, s.pins))
  }

  lemma HeededFewer(pc: Pc, stale: set<string>, pins: map<string, string>, pins': map<string, string>)
    requires Heeded(pc, stale, pins) && Fewer(pins', pins)
    ensures Heeded(pc, stale, pins')
  {
    hide IsVMIDName;
  }

  lemma PeaceFewer(pins: map<string, string>, pins': map<string, string>, guests: map<string, Place>)
    requires NoSharedPins(pins) && PinnedExist(pins, guests) && Fewer(pins', pins)
    ensures NoSharedPins(pins') && PinnedExist(pins', guests)
  {
    hide IsVMIDName;
  }

  /** Linking a pin that the scan covered shares it with no one. */
  lemma LinkUnshared(l: nat, me: Self, pins: map<string, string>, guests: map<string, Place>, events: seq<Event>)
    requires ReadyToLink(l, me, pins, events) && StaleUnpinned(me.stale, pins)
    requires NoSharedPins(pins) && PinnedExist(pins, guests) && me.vmid in guests
    ensures NoSharedPins(pins[me.vmid := me.fp]) && PinnedExist(pins[me.vmid := me.fp], guests)
  {
    hide IsVMIDName, StaleLogged;
  }

  /** With the guest there, unmoved but once, two looks do not miss it. */
  lemma NotMissed(phase: Phase, pins: map<string, string>, guests: map<string, Place>, events: seq<Event>)
    requires phase.Look? && phase.places == [] && phase.again && LookOk(phase, guests, events)
             && CalmLook(phase, events)
    requires forall e :: e in events ==> !e.Destroyed?
    requires LookHeeded(phase, pins)
    ensures IsVMIDName(phase.name) ==> phase.name !in pins
  {
    hide MoveCount, IsVMIDName;
  }

  ghost predicate HeededHere(s: World, l: nat) {
    l in s.legs && Heeded(s.legs[l].pc, s.legs[l].stale, s.pins)
  }

  lemma GotoHeeded(s: World, l: nat, pc: Pc)
    requires l in s.legs && Heeded(pc, s.legs[l].stale, s.pins)
    ensures HeededHere(Goto(s, l, pc), l)
  {
    hide Heeded;
  }

  /** The scan goes on without a look. */
  lemma HeededOn(pc: Pc, next: Pc, stale: set<string>, pins: map<string, string>)
    requires pc.Scan? && pc.section && !pc.phase.ListPins? && Heeded(pc, stale, pins)
    requires next.Scan? ==> next.phase.Look? ==> LookHeeded(next.phase, pins)
    ensures Heeded(next, stale, pins)
  {
    hide StaleUnpinned;
  }

  lemma SuspectHeeded(cfg: Config, s: World, pc: Pc, name: string, back: Back)
    requires pc.Scan? && PinnedExist(s.pins, s.guests)
    ensures var next := Suspect(cfg, s, pc, name, back);
            next.Scan? ==> next.phase.Look? ==> LookHeeded(next.phase, s.pins)
  {
    hide Places, IsVMIDName;
  }

  lemma IgnoredHeeded(s: World, l: nat)
    requires l in s.legs && s.legs[l].pc.Scan? && s.legs[l].pc.phase.Look?
    requires Heeded(s.legs[l].pc, s.legs[l].stale, s.pins) && s.legs[l].pc.section
    requires IsVMIDName(s.legs[l].pc.phase.name) ==> s.legs[l].pc.phase.name !in s.pins
    ensures var leg, phase := s.legs[l], s.legs[l].pc.phase;
            HeededHere(Log(s.(legs :=
                              s.legs[l := leg.(pc := leg.pc.(phase := Resume(phase.back)),
                                               stale := leg.stale + {phase.name})]),
                           Ignored(l, phase.name, phase.since, phase.absent)), l)
  {
    hide IsVMIDName;
  }

  lemma HeededScan(cfg: Config, s: World, l: nat)
    requires CanAdvance(s, l) && s.legs[l].pc.Scan? && s.legs[l].pc.section
    requires Heeded(s.legs[l].pc, s.legs[l].stale, s.pins) && PinnedExist(s.pins, s.guests)
    requires LookOk(s.legs[l].pc.phase, s.guests, s.events) && CalmLook(s.legs[l].pc.phase, s.events)
    requires forall e :: e in s.events ==> !e.Destroyed?
    ensures HeededHere(ScanNext(cfg, s, l), l)
  {
    hide Goto, Log, Heeded, HeededHere, LookOk, CalmLook, Suspect, InventoryHas, Places, ClusterPin, Content,
         PinnedExist, IsVMIDName, ScanEnds;
    var leg := s.legs[l];
    var pc, phase := leg.pc, leg.pc.phase;
    HeededEnds(cfg, s, l);
    HeededLook(pc, leg.stale, s.pins);
    forall next: Pc | next.Scan? ==> next.phase.Look? ==> LookHeeded(next.phase, s.pins)
      ensures HeededHere(Goto(s, l, next), l)
    {
      HeededOn(pc, next, leg.stale, s.pins);
      GotoHeeded(s, l, next);
    }
    if phase.Look? {
      if phase.places == [] && phase.again {
        NotMissed(phase, s.pins, s.guests, s.events);
        IgnoredHeeded(s, l);
      }
    } else if phase.Pins? && phase.todo != [] {
      SuspectHeeded(cfg, s, pc, phase.todo[0], ToPins(phase.todo[1..]));
    } else if phase.Suspects? && phase.todo != [] {
      SuspectHeeded(cfg, s, pc, phase.todo[0], ToSuspects(phase.todo[1..]));
    }
  }

  lemma HeededEnds(cfg: Config, s: World, l: nat)
    requires l in s.legs && s.legs[l].pc.Scan? && s.legs[l].pc.section && !s.legs[l].pc.phase.ListPins?
    requires Heeded(s.legs[l].pc, s.legs[l].stale, s.pins)
    ensures HeededHere(ScanEnds(cfg, s, l), l)
  {
    hide Goto, Heeded, HeededHere;
    var leg := s.legs[l];
    HeededOn(leg.pc, ScanDone(leg, leg.pc), leg.stale, s.pins);
    GotoHeeded(s, l, ScanDone(leg, leg.pc));
    HeededLogged(Goto(s, l, ScanDone(leg, leg.pc)), l, ClearOf(cfg, s, l));
  }

  lemma HeededLogged(s: World, l: nat, e: Event)
    requires HeededHere(s, l)
    ensures HeededHere(Log(s, e), l)
  {
    hide Heeded;
  }

  lemma HeededLook(pc: Pc, stale: set<string>, pins: map<string, string>)
    requires pc.Scan? && pc.section && !pc.phase.ListPins? && Heeded(pc, stale, pins)
    ensures LookHeeded(pc.phase, pins) && StaleUnpinned(stale, pins)
  {
    hide StaleUnpinned, LookHeeded;
  }

  lemma HeededCreate(s: World, l: nat, again: bool)
    requires l in s.legs && Heeded(Reread, s.legs[l].stale, s.pins)
    ensures HeededHere(CreateNext(s, l, again), l)
  {
    hide StaleUnpinned;
  }

  lemma HeededRemove(s: World, l: nat)
    requires l in s.legs && Heeded(RemoveBlank, s.legs[l].stale, s.pins)
    ensures HeededHere(RemoveNext(s, l), l)
  {
    HeededFewer(RemoveBlank, s.legs[l].stale, s.pins, s.pins - {s.legs[l].vmid});
  }

  lemma HeededEarly(cfg: Config, s: World, l: nat)
    requires l in s.legs
    ensures HeededHere(AcquireNext(s, l), l) && HeededHere(LockedClusterNext(cfg, s, l), l)
            && HeededHere(LockedOwnNext(s, l), l)
    ensures s.legs[l].pc.Settled? ==> HeededHere(ReleaseNext(s, l), l)
  {
    hide Goto, ClusterPin, Content, StaleUnpinned;
    forall pc: Pc | Heeded(pc, s.legs[l].stale, s.pins) ensures HeededHere(Goto(s, l, pc), l) {
      GotoHeeded(s, l, pc);
    }
  }

  lemma HeededReread(s: World, l: nat)
    requires l in s.legs && Heeded(Reread, s.legs[l].stale, s.pins)
    ensures HeededHere(Goto(s, l, RemoveBlank), l)
  {
    hide Goto, HeededHere, StaleUnpinned;
    GotoHeeded(s, l, RemoveBlank);
  }

  lemma HeededAs(pc: Pc, stale: set<string>, pins: map<string, string>)
    requires Heeded(pc, stale, pins) && (pc.Create? || pc.Recreate?)
    ensures Heeded(Reread, stale, pins) && StaleUnpinned(stale, pins)
  {
    hide StaleUnpinned;
  }

  lemma HeededAdvance(cfg: Config, s: World, l: nat)
    requires CanAdvance(s, l) && Inv(cfg, s) && PeaceInv(s) && Calm(s)
             && (InSection(s.legs[l].pc) || s.legs[l].pc.WaitLock?)
    ensures HeededHere(Advance(cfg, s, l), l)
  {
    hide Inv, Heeded, HeededHere, ScanNext, TakeNext, AcquireNext, LockedClusterNext, LockedOwnNext, CreateNext,
         RereadNext, RemoveNext, ReleaseNext, IssueNext, Goto, Vet, CheckOf, ClusterPin, Content, Held, ReadyToLink,
         Bound, LookOk, CalmLook, HistoryOk, NoSharedPins, PinnedExist, LockInv;
    LegFacts(cfg, s, l);
    InvParts(cfg, s);
    LockOf(s, l);
    HeededEarly(cfg, s, l);
    match s.legs[l].pc
    case Scan(_, _, _) => HeededScan(cfg, s, l);
    case Create => HeededAs(Create, s.legs[l].stale, s.pins); HeededCreate(s, l, false);
    case Reread => HeldReread(cfg, s, l); HeededReread(s, l);
    case RemoveBlank => HeededRemove(s, l);
    case Recreate => HeededAs(Recreate, s.legs[l].stale, s.pins); HeededCreate(s, l, true);
    case _ =>
  }

  ghost predicate PinsOk(s: World) {
    NoSharedPins(s.pins) && PinnedExist(s.pins, s.guests)
  }

  lemma PinsCreate(s: World, l: nat, again: bool)
    requires l in s.legs && PinsOk(s) && ReadyToLink(l, s.legs[l].Me(), s.pins, s.events)
    requires StaleUnpinned(s.legs[l].stale, s.pins) && s.legs[l].vmid in s.guests
    ensures PinsOk(CreateNext(s, l, again))
  {
    hide Goto, ReadyToLink, NoSharedPins, PinnedExist, StaleUnpinned;
    LinkUnshared(l, s.legs[l].Me(), s.pins, s.guests, s.events);
    GotoLeaves(s, l, if again then Over else Reread);
    GotoGuests(s, l, if again then Over else Reread);
  }

  lemma GotoGuests(s: World, l: nat, pc: Pc)
    requires l in s.legs
    ensures Goto(s, l, pc).guests == s.guests
  {
  }

  lemma PinsRemove(s: World, l: nat)
    requires l in s.legs && PinsOk(s)
    ensures PinsOk(RemoveNext(s, l))
  {
    hide NoSharedPins, PinnedExist;
    PeaceFewer(s.pins, s.pins - {s.legs[l].vmid}, s.guests);
  }

  lemma PinsSame(s: World, s': World)
    requires PinsOk(s) && s'.pins == s.pins && s'.guests == s.guests
    ensures PinsOk(s')
  {
    hide NoSharedPins, PinnedExist;
  }

  lemma PinsAdvance(cfg: Config, s: World, l: nat)
    requires CanAdvance(s, l) && Inv(cfg, s) && PeaceInv(s)
    ensures PinsOk(Advance(cfg, s, l))
  {
    hide Inv, Heeded, PinsOk, Quiet, ScanNext, TakeNext, AcquireNext, LockedClusterNext, LockedOwnNext, CreateNext,
         RereadNext, RemoveNext, ReleaseNext, IssueNext, Goto, Vet, CheckOf, ClusterPin, Content, Held, ReadyToLink,
         Bound, LookOk, HistoryOk, LockInv, LegFrame, NoSharedPins, PinnedExist;
    var s' := Advance(cfg, s, l);
    LegFacts(cfg, s, l);
    InvParts(cfg, s);
    LockOf(s, l);
    PeacePins(s);
    AdvanceFrame(cfg, s, l);
    FrameParts(s, s', l);
    if !InSection(s.legs[l].pc) {
      OutsideFrame(cfg, s, l);
      QuietPins(s, s');
      PinsSame(s, s');
    } else {
      match s.legs[l].pc
      case Scan(_, _, _) => ScanQuiet(cfg, s, l); QuietPins(s, ScanNext(cfg, s, l)); PinsSame(s, s');
      case LockedCluster => LockedClusterLeaves(cfg, s, l); PinsSame(s, s');
      case LockedOwn => OwnLeaves(s, l); PinsSame(s, s');
      case Create => HeededAs(Create, s.legs[l].stale, s.pins); PinsCreate(s, l, false);
      case Reread => HeldReread(cfg, s, l); GotoLeaves(s, l, RemoveBlank); PinsSame(s, s');
      case RemoveBlank => PinsRemove(s, l);
      case Recreate => HeededAs(Recreate, s.legs[l].stale, s.pins); PinsCreate(s, l, true);
      case Settled(_) => ReleaseLeaves(s, l); PinsSame(s, s');
      case _ =>
    }
  }

  lemma PeacePins(s: World)
    requires PeaceInv(s)
    ensures PinsOk(s)
  {
    hide NoSharedPins, PinnedExist, Heeded;
  }

  lemma QuietPins(s: World, s': World)
    requires Quiet(s, s')
    ensures s'.pins == s.pins
  {
  }

  lemma PeaceAdvance(cfg: Config, s: World, l: nat)
    requires CanAdvance(s, l) && Inv(cfg, s) && PeaceInv(s) && Calm(s)
    ensures PeaceInv(Advance(cfg, s, l))
  {
    hide Inv, Calm, Advance, Heeded, NoSharedPins, PinnedExist, LockInv, Quiet, InSection, CanAdvance;
    var s' := Advance(cfg, s, l);
    InvParts(cfg, s);
    AdvanceFrame(cfg, s, l);
    LockOf(s, l);
    PinsAdvance(cfg, s, l);
    AdvanceGrows(cfg, s, l);
    if s'.lock.Some? && s'.lock.value in s'.legs {
      if InSection(s'.legs[l].pc) {
        if !InSection(s.legs[l].pc) && !s.legs[l].pc.WaitLock? {
          OutsideStays(cfg, s, l);
        } else {
          HeededAdvance(cfg, s, l);
        }
      } else {
        if !InSection(s.legs[l].pc) {
          OutsideFrame(cfg, s, l);
          QuietPins(s, s');
        }
      }
    }
  }

  /** Steps that only take pin files away, and leave the section's leg alone. */
  lemma PeaceKept(s: World, s': World)
    requires PeaceInv(s) && Fewer(s'.pins, s.pins)
    requires forall g :: g in s.guests ==> g in s'.guests
    requires forall l :: l in s'.legs ==> s'.legs[l].vmid in s'.guests
    requires forall e :: e in s'.events ==> !e.Destroyed?
    requires s'.lock.Some? && s'.lock.value in s'.legs ==>
               s'.lock == s.lock && s'.lock.value in s.legs && s'.legs[s'.lock.value] == s.legs[s'.lock.value]
    ensures PeaceInv(s')
  {
    hide Heeded, NoSharedPins, Fewer;
    PeaceFewer(s.pins, s'.pins, s.guests);
    StillExist(s'.pins, s.guests, s'.guests);
    if s'.lock.Some? && s'.lock.value in s'.legs {
      HeededFewer(s.legs[s.lock.value].pc, s.legs[s.lock.value].stale, s.pins, s'.pins);
    }
  }

  lemma StillExist(pins: map<string, string>, guests: map<string, Place>, guests': map<string, Place>)
    requires PinnedExist(pins, guests) && forall g :: g in guests ==> g in guests'
    ensures PinnedExist(pins, guests')
  {
    hide IsVMIDName;
  }

  lemma SameIsFewer(pins: map<string, string>)
    ensures Fewer(pins, pins)
  {
  }

  lemma PeaceOver(cfg: Config, s: World, l: nat)
    requires Inv(cfg, s) && l in s.legs && PeaceInv(s)
    ensures PeaceInv(Goto(s, l, Over))
  {
    hide Inv, Heeded, NoSharedPins, PinnedExist, LockInv;
    InvParts(cfg, s);
    LockOf(s, l);
    PeaceKept(s, Goto(s, l, Over));
  }

  lemma PeaceList(cfg: Config, s: World, l: nat, names: seq<string>)
    requires Inv(cfg, s) && PeaceInv(s) && AtPhase(s, l, ListPins)
    ensures PeaceInv(ListNext(s, l, names))
  {
    hide Inv, ListNext, NoSharedPins, PinnedExist;
    ListFields(s, l, names);
    ListLeaves(s, l, names);
    NoneStale(s.legs[l].pc.(phase := Pins(names)), s.pins);
  }

  lemma NoneStale(pc: Pc, pins: map<string, string>)
    requires pc.Scan? && pc.phase.Pins?
    ensures Heeded(pc, {}, pins)
  {
  }

  lemma PeaceListCluster(cfg: Config, s: World, l: nat, names: seq<string>)
    requires Inv(cfg, s) && PeaceInv(s) && AtPhase(s, l, ListClusterPins)
    ensures PeaceInv(ListNext(s, l, names))
  {
    hide Inv, NoSharedPins, PinnedExist, StaleUnpinned;
  }

  lemma PeacePut(cfg: Config, s: World, l: nat, sid: string, nonce: nat)
    requires Inv(cfg, s) && PeaceInv(s) && l in s.legs && s.legs[l].pc.PutSession?
    ensures PeaceInv(PutNext(s, l, sid, nonce))
  {
    hide Inv, NoSharedPins, PinnedExist, LockInv, Heeded, PutNext;
    InvParts(cfg, s);
    PutFields(s, l, sid, nonce);
    SameIsFewer(s.pins);
    LockOf(s, l);
    PeaceKept(s, PutNext(s, l, sid, nonce));
  }

  lemma PeaceDelete(s: World, vmid: string)
    requires PeaceInv(s)
    ensures PeaceInv(Log(s.(pins := s.pins - {vmid}), Deleted(vmid)))
  {
    hide NoSharedPins, PinnedExist, Heeded;
    PeaceKept(s, Log(s.(pins := s.pins - {vmid}), Deleted(vmid)));
  }

  lemma PeaceArrive(cfg: Config, s: World, l: nat, leg: Leg)
    requires Inv(cfg, s) && PeaceInv(s) && l !in s.legs && leg.vmid in s.guests
    ensures PeaceInv(s.(legs := s.legs[l := leg]))
  {
    hide Inv, NoSharedPins, PinnedExist, Heeded, Fewer;
    InvParts(cfg, s);
    SameIsFewer(s.pins);
    PeaceKept(s, s.(legs := s.legs[l := leg]));
  }

  /** Pin files, requests and the section stay; guests stay or join. */
  lemma PeaceEnvironment(s: World, s': World)
    requires PeaceInv(s) && s'.pins == s.pins && s'.legs == s.legs && s'.lock == s.lock
    requires forall g :: g in s.guests ==> g in s'.guests
    requires s'.events == s.events
             || (|s'.events| > 0 && s'.events[..|s'.events| - 1] == s.events && !s'.events[|s'.events| - 1].Destroyed?)
    ensures PeaceInv(s')
  {
    hide NoSharedPins, PinnedExist, Heeded, Fewer;
    SameIsFewer(s.pins);
    PeaceKept(s, s');
  }

  lemma PeaceStep(cfg: Config, s: World, step: Step)
    requires Inv(cfg, s) && Enabled(cfg, s, step) && PeaceInv(s) && Calm(s) && Peaceful(s, step)
    ensures PeaceInv(After(cfg, s, step))
  {
    hide Inv, Calm, Advance, PutNext, ListNext, Goto, NoSharedPins, PinnedExist, Heeded, Places, FreshSession,
         IsListing, CanAdvance, Fewer, IsFingerprint, IsVMIDName;
    SameIsFewer(s.pins);
    match step
    case Arrive(l, kind, vmid, fp, inv, sid, response) =>
      PeaceArrive(cfg, s, l, NewLeg(kind, vmid, fp, inv, sid, response));
    case Advances(l) => PeaceAdvance(cfg, s, l);
    case Lists(l, names) =>
      if AtPhase(s, l, ListPins) {
        PeaceList(cfg, s, l, names);
      } else {
        PeaceListCluster(cfg, s, l, names);
      }
    case Doubts(l) => PeaceOver(cfg, s, l);
    case Fails(l) => PeaceOver(cfg, s, l);
    case Puts(l, sid, nonce) => PeacePut(cfg, s, l, sid, nonce);
    case OperatorDeletes(vmid) => PeaceDelete(s, vmid);
    case Destroys(vmid) =>
    case _ => PeaceEnvironment(s, After(cfg, s, step));
  }

  /** While no guest is destroyed, requests come from guests, and no guest moves
      twice within one call of guestExists, no two VMs' pin files ever hold one
      fingerprint. */
  lemma {:induction false} NoTwoVMsShareAPin(cfg: Config, worlds: seq<World>, steps: seq<Step>, n: nat)
    requires IsRun(cfg, worlds, steps) && n < |worlds|
    requires NoSharedPins(worlds[0].pins) && PinnedExist(worlds[0].pins, worlds[0].guests)
    requires forall i :: 0 <= i < |steps| ==> Peaceful(worlds[i], steps[i])
    requires forall i :: 0 <= i < |worlds| ==> Calm(worlds[i])
    ensures NoSharedPins(worlds[n].pins)
    ensures PeaceInv(worlds[n])
  {
    hide Inv, Enabled, After, Peaceful, Calm;
    if n > 0 {
      NoTwoVMsShareAPin(cfg, worlds, steps, n - 1);
      RunKeeps(cfg, worlds, steps, n - 1);
      PeaceStep(cfg, worlds[n - 1], steps[n - 1]);
    }
  }
}
