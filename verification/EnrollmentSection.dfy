/** What the legs of the enrolment protocol know, and what others do meanwhile. */
module EnrollmentSection {
  import opened Options
  import opened Enrollment

  // ----- histories grow

  lemma AppendLog(events: seq<Event>, e: Event)
    requires LogOk(events) && EntryOk(events, e)
    ensures LogOk(events + [e])
  {
    hide EntryOk;
    var more := events + [e];
    forall n | 0 <= n < |more| ensures EntryOk(more[..n], more[n]) {
      if n < |events| {
        assert more[..n] == events[..n] && EntryOk(events[..n], events[n]);
      } else {
        assert more[..n] == events;
      }
    }
  }

  lemma DeletedGrows(events: seq<Event>, e: Event, n: nat, vmid: string)
    ensures DeletedSince(events + [e], n, vmid) <==>
            DeletedSince(events, n, vmid) || (n <= |events| && e == Deleted(vmid))
  {
    if DeletedSince(events, n, vmid) {
      var k :| n <= k < |events| && events[k] == Deleted(vmid);
      assert (events + [e])[k] == Deleted(vmid);
    }
    if n <= |events| && e == Deleted(vmid) {
      assert (events + [e])[|events|] == Deleted(vmid);
    }
  }

  lemma TouchedGrows(events: seq<Event>, e: Event, n: nat, vmid: string)
    ensures TouchedSince(events + [e], n, vmid) <==>
            TouchedSince(events, n, vmid) || (n <= |events| && e == ClusterTouched(vmid))
  {
    if TouchedSince(events, n, vmid) {
      var k :| n <= k < |events| && events[k] == ClusterTouched(vmid);
      assert (events + [e])[k] == ClusterTouched(vmid);
    }
    if n <= |events| && e == ClusterTouched(vmid) {
      assert (events + [e])[|events|] == ClusterTouched(vmid);
    }
  }

  lemma DestroyedGrows(events: seq<Event>, e: Event, n: nat, vmid: string)
    ensures DestroyedSince(events + [e], n, vmid) <==>
            DestroyedSince(events, n, vmid) || (n <= |events| && e == Destroyed(vmid))
  {
    if DestroyedSince(events, n, vmid) {
      var k :| n <= k < |events| && events[k] == Destroyed(vmid);
      assert (events + [e])[k] == Destroyed(vmid);
    }
    if n <= |events| && e == Destroyed(vmid) {
      assert (events + [e])[|events|] == Destroyed(vmid);
    }
  }

  lemma MovesGrow(events: seq<Event>, e: Event, n: nat, vmid: string)
    requires n <= |events|
    ensures MoveCount((events + [e])[n..], vmid) == MoveCount(events[n..], vmid) + if e == Moved(vmid) then 1 else 0
  {
    var more := (events + [e])[n..];
    assert more == events[n..] + [e];
    assert more[..|more| - 1] == events[n..];
  }

  lemma IgnoredGrows(events: seq<Event>, e: Event, entered: nat, l: nat, vmid: string)
    requires IgnoredSince(events, entered, l, vmid)
    ensures IgnoredSince(events + [e], entered, l, vmid)
  {
    var k :| entered <= k < |events| && IsIgnored(events[k], l, vmid);
    assert (events + [e])[k] == events[k];
  }

  // ----- the pins on disk

  /** A new event that witnesses nothing, or what the pin file holds. */
  lemma WitnessMore(pins: map<string, string>, events: seq<Event>, e: Event)
    requires WitnessInv(pins, events)
    requires e.Witness? || e.Created? ==> e.fp != "" && e.vmid in pins && pins[e.vmid] == e.fp
    ensures WitnessInv(pins, events + [e])
  {
    hide DeletedSince;
    var more := events + [e];
    forall n, vmid, fp | 0 <= n < |more| && IsWitness(more[n], vmid, fp)
      ensures fp != "" && (DeletedSince(more, n, vmid) || (vmid in pins && pins[vmid] == fp))
    {
      if n < |events| {
        assert IsWitness(events[n], vmid, fp);
        DeletedGrows(events, e, n, vmid);
      }
    }
  }

  /** Another witness of what the file holds now contradicts none. */
  lemma WitnessAgrees(pins: map<string, string>, events: seq<Event>, vmid: string, fp: string)
    requires WitnessInv(pins, events)
    requires vmid in pins ==> pins[vmid] == fp
    ensures NoOtherWitness(events, vmid, fp)
  {
  }

  lemma WitnessLinked(pins: map<string, string>, events: seq<Event>, vmid: string, fp: string)
    requires WitnessInv(pins, events) && vmid !in pins
    ensures WitnessInv(pins[vmid := fp], events)
  {
  }

  lemma WitnessUnlinked(pins: map<string, string>, events: seq<Event>, vmid: string)
    requires WitnessInv(pins, events) && Blank(pins, vmid)
    ensures WitnessInv(pins - {vmid}, events)
  {
  }

  lemma WitnessDeleted(pins: map<string, string>, events: seq<Event>, vmid: string)
    requires WitnessInv(pins, events)
    ensures WitnessInv(pins - {vmid}, events + [Deleted(vmid)])
  {
    hide DeletedSince;
    var more := events + [Deleted(vmid)];
    forall n, v, fp | 0 <= n < |more| && IsWitness(more[n], v, fp)
      ensures fp != "" && (DeletedSince(more, n, v) || (v in pins - {vmid} && (pins - {vmid})[v] == fp))
    {
      assert n < |events| && IsWitness(events[n], v, fp);
      DeletedGrows(events, Deleted(vmid), n, v);
    }
  }

  // ----- looks

  lemma LookGrows(phase: Phase, guests: map<string, Place>, events: seq<Event>, e: Event)
    requires LookOk(phase, guests, events)
    ensures LookOk(phase, guests, events + [e])
  {
    hide Ahead, MoveCount, DestroyedSince;
    if phase.Look? {
      DestroyedGrows(events, e, phase.since, phase.name);
      MovesGrow(events, e, phase.since, phase.name);
      AheadMore(phase, guests, MoveCount(events[phase.since..], phase.name));
    }
  }

  lemma AheadMore(phase: Phase, guests: map<string, Place>, moves: nat)
    requires phase.Look?
    ensures Ahead(phase, guests, moves) ==> Ahead(phase, guests, moves + 1)
  {
  }

  lemma LooksGrow(legs: map<nat, Leg>, guests: map<string, Place>, events: seq<Event>, e: Event)
    requires LooksInv(legs, guests, events)
    ensures LooksInv(legs, guests, events + [e])
  {
    hide LookOk;
    forall l | l in legs && legs[l].pc.Scan? ensures LookOk(legs[l].pc.phase, guests, events + [e]) {
      LookGrows(legs[l].pc.phase, guests, events, e);
    }
  }

  /** One leg changed. */
  lemma LooksOne(legs: map<nat, Leg>, guests: map<string, Place>, events: seq<Event>, l: nat, leg: Leg)
    requires LooksInv(legs, guests, events)
    requires leg.pc.Scan? ==> LookOk(leg.pc.phase, guests, events)
    ensures LooksInv(legs[l := leg], guests, events)
  {
    hide LookOk;
  }

  lemma LookMoved(phase: Phase, guests: map<string, Place>, events: seq<Event>, vmid: string, place: Place)
    requires LookOk(phase, guests, events) && vmid in guests
    ensures LookOk(phase, guests[vmid := place], events + [Moved(vmid)])
  {
    hide MoveCount, DestroyedSince;
    if phase.Look? {
      DestroyedGrows(events, Moved(vmid), phase.since, phase.name);
      MovesGrow(events, Moved(vmid), phase.since, phase.name);
    }
  }

  lemma LookDestroyed(phase: Phase, guests: map<string, Place>, events: seq<Event>, vmid: string)
    requires LookOk(phase, guests, events)
    ensures LookOk(phase, guests - {vmid}, events + [Destroyed(vmid)])
  {
    hide MoveCount, DestroyedSince;
    if phase.Look? {
      DestroyedGrows(events, Destroyed(vmid), phase.since, phase.name);
      MovesGrow(events, Destroyed(vmid), phase.since, phase.name);
    }
  }

  lemma LookAdded(phase: Phase, guests: map<string, Place>, events: seq<Event>, vmid: string, place: Place)
    requires LookOk(phase, guests, events) && vmid !in guests
    ensures LookOk(phase, guests[vmid := place], events)
  {
    hide MoveCount, DestroyedSince;
  }

  /** A look begins at the first place. */
  lemma LookBegins(cfg: Config, guests: map<string, Place>, events: seq<Event>, name: string, back: Back)
    requires GuestsInv(cfg, guests)
    ensures LookOk(Look(name, false, Places(cfg.nodes), |events|, name !in guests, back), guests, events)
  {
    hide Places;
    assert events[|events|..] == [];
  }

  /** The place looked at does not have the guest. */
  lemma LookOn(guests: map<string, Place>, events: seq<Event>, phase: Phase)
    requires phase.Look? && phase.places != [] && LookOk(phase, guests, events)
    requires !(phase.name in guests && guests[phase.name] == phase.places[0])
    ensures LookOk(phase.(places := phase.places[1..]), guests, events)
  {
    hide MoveCount, DestroyedSince;
  }

  /** The second look begins. */
  lemma LookAgain(cfg: Config, guests: map<string, Place>, events: seq<Event>, phase: Phase)
    requires GuestsInv(cfg, guests)
    requires phase.Look? && phase.places == [] && !phase.again && LookOk(phase, guests, events)
    ensures LookOk(phase.(again := true, places := Places(cfg.nodes)), guests, events)
  {
    hide MoveCount, DestroyedSince, Places;
  }

  /** Both looks found nothing. */
  lemma LookEnds(guests: map<string, Place>, events: seq<Event>, l: nat, phase: Phase)
    requires phase.Look? && phase.places == [] && phase.again && LookOk(phase, guests, events)
    ensures EntryOk(events, Ignored(l, phase.name, phase.since, phase.absent))
  {
    hide MoveCount, DestroyedSince;
  }

  // ----- the critical section, and what others do meanwhile

  ghost predicate Fewer(after: map<string, string>, before: map<string, string>) {
    forall b :: b in after ==> b in before && after[b] == before[b]
  }

  lemma SeenGrows(vmid: string, fp: string, mark: nat, pins: map<string, string>, pins': map<string, string>,
                  events: seq<Event>, e: Event)
    requires Seen(vmid, fp, mark, pins, events) && Fewer(pins', pins)
    requires e == Deleted(vmid) ==> vmid !in pins'
    ensures Seen(vmid, fp, mark, pins', events + [e])
  {
    hide DeletedSince;
    DeletedGrows(events, e, mark, vmid);
  }

  lemma StaleGrows(l: nat, entered: nat, stale: set<string>, events: seq<Event>, e: Event)
    requires StaleLogged(l, entered, stale, events)
    ensures StaleLogged(l, entered, stale, events + [e])
  {
    hide IgnoredSince;
    forall b | b in stale ensures IgnoredSince(events + [e], entered, l, b) {
      IgnoredGrows(events, e, entered, l, b);
    }
  }

  lemma CoveredFewer(pins: map<string, string>, pins': map<string, string>, vmid: string, fp: string,
                     pending: seq<string>, stale: set<string>)
    requires Covered(pins, vmid, fp, pending, stale) && Fewer(pins', pins)
    ensures Covered(pins', vmid, fp, pending, stale)
  {
  }

  lemma SettledGrows(cfg: Config, leg: Leg, path: Path, pins: map<string, string>, pins': map<string, string>,
                     clusterPins: map<string, string>, clusterPins': map<string, string>, events: seq<Event>, e: Event)
    requires SettledOk(cfg, leg, path, pins, clusterPins, events) && Fewer(pins', pins)
    requires e == Deleted(leg.vmid) ==> leg.vmid !in pins'
    requires e == ClusterTouched(leg.vmid) || (leg.vmid in clusterPins <==> leg.vmid in clusterPins')
    requires e != ClusterTouched(leg.vmid) && leg.vmid in clusterPins ==>
               clusterPins'[leg.vmid] == clusterPins[leg.vmid]
    ensures SettledOk(cfg, leg, path, pins', clusterPins', events + [e])
  {
    hide TouchedSince, Seen, ParseClusterPin;
    match path
    case ByLocal(mark) => SeenGrows(leg.vmid, leg.fp, mark, pins, pins', events, e);
    case ByCluster(read) => TouchedGrows(events, e, read, leg.vmid);
    case NoStore =>
    case ByInventory =>
  }

  lemma ScanGrows(l: nat, me: Self, existing: string, phase: Phase, pins: map<string, string>,
                  pins': map<string, string>, events: seq<Event>, e: Event)
    requires ScanOk(l, me, existing, phase, pins, events) && Fewer(pins', pins)
    requires e == Deleted(me.vmid) ==> me.vmid !in pins'
    ensures ScanOk(l, me, existing, phase, pins', events + [e])
  {
    hide Seen, StaleLogged, Covered, Pending;
    if existing != "" {
      SeenGrows(me.vmid, me.fp, me.mark, pins, pins', events, e);
    }
    if !phase.ListPins? {
      CoveredFewer(pins, pins', me.vmid, me.fp, Pending(phase), me.stale);
      StaleGrows(l, me.entered, me.stale, events, e);
    }
  }

  lemma ReadyGrows(l: nat, me: Self, pins: map<string, string>, pins': map<string, string>, events: seq<Event>,
                   e: Event)
    requires ReadyToLink(l, me, pins, events) && Fewer(pins', pins)
    ensures ReadyToLink(l, me, pins', events + [e])
  {
    hide Covered, StaleLogged;
    CoveredFewer(pins, pins', me.vmid, me.fp, [], me.stale);
    StaleGrows(l, me.entered, me.stale, events, e);
  }

  /** Others add events, delete pin files and change cluster pins. */
  lemma HeldGrows(cfg: Config, l: nat, leg: Leg, pins: map<string, string>, pins': map<string, string>,
                  clusterPins: map<string, string>, clusterPins': map<string, string>, events: seq<Event>, e: Event)
    requires Held(cfg, l, leg, pins, clusterPins, events) && Fewer(pins', pins)
    requires e == Deleted(leg.vmid) ==> leg.vmid !in pins'
    requires e == ClusterTouched(leg.vmid) || (leg.vmid in clusterPins <==> leg.vmid in clusterPins')
    requires e != ClusterTouched(leg.vmid) && leg.vmid in clusterPins ==>
               clusterPins'[leg.vmid] == clusterPins[leg.vmid]
    ensures Held(cfg, l, leg, pins', clusterPins', events + [e])
  {
    hide ScanOk, ReadyToLink, SettledOk;
    match leg.pc
    case Scan(section, existing, phase) =>
      if section {
        ScanGrows(l, leg.Me(), existing, phase, pins, pins', events, e);
      }
    case Create => ReadyGrows(l, leg.Me(), pins, pins', events, e);
    case Reread => ReadyGrows(l, leg.Me(), pins, pins', events, e);
    case RemoveBlank => ReadyGrows(l, leg.Me(), pins, pins', events, e);
    case Recreate => ReadyGrows(l, leg.Me(), pins, pins', events, e);
    case Settled(path) => SettledGrows(cfg, leg, path, pins, pins', clusterPins, clusterPins', events, e);
    case _ =>
  }

  // ----- the critical section's own actions

  /** What one action of the leg in the section leaves for it. */
  ghost predicate HeldAfter(cfg: Config, s': World, l: nat) {
    l in s'.legs && (InSection(s'.legs[l].pc) ==> Held(cfg, l, s'.legs[l], s'.pins, s'.clusterPins, s'.events))
  }

  lemma HeldAcquire(cfg: Config, s: World, l: nat)
    requires l in s.legs
    ensures HeldAfter(cfg, AcquireNext(s, l), l)
  {
  }

  lemma HeldLockedCluster(cfg: Config, s: World, l: nat)
    requires l in s.legs && s.legs[l].pc.LockedCluster? && s.legs[l].entered <= |s.events|
    ensures HeldAfter(cfg, LockedClusterNext(cfg, s, l), l)
  {
    hide Seen, ParseClusterPin;
  }

  lemma HeldLockedOwn(cfg: Config, s: World, l: nat)
    requires l in s.legs && s.legs[l].pc.LockedOwn? && Held(cfg, l, s.legs[l], s.pins, s.clusterPins, s.events)
    ensures HeldAfter(cfg, LockedOwnNext(s, l), l)
  {
    hide Covered, StaleLogged, IsFingerprint, DeletedSince;
    NotDeletedYet(s.events, Witness(l, s.legs[l].vmid, s.legs[l].fp), s.legs[l].vmid);
  }

  lemma NotDeletedYet(events: seq<Event>, e: Event, vmid: string)
    requires e != Deleted(vmid)
    ensures !DeletedSince(events + [e], |events|, vmid)
  {
  }

  /** What is left to read shrinks only by names that do not matter. */
  lemma CoveredStep(pins: map<string, string>, vmid: string, fp: string, pending: seq<string>, stale: set<string>,
                    pending': seq<string>, stale': set<string>)
    requires Covered(pins, vmid, fp, pending, stale) && stale <= stale'
    requires forall b :: b in pending && b in pins && pins[b] == fp ==> b in pending' || b in stale'
    ensures Covered(pins, vmid, fp, pending', stale')
  {
  }

  lemma ScanPins(l: nat, me: Self, existing: string, todo: seq<string>, next: Phase, pins: map<string, string>,
                 events: seq<Event>)
    requires ScanOk(l, me, existing, Pins(todo), pins, events) && !next.ListPins? && me.fp != ""
    requires if todo == [] then Pending(next) == []
             else if Content(pins, todo[0]) == me.fp then Pending(next) == [todo[0]] + todo[1..]
             else next == Pins(todo[1..])
    ensures ScanOk(l, me, existing, next, pins, events)
  {
    hide Seen, StaleLogged, Covered;
    CoveredStep(pins, me.vmid, me.fp, todo, me.stale, Pending(next), me.stale);
  }

  lemma ScanOn(l: nat, me: Self, existing: string, phase: Phase, next: Phase, pins: map<string, string>,
               events: seq<Event>)
    requires ScanOk(l, me, existing, phase, pins, events) && !phase.ListPins? && !next.ListPins?
    requires Pending(phase) == [] || Pending(next) == Pending(phase)
    ensures ScanOk(l, me, existing, next, pins, events)
  {
    hide Seen, StaleLogged;
  }

  lemma ScanListed(l: nat, me: Self, existing: string, names: seq<string>, pins: map<string, string>,
                   events: seq<Event>)
    requires ScanOk(l, me, existing, ListPins, pins, events)
    requires IsListing(names, pins, me.vmid)
    ensures ScanOk(l, me.(stale := {}), existing, Pins(names), pins, events)
  {
    hide DeletedSince;
  }

  lemma ScanIgnored(l: nat, me: Self, existing: string, phase: Phase, pins: map<string, string>, events: seq<Event>)
    requires phase.Look? && ScanOk(l, me, existing, phase, pins, events) && me.entered <= |events|
    ensures ScanOk(l, me.(stale := me.stale + {phase.name}), existing, Resume(phase.back), pins,
                   events + [Ignored(l, phase.name, phase.since, phase.absent)])
  {
    hide IgnoredSince, Covered, Seen;
    var e := Ignored(l, phase.name, phase.since, phase.absent);
    var stale := me.stale + {phase.name};
    if existing != "" {
      SeenGrows(me.vmid, me.fp, me.mark, pins, pins, events, e);
    }
    CoveredStep(pins, me.vmid, me.fp, Pending(phase), me.stale, Pending(Resume(phase.back)), stale);
    StaleGrows(l, me.entered, me.stale, events, e);
    IgnoredNow(l, me.entered, events, e);
  }

  lemma IgnoredNow(l: nat, entered: nat, events: seq<Event>, e: Event)
    requires entered <= |events| && e.Ignored? && e.leg == l
    ensures IgnoredSince(events + [e], entered, l, e.vmid)
  {
    assert IsIgnored((events + [e])[|events|], l, e.vmid);
  }

  lemma FingerprintNotBlank(fp: string)
    requires IsFingerprint(fp)
    ensures fp != ""
  {
  }

  lemma ScanFinished(l: nat, me: Self, existing: string, pins: map<string, string>, events: seq<Event>)
    requires ScanOk(l, me, existing, InventoryPins, pins, events)
    ensures existing == "" ==> ReadyToLink(l, me, pins, events)
    ensures existing != "" ==> Seen(me.vmid, me.fp, me.mark, pins, events)
  {
    hide Covered, IgnoredSince, DeletedSince;
  }

  lemma HeldScanParts(cfg: Config, l: nat, leg: Leg, pins: map<string, string>, clusterPins: map<string, string>,
                      events: seq<Event>)
    requires Held(cfg, l, leg, pins, clusterPins, events) && leg.pc.Scan? && leg.pc.section
    ensures cfg.pinDir && leg.entered <= |events| && ScanOk(l, leg.Me(), leg.pc.existing, leg.pc.phase, pins, events)
  {
    hide ScanOk;
  }

  lemma HeldIntoScan(cfg: Config, s: World, l: nat, next: Phase)
    requires l in s.legs && s.legs[l].pc.Scan? && s.legs[l].entered <= |s.events|
    requires s.legs[l].pc.section ==>
               cfg.pinDir && ScanOk(l, s.legs[l].Me(), s.legs[l].pc.existing, next, s.pins, s.events)
    ensures HeldAfter(cfg, Goto(s, l, s.legs[l].pc.(phase := next)), l)
  {
    hide ScanOk;
  }

  lemma HeldIntoOver(cfg: Config, s: World, l: nat)
    requires l in s.legs
    ensures HeldAfter(cfg, Goto(s, l, Over), l)
  {
  }

  lemma HeldScanDone(cfg: Config, s: World, l: nat)
    requires l in s.legs && s.legs[l].pc.Scan? && s.legs[l].pc.section && s.legs[l].entered <= |s.events|
    requires ScanOk(l, s.legs[l].Me(), s.legs[l].pc.existing, InventoryPins, s.pins, s.events)
    ensures HeldAfter(cfg, ScanEnds(cfg, s, l), l)
  {
    hide ScanOk, ReadyToLink, Seen;
    ScanGrows(l, s.legs[l].Me(), s.legs[l].pc.existing, InventoryPins, s.pins, s.pins, s.events, ClearOf(cfg, s, l));
    ScanFinished(l, s.legs[l].Me(), s.legs[l].pc.existing, s.pins, s.events + [ClearOf(cfg, s, l)]);
  }

  lemma HeldScanPins(cfg: Config, s: World, l: nat)
    requires CanAdvance(s, l) && s.legs[l].fp != "" && s.legs[l].pc.Scan? && s.legs[l].pc.section
             && s.legs[l].pc.phase.Pins?
    requires Held(cfg, l, s.legs[l], s.pins, s.clusterPins, s.events)
    ensures HeldAfter(cfg, ScanNext(cfg, s, l), l)
  {
    hide ScanOk, Held, HeldAfter, Goto, Places, Content;
    var leg := s.legs[l];
    var todo := leg.pc.phase.todo;
    HeldScanParts(cfg, l, leg, s.pins, s.clusterPins, s.events);
    if todo == [] {
      ScanPins(l, leg.Me(), leg.pc.existing, todo, AfterPins(cfg), s.pins, s.events);
      HeldIntoScan(cfg, s, l, AfterPins(cfg));
    } else if Content(s.pins, todo[0]) == leg.fp {
      if cfg.guestRoot {
        var look := Look(todo[0], false, Places(cfg.nodes), |s.events|, todo[0] !in s.guests, ToPins(todo[1..]));
        ScanPins(l, leg.Me(), leg.pc.existing, todo, look, s.pins, s.events);
        HeldIntoScan(cfg, s, l, look);
      } else {
        HeldIntoOver(cfg, s, l);
      }
    } else {
      ScanPins(l, leg.Me(), leg.pc.existing, todo, Pins(todo[1..]), s.pins, s.events);
      HeldIntoScan(cfg, s, l, Pins(todo[1..]));
    }
  }

  lemma HeldScanLook(cfg: Config, s: World, l: nat)
    requires CanAdvance(s, l) && s.legs[l].pc.Scan? && s.legs[l].pc.section && s.legs[l].pc.phase.Look?
    requires Held(cfg, l, s.legs[l], s.pins, s.clusterPins, s.events)
    ensures HeldAfter(cfg, ScanNext(cfg, s, l), l)
  {
    hide ScanOk, Held, HeldAfter, Goto, Places;
    var leg := s.legs[l];
    var phase := leg.pc.phase;
    HeldScanParts(cfg, l, leg, s.pins, s.clusterPins, s.events);
    if phase.places != [] {
      ScanOn(l, leg.Me(), leg.pc.existing, phase, phase.(places := phase.places[1..]), s.pins, s.events);
      HeldIntoScan(cfg, s, l, phase.(places := phase.places[1..]));
      HeldIntoOver(cfg, s, l);
    } else if !phase.again {
      ScanOn(l, leg.Me(), leg.pc.existing, phase, phase.(again := true, places := Places(cfg.nodes)), s.pins, s.events);
      HeldIntoScan(cfg, s, l, phase.(again := true, places := Places(cfg.nodes)));
    } else {
      HeldIgnored(cfg, s, l);
    }
  }

  lemma HeldIgnored(cfg: Config, s: World, l: nat)
    requires cfg.pinDir && l in s.legs && s.legs[l].pc.Scan? && s.legs[l].pc.section && s.legs[l].entered <= |s.events|
    requires s.legs[l].pc.phase.Look? && s.legs[l].pc.phase.places == [] && s.legs[l].pc.phase.again
    requires ScanOk(l, s.legs[l].Me(), s.legs[l].pc.existing, s.legs[l].pc.phase, s.pins, s.events)
    ensures HeldAfter(cfg, ScanNext(cfg, s, l), l)
  {
    hide ScanOk, Places;
    ScanIgnored(l, s.legs[l].Me(), s.legs[l].pc.existing, s.legs[l].pc.phase, s.pins, s.events);
  }

  lemma HeldScanRest(cfg: Config, s: World, l: nat)
    requires CanAdvance(s, l) && s.legs[l].pc.Scan? && s.legs[l].pc.section
    requires s.legs[l].pc.phase.ClusterPins? || s.legs[l].pc.phase.Suspects? || s.legs[l].pc.phase.InventoryPins?
    requires Held(cfg, l, s.legs[l], s.pins, s.clusterPins, s.events)
    ensures HeldAfter(cfg, ScanNext(cfg, s, l), l)
  {
    hide ScanOk, Held, HeldAfter, Goto, Places, InventoryHas, ClusterPin, ScanEnds;
    var leg := s.legs[l];
    var phase := leg.pc.phase;
    HeldScanParts(cfg, l, leg, s.pins, s.clusterPins, s.events);
    HeldIntoOver(cfg, s, l);
    match phase
    case ClusterPins(todo, found) =>
      var next := if todo == [] then Suspects(found)
                  else ClusterPins(todo[1..], if ClusterPin(cfg, s, todo[0]) == leg.fp then found + [todo[0]]
                                   else found);
      ScanOn(l, leg.Me(), leg.pc.existing, phase, next, s.pins, s.events);
      HeldIntoScan(cfg, s, l, next);
    case Suspects(todo) =>
      var next := if todo == [] then InventoryPins
                  else Look(todo[0], false, Places(cfg.nodes), |s.events|, todo[0] !in s.guests, ToSuspects(todo[1..]));
      ScanOn(l, leg.Me(), leg.pc.existing, phase, next, s.pins, s.events);
      HeldIntoScan(cfg, s, l, next);
    case _ =>
      HeldScanDone(cfg, s, l);
  }

  lemma HeldLink(cfg: Config, s: World, l: nat)
    requires l in s.legs && s.legs[l].vmid !in s.pins && s.legs[l].entered <= |s.events|
    ensures HeldAfter(cfg, LinkPin(s, l), l)
  {
    hide DeletedSince;
    NotDeletedYet(s.events, Created(l, s.legs[l].vmid, s.legs[l].fp, s.legs[l].entered, s.pins), s.legs[l].vmid);
  }

  lemma HeldCreate(cfg: Config, s: World, l: nat)
    requires l in s.legs && Held(cfg, l, s.legs[l], s.pins, s.clusterPins, s.events)
    ensures s.legs[l].pc.Create? ==> HeldAfter(cfg, CreateNext(s, l, false), l)
    ensures s.legs[l].pc.Recreate? ==> HeldAfter(cfg, CreateNext(s, l, true), l)
  {
    hide ReadyToLink, SettledOk;
    if s.legs[l].vmid !in s.pins {
      HeldLink(cfg, s, l);
    }
  }

  lemma HeldReread(cfg: Config, s: World, l: nat)
    requires l in s.legs && s.legs[l].pc.Reread? && Held(cfg, l, s.legs[l], s.pins, s.clusterPins, s.events)
    ensures RereadNext(s, l) == Goto(s, l, RemoveBlank)
    ensures HeldAfter(cfg, RereadNext(s, l), l)
  {
    hide Covered, StaleLogged;
  }

  lemma HeldRemove(cfg: Config, s: World, l: nat)
    requires l in s.legs && s.legs[l].pc.RemoveBlank? && Held(cfg, l, s.legs[l], s.pins, s.clusterPins, s.events)
    ensures HeldAfter(cfg, RemoveNext(s, l), l)
  {
    hide Covered, StaleLogged;
    CoveredFewer(s.pins, s.pins - {s.legs[l].vmid}, s.legs[l].vmid, s.legs[l].fp, [], s.legs[l].stale);
  }
}
