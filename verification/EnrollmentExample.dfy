/** A run of the enrolment protocol that ends without its pin. */
module EnrollmentExample {
  import opened Options
  import opened Enrollment

  ghost predicate Reachable(cfg: Config, s: World) {
    exists worlds, steps :: IsRun(cfg, worlds, steps) && worlds[|worlds| - 1] == s
  }

  lemma ReachInitial(cfg: Config, s: World)
    requires Initial(cfg, s)
    ensures Reachable(cfg, s)
  {
    assert IsRun(cfg, [s], []);
  }

  lemma Reach(cfg: Config, s: World, step: Step, next: World)
    requires Reachable(cfg, s) && Enabled(cfg, s, step) && next == After(cfg, s, step)
    ensures Reachable(cfg, next)
  {
    hide Enabled, After, Initial;
    var worlds, steps :| IsRun(cfg, worlds, steps) && worlds[|worlds| - 1] == s;
    assert IsRun(cfg, worlds + [next], steps + [step]);
  }

  /** A host with a pin directory alone. */
  const PLAIN: Config := Config(true, false, false, false, [])

  /** The only VM there is, and its EK. */
  const VM: string := "1"

  function EK(): string {
    seq(64, i => 'a')
  }

  /** The world of the example, by what changes in it. */
  function At(pins: map<string, string>, sessions: map<string, Session>, lock: Option<nat>, legs: map<nat, Leg>,
              events: seq<Event>): World
  {
    World(pins, map[], map[], map[], sessions, lock, legs, events)
  }

  predicate Plain(leg: Leg, pc: Pc) {
    leg.vmid == VM && leg.fp == EK() && leg.inv == "" && leg.pc == pc
  }

  lemma PlainNames()
    ensures IsVMIDName(VM) && IsFingerprint(EK()) && EK() != ""
  {
  }

  lemma ReachStart()
    ensures Reachable(PLAIN, At(map[], map[], None, map[], []))
  {
    ReachInitial(PLAIN, At(map[], map[], None, map[], []));
  }

  lemma Arrives(sessions: map<string, Session>, lock: Option<nat>, l: nat, leg: Leg, legs: map<nat, Leg>,
                events: seq<Event>, kind: Kind, sid: string)
    requires Reachable(PLAIN, At(map[], sessions, lock, legs, events))
    requires l !in legs && leg == NewLeg(kind, VM, EK(), "", sid, 0)
    ensures Reachable(PLAIN, At(map[], sessions, lock, legs[l := leg], events))
  {
    hide Reachable, IsFingerprint, IsVMIDName, EK;
    PlainNames();
    Reach(PLAIN, At(map[], sessions, lock, legs, events), Arrive(l, kind, VM, EK(), "", sid, 0),
          At(map[], sessions, lock, legs[l := leg], events));
  }

  lemma ReadsCluster(sessions: map<string, Session>, lock: Option<nat>, l: nat, leg: Leg, legs: map<nat, Leg>,
                     events: seq<Event>)
    requires Reachable(PLAIN, At(map[], sessions, lock, legs[l := leg], events)) && Plain(leg, PreCluster)
    ensures Reachable(PLAIN, At(map[], sessions, lock, legs[l := leg.(pc := PreOwn(""))], events))
  {
    hide Reachable, IsFingerprint, IsVMIDName, EK;
    PlainNames();
    Reach(PLAIN, At(map[], sessions, lock, legs[l := leg], events), Advances(l),
          At(map[], sessions, lock, legs[l := leg.(pc := PreOwn(""))], events));
  }

  lemma PassesOwn(sessions: map<string, Session>, lock: Option<nat>, l: nat, leg: Leg, legs: map<nat, Leg>,
                  events: seq<Event>)
    requires Reachable(PLAIN, At(map[], sessions, lock, legs[l := leg], events)) && Plain(leg, PreOwn(""))
    ensures Reachable(PLAIN,
                      At(map[], sessions, lock,
                         legs[l := leg.(pc := Scan(false, "", ListPins), entered := |events|, stale := {})],
                                events + [Checked(l, VM, EK(), "", "", "", false)]))
  {
    hide Reachable, IsFingerprint, IsVMIDName, EK;
    PlainNames();
    Reach(PLAIN, At(map[], sessions, lock, legs[l := leg], events), Advances(l),
          At(map[], sessions, lock, legs[l := leg.(pc := Scan(false, "", ListPins), entered := |events|, stale := {})],
             events + [Checked(l, VM, EK(), "", "", "", false)]));
  }

  lemma ListsNone(sessions: map<string, Session>, lock: Option<nat>, l: nat, leg: Leg, legs: map<nat, Leg>,
                  events: seq<Event>, section: bool)
    requires Reachable(PLAIN, At(map[], sessions, lock, legs[l := leg], events))
    requires Plain(leg, Scan(section, "", ListPins))
    ensures Reachable(PLAIN,
                      At(map[], sessions, lock, legs[l := leg.(pc := Scan(section, "", Pins([])), stale := {})],
                         events))
  {
    hide Reachable, IsFingerprint, IsVMIDName, EK;
    PlainNames();
    Reach(PLAIN, At(map[], sessions, lock, legs[l := leg], events), Lists(l, []),
          At(map[], sessions, lock, legs[l := leg.(pc := Scan(section, "", Pins([])), stale := {})], events));
  }

  lemma ScansNone(sessions: map<string, Session>, lock: Option<nat>, l: nat, leg: Leg, legs: map<nat, Leg>,
                  events: seq<Event>, section: bool)
    requires Reachable(PLAIN, At(map[], sessions, lock, legs[l := leg], events))
    requires Plain(leg, Scan(section, "", Pins([])))
    ensures Reachable(PLAIN, At(map[], sessions, lock, legs[l := leg.(pc := Scan(section, "", InventoryPins))], events))
  {
    hide Reachable, IsFingerprint, IsVMIDName, EK;
    PlainNames();
    Reach(PLAIN, At(map[], sessions, lock, legs[l := leg], events), Advances(l),
          At(map[], sessions, lock, legs[l := leg.(pc := Scan(section, "", InventoryPins))], events));
  }

  /** What a scan notes where nothing is pinned. */
  function Clear(l: nat, section: bool, entered: nat): Event {
    Cleared(l, section, VM, EK(), entered, map[], map[], map[])
  }

  lemma EndsScan(sessions: map<string, Session>, lock: Option<nat>, l: nat, leg: Leg, legs: map<nat, Leg>,
                 events: seq<Event>, section: bool)
    requires Reachable(PLAIN, At(map[], sessions, lock, legs[l := leg], events))
    requires Plain(leg, Scan(section, "", InventoryPins))
    ensures Reachable(PLAIN, At(map[], sessions, lock, legs[l := leg.(pc := ScanDone(leg, leg.pc))],
                                events + [Clear(l, section, leg.entered)]))
  {
    hide Reachable, IsFingerprint, IsVMIDName, EK;
    PlainNames();
    Reach(PLAIN, At(map[], sessions, lock, legs[l := leg], events), Advances(l),
          At(map[], sessions, lock, legs[l := leg.(pc := ScanDone(leg, leg.pc))],
             events + [Clear(l, section, leg.entered)]));
  }

  lemma PutsSession(sessions: map<string, Session>, lock: Option<nat>, l: nat, leg: Leg, legs: map<nat, Leg>,
                    events: seq<Event>, sid: string)
    requires Reachable(PLAIN, At(map[], sessions, lock, legs[l := leg], events))
    requires Plain(leg, PutSession) && FreshSession(events, sid) && lock != Some(l)
    ensures Reachable(PLAIN, At(map[], sessions[sid := Session(VM, EK(), 0)], lock, legs[l := leg.(pc := Over)],
                                events + [SessionPut(sid, VM, EK())]))
  {
    hide Reachable, IsFingerprint, IsVMIDName, EK;
    PlainNames();
    Reach(PLAIN, At(map[], sessions, lock, legs[l := leg], events), Puts(l, sid, 0),
          At(map[], sessions[sid := Session(VM, EK(), 0)], lock, legs[l := leg.(pc := Over)],
             events + [SessionPut(sid, VM, EK())]));
  }

  lemma TakesSession(sessions: map<string, Session>, lock: Option<nat>, l: nat, leg: Leg, legs: map<nat, Leg>,
                     events: seq<Event>)
    requires Reachable(PLAIN, At(map[], sessions, lock, legs[l := leg], events))
    requires Plain(leg, TakeSession) && leg.sid in sessions && sessions[leg.sid] == Session(VM, EK(), 0)
             && leg.response == 0
    ensures Reachable(PLAIN,
                      At(map[], sessions - {leg.sid}, lock,
                         legs[l := leg.(bound := Session(VM, EK(), 0), pc := WaitLock)], events))
  {
    hide Reachable, IsFingerprint, IsVMIDName, EK;
    PlainNames();
    Reach(PLAIN, At(map[], sessions, lock, legs[l := leg], events), Advances(l),
          At(map[], sessions - {leg.sid}, lock, legs[l := leg.(bound := Session(VM, EK(), 0), pc := WaitLock)],
             events));
  }

  lemma TakesLock(sessions: map<string, Session>, lock: Option<nat>, l: nat, leg: Leg, legs: map<nat, Leg>,
                  events: seq<Event>)
    requires Reachable(PLAIN, At(map[], sessions, lock, legs[l := leg], events)) && leg.pc == WaitLock && lock.None?
    ensures Reachable(PLAIN,
                      At(map[], sessions, Some(l), legs[l := leg.(pc := LockedCluster, entered := |events|)], events))
  {
    hide Reachable, IsFingerprint, IsVMIDName, EK;
    PlainNames();
    Reach(PLAIN, At(map[], sessions, lock, legs[l := leg], events), Advances(l),
          At(map[], sessions, Some(l), legs[l := leg.(pc := LockedCluster, entered := |events|)], events));
  }

  lemma FindsNoClusterPin(sessions: map<string, Session>, lock: Option<nat>, l: nat, leg: Leg, legs: map<nat, Leg>,
                          events: seq<Event>)
    requires Reachable(PLAIN, At(map[], sessions, lock, legs[l := leg], events)) && Plain(leg, LockedCluster)
    ensures Reachable(PLAIN, At(map[], sessions, lock, legs[l := leg.(pc := LockedOwn)], events))
  {
    hide Reachable, IsFingerprint, IsVMIDName, EK;
    PlainNames();
    Reach(PLAIN, At(map[], sessions, lock, legs[l := leg], events), Advances(l),
          At(map[], sessions, lock, legs[l := leg.(pc := LockedOwn)], events));
  }

  lemma FindsNoPin(sessions: map<string, Session>, lock: Option<nat>, l: nat, leg: Leg, legs: map<nat, Leg>,
                   events: seq<Event>)
    requires Reachable(PLAIN, At(map[], sessions, lock, legs[l := leg], events)) && Plain(leg, LockedOwn)
    ensures Reachable(PLAIN, At(map[], sessions, lock, legs[l := leg.(pc := Scan(true, "", ListPins))], events))
  {
    hide Reachable, IsFingerprint, IsVMIDName, EK;
    PlainNames();
    Reach(PLAIN, At(map[], sessions, lock, legs[l := leg], events), Advances(l),
          At(map[], sessions, lock, legs[l := leg.(pc := Scan(true, "", ListPins))], events));
  }

  lemma CreatesPin(sessions: map<string, Session>, lock: Option<nat>, l: nat, leg: Leg, legs: map<nat, Leg>,
                   events: seq<Event>)
    requires Reachable(PLAIN, At(map[], sessions, lock, legs[l := leg], events)) && Plain(leg, Create)
    ensures Reachable(PLAIN,
                      At(map[VM := EK()], sessions, lock,
                         legs[l := leg.(pc := Settled(ByLocal(|events|)), mark := |events|)],
                                events + [Created(l, VM, EK(), leg.entered, map[])]))
  {
    hide Reachable, IsFingerprint, IsVMIDName, EK;
    PlainNames();
    Reach(PLAIN, At(map[], sessions, lock, legs[l := leg], events), Advances(l),
          At(map[VM := EK()], sessions, lock, legs[l := leg.(pc := Settled(ByLocal(|events|)), mark := |events|)],
             events + [Created(l, VM, EK(), leg.entered, map[])]));
  }

  lemma PinDeleted(sessions: map<string, Session>, lock: Option<nat>, legs: map<nat, Leg>, events: seq<Event>)
    requires Reachable(PLAIN, At(map[VM := EK()], sessions, lock, legs, events))
    ensures Reachable(PLAIN, At(map[], sessions, lock, legs, events + [Deleted(VM)]))
  {
    hide Reachable, IsFingerprint, IsVMIDName, EK;
    Reach(PLAIN, At(map[VM := EK()], sessions, lock, legs, events), OperatorDeletes(VM),
          At(map[], sessions, lock, legs, events + [Deleted(VM)]));
  }

  /** A request passes the check of its own pins and the scan: nothing is pinned. */
  lemma PassesCheck(sessions: map<string, Session>, l: nat, kind: Kind, sid: string, legs: map<nat, Leg>,
                    events: seq<Event>)
    returns (leg: Leg, after: seq<Event>)
    requires Reachable(PLAIN, At(map[], sessions, None, legs, events)) && l !in legs
    ensures leg == NewLeg(kind, VM, EK(), "", sid, 0).(pc := if kind.Start? then PutSession
                                                       else TakeSession, entered := |events|)
    ensures after == events + [Checked(l, VM, EK(), "", "", "", false)] + [Clear(l, false, |events|)]
    ensures Reachable(PLAIN, At(map[], sessions, None, legs[l := leg], after))
  {
    hide Reachable, EK, At, Clear;
    leg := NewLeg(kind, VM, EK(), "", sid, 0);
    Arrives(sessions, None, l, leg, legs, events, kind, sid);
    ReadsCluster(sessions, None, l, leg, legs, events);
    leg := leg.(pc := PreOwn(""));
    PassesOwn(sessions, None, l, leg, legs, events);
    leg := leg.(pc := Scan(false, "", ListPins), entered := |events|, stale := {});
    after := events + [Checked(l, VM, EK(), "", "", "", false)];
    ListsNone(sessions, None, l, leg, legs, after, false);
    leg := leg.(pc := Scan(false, "", Pins([])), stale := {});
    ScansNone(sessions, None, l, leg, legs, after, false);
    leg := leg.(pc := Scan(false, "", InventoryPins));
    EndsScan(sessions, None, l, leg, legs, after, false);
    leg := leg.(pc := if kind.Start? then PutSession else TakeSession);
    after := after + [Clear(l, false, |events|)];
  }

  /** A leg with a session runs its critical section and creates its pin. */
  lemma RunsSection(sessions: map<string, Session>, l: nat, leg0: Leg, legs: map<nat, Leg>,
                    events: seq<Event>) returns (leg: Leg, after: seq<Event>)
    requires Reachable(PLAIN, At(map[], sessions, None, legs[l := leg0], events))
    requires Plain(leg0, WaitLock)
    ensures leg.pc.Settled? && leg.pc.path.ByLocal? && leg.vmid == VM && leg.fp == EK()
    ensures Reachable(PLAIN, At(map[VM := EK()], sessions, Some(l), legs[l := leg], after))
  {
    hide Reachable, EK, At, Clear;
    leg := leg0;
    TakesLock(sessions, None, l, leg, legs, events);
    leg := leg.(pc := LockedCluster, entered := |events|);
    FindsNoClusterPin(sessions, Some(l), l, leg, legs, events);
    leg := leg.(pc := LockedOwn);
    FindsNoPin(sessions, Some(l), l, leg, legs, events);
    leg := leg.(pc := Scan(true, "", ListPins));
    ListsNone(sessions, Some(l), l, leg, legs, events, true);
    leg := leg.(pc := Scan(true, "", Pins([])), stale := {});
    ScansNone(sessions, Some(l), l, leg, legs, events, true);
    leg := leg.(pc := Scan(true, "", InventoryPins));
    EndsScan(sessions, Some(l), l, leg, legs, events, true);
    leg := leg.(pc := Create);
    after := events + [Clear(l, true, leg.entered)];
    CreatesPin(sessions, Some(l), l, leg, legs, after);
    var mark := |after|;
    after := after + [Created(l, VM, EK(), leg.entered, map[])];
    leg := leg.(pc := Settled(ByLocal(mark)), mark := mark);
  }

  /** The pin need not be there when the critical section ends: in this run one
      VM enrols, and an operator deletes its pin file between its creation and
      the end of the section. The certificate may still be issued. */
  lemma DeletedInsideSection() returns (s: World)
    ensures Reachable(PLAIN, s) && 1 in s.legs && s.legs[1].pc.Settled? && s.legs[1].pc.path.ByLocal? && VM !in s.pins
  {
    hide Reachable, EK;
    ReachStart();
    var starter, first := PassesCheck(map[], 0, Start, "", map[], []);
    var none: map<nat, Leg> := map[];
    PutsSession(map[], None, 0, starter, none, first, "s");
    var sessions := map[]["s" := Session(VM, EK(), 0)];
    var legs := none[0 := starter.(pc := Over)];
    var leg, events := PassesCheck(sessions, 1, Finish, "s", legs, first + [SessionPut("s", VM, EK())]);
    TakesSession(sessions, None, 1, leg, legs, events);
    leg := leg.(bound := Session(VM, EK(), 0), pc := WaitLock);
    var after;
    leg, after := RunsSection(sessions - {"s"}, 1, leg, legs, events);
    PinDeleted(sessions - {"s"}, Some(1), legs[1 := leg], after);
    s := At(map[], sessions - {"s"}, Some(1), legs[1 := leg], after + [Deleted(VM)]);
  }
}
