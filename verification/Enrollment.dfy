/** The EK pin and enrolment protocol (internal/devid: pin, clusterpin, auth,
    enroll, session) as a transition system: any number of legs in flight, each
    action of a leg one atomic read or write, between the actions of operators,
    of the cluster's root and of guests that move or are destroyed. */
module Enrollment {
  import opened Options

  // ----- names and pins

  /** VM IDs in the Proxmox form: digits only. */
  predicate IsVMIDName(name: string) {
    name != "" && forall i :: 0 <= i < |name| ==> '0' <= name[i] <= '9'
  }

  predicate LowerHex(s: string) {
    forall i :: 0 <= i < |s| ==> '0' <= s[i] <= '9' || 'a' <= s[i] <= 'f'
  }

  /** The fingerprint of a certificate: 64 lower-case hexadecimal digits. */
  predicate IsFingerprint(s: string) {
    |s| == 64 && LowerHex(s)
  }

  /** A cluster pin file: a fingerprint, at most followed by one newline. */
  function ParseClusterPin(content: string): Option<string> {
    var b := if |content| == 65 && content[64] == '\n' then content[..64] else content;
    if IsFingerprint(b) then Some(b) else None
  }

  /** Exactly a fingerprint, or a fingerprint and one newline, is a pin. */
  lemma ParseClusterPinMeaning(content: string, pin: string)
    ensures ParseClusterPin(content) == Some(pin) <==> IsFingerprint(pin) && (content == pin || content == pin + "\n")
  {
    hide LowerHex;
    if content == pin + "\n" && |pin| == 64 {
      assert content[..64] == pin;
    }
    if |content| == 65 && content[64] == '\n' {
      assert content == content[..64] + "\n";
    }
  }

  // ----- state

  /** Where a guest's config is: a node's qemu-server or lxc directory. */
  datatype Place = Place(node: string, lxc: bool)

  /** Settings of the enroller, and the nodes of the cluster. */
  datatype Config = Config(pinDir: bool, clusterDir: bool, requireClusterPin: bool, guestRoot: bool, nodes: seq<string>)

  datatype Session = Session(vmid: string, fp: string, nonce: nat)

  datatype Kind = Start | Finish

  /** Why a certificate may be issued. */
  datatype Path = ByInventory | ByCluster(read: nat) | ByLocal(mark: nat) | NoStore

  /** Where the scan goes on once guestExists has answered no. */
  datatype Back = ToPins(todo: seq<string>) | ToSuspects(todo: seq<string>)

  /** Progress of pinnedToAnotherVM. */
  datatype Phase =
    | ListPins
    | Pins(todo: seq<string>)
    | ListClusterPins
    | ClusterPins(todo: seq<string>, found: seq<string>)
    | Suspects(todo: seq<string>)
    | Look(name: string, again: bool, places: seq<Place>, since: nat, absent: bool, back: Back)
    | InventoryPins

  /** The next action of a leg. */
  datatype Pc =
    | PreInventory                    // authentication: the inventory's pin
    | PreCluster                      // or, without one, the own cluster pin
    | PreOwn(cpin: string)            // and the own local pin
    | Scan(section: bool, existing: string, phase: Phase)
    | PutSession
    | TakeSession
    | WaitLock
    | LockedCluster                   // ensurePinBeforeIssue from here to Settled
    | LockedOwn
    | Create
    | Reread
    | RemoveBlank
    | Recreate
    | Settled(path: Path)
    | Issue(reason: Path)
    | Over

  /** What a leg knows, wherever it stands. */
  datatype Self = Self(vmid: string, fp: string, entered: nat, mark: nat, stale: set<string>)

  /** A request in flight. bound is the session it took; entered is when its
      check was passed or its critical section began, stale whom the scan ignored
      since then, mark when it saw or wrote its pin. */
  datatype Leg = Leg(kind: Kind, vmid: string, fp: string, inv: string, sid: string, response: nat,
                     pc: Pc, bound: Session, entered: nat, mark: nat, stale: set<string>) {

    function Me(): Self {
      Self(vmid, fp, entered, mark, stale)
    }
  }

  /** What happened, for the history. */
  datatype Event =
    | Checked(leg: nat, vmid: string, fp: string, inv: string, cpin: string, stored: string, required: bool)
    | SessionPut(sid: string, vmid: string, fp: string)
    | Ignored(leg: nat, vmid: string, since: nat, absent: bool)
    | Witness(leg: nat, vmid: string, fp: string)
    | Cleared(leg: nat, section: bool, vmid: string, fp: string, entered: nat,
              pins: map<string, string>, clusterPins: map<string, string>, inventory: map<string, string>)
    | Created(leg: nat, vmid: string, fp: string, entered: nat, pins: map<string, string>)
    | Issued(leg: nat, sid: string, cn: string, vmid: string, fp: string, path: Path)
    | Deleted(vmid: string)
    | ClusterTouched(vmid: string)
    | Moved(vmid: string)
    | Destroyed(vmid: string)

  /** pins are the pin files by name, trimmed and lower-case, "" for a blank
      one; clusterPins the cluster's pin files as they are. */
  datatype World = World(
    pins: map<string, string>,
    clusterPins: map<string, string>,
    inventory: map<string, string>,
    guests: map<string, Place>,
    sessions: map<string, Session>,
    lock: Option<nat>,
    legs: map<nat, Leg>,
    events: seq<Event>)

  function Content(files: map<string, string>, name: string): string {
    if name in files then files[name] else ""
  }

  /** readClusterPin: "" when there is no valid pin. */
  function ClusterPin(cfg: Config, s: World, vmid: string): string {
    if !cfg.clusterDir || vmid !in s.clusterPins then ""
    else match ParseClusterPin(s.clusterPins[vmid])
      case Some(pin) => pin
      case None => ""
  }

  /** The order in which a look visits the places. */
  function Places(nodes: seq<string>): seq<Place> {
    if nodes == [] then [] else [Place(nodes[0], false), Place(nodes[0], true)] + Places(nodes[1..])
  }

  // ----- actions of a leg

  function Log(s: World, e: Event): World {
    s.(events := s.events + [e])
  }

  /** The leg goes on at pc; ending gives the lock back. */
  function Goto(s: World, l: nat, pc: Pc): World
    requires l in s.legs
  {
    s.(legs := s.legs[l := s.legs[l].(pc := pc)],
       lock := if pc.Over? && s.lock == Some(l) then None else s.lock)
  }

  function AfterPins(cfg: Config): Phase {
    if cfg.clusterDir then ListClusterPins else InventoryPins
  }

  /** Where a scan starts, by the directories configured. */
  function FirstPhase(cfg: Config): Phase {
    if cfg.pinDir then ListPins else AfterPins(cfg)
  }

  function Resume(back: Back): Phase {
    match back
    case ToPins(todo) => Pins(todo)
    case ToSuspects(todo) => Suspects(todo)
  }

  /** guestExists begins; without a config root every guest exists, and the leg
      is refused. */
  function Suspect(cfg: Config, s: World, pc: Pc, name: string, back: Back): Pc
    requires pc.Scan?
  {
    if !cfg.guestRoot then Over
    else pc.(phase := Look(name, false, Places(cfg.nodes), |s.events|, name !in s.guests, back))
  }

  /** After the scan found no other VM. */
  function ScanDone(leg: Leg, pc: Pc): Pc
    requires pc.Scan?
  {
    if pc.section then (if pc.existing != "" then Settled(ByLocal(leg.mark)) else Create)
    else if leg.kind.Start? then PutSession
    else TakeSession
  }

  predicate IsClear(e: Event, l: nat, vmid: string, fp: string, section: bool) {
    e.Cleared? && e.leg == l && e.vmid == vmid && e.fp == fp && e.section == section
  }

  function ClearOf(cfg: Config, s: World, l: nat): (e: Event)
    requires l in s.legs && s.legs[l].pc.Scan?
    ensures IsClear(e, l, s.legs[l].vmid, s.legs[l].fp, s.legs[l].pc.section)
  {
    var leg := s.legs[l];
    Cleared(l, leg.pc.section, leg.vmid, leg.fp, leg.entered,
            if cfg.pinDir then s.pins else map[], if cfg.clusterDir then s.clusterPins else map[], s.inventory)
  }

  /** The scan found no other VM, which is noted, with everything it was about. */
  function ScanEnds(cfg: Config, s: World, l: nat): World
    requires l in s.legs && s.legs[l].pc.Scan?
  {
    Log(Goto(s, l, ScanDone(s.legs[l], s.legs[l].pc)), ClearOf(cfg, s, l))
  }

  predicate InventoryHas(inventory: map<string, string>, vmid: string, fp: string) {
    exists id :: id in inventory && id != vmid && inventory[id] == fp
  }

  /** One action of pinnedToAnotherVM. */
  function ScanNext(cfg: Config, s: World, l: nat): World
    requires l in s.legs && s.legs[l].pc.Scan? && !s.legs[l].pc.phase.ListPins? && !s.legs[l].pc.phase.ListClusterPins?
  {
    var leg := s.legs[l];
    var pc := leg.pc;
    match pc.phase
    case Pins(todo) =>
      if todo == [] then Goto(s, l, pc.(phase := AfterPins(cfg)))
      else if Content(s.pins, todo[0]) == leg.fp then Goto(s, l, Suspect(cfg, s, pc, todo[0], ToPins(todo[1..])))
      else Goto(s, l, pc.(phase := Pins(todo[1..])))
    case ClusterPins(todo, found) =>
      if todo == [] then Goto(s, l, pc.(phase := Suspects(found)))
      else
        var more := if ClusterPin(cfg, s, todo[0]) == leg.fp then found + [todo[0]] else found;
        Goto(s, l, pc.(phase := ClusterPins(todo[1..], more)))
    case Suspects(todo) =>
      if todo == [] then Goto(s, l, pc.(phase := InventoryPins))
      else Goto(s, l, Suspect(cfg, s, pc, todo[0], ToSuspects(todo[1..])))
    case Look(name, again, places, since, absent, back) =>
      if places != [] then
        if name in s.guests && s.guests[name] == places[0] then Goto(s, l, Over)
        else Goto(s, l, pc.(phase := pc.phase.(places := places[1..])))
      else if !again then Goto(s, l, pc.(phase := pc.phase.(again := true, places := Places(cfg.nodes))))
      else
        Log(s.(legs := s.legs[l := leg.(pc := pc.(phase := Resume(back)), stale := leg.stale + {name})]),
            Ignored(l, name, since, absent))
    case InventoryPins =>
      if InventoryHas(s.inventory, leg.vmid, leg.fp) then Goto(s, l, Over)
      else ScanEnds(cfg, s, l)
  }

  predicate IsCheck(e: Event, l: nat, vmid: string, fp: string) {
    e.Checked? && e.leg == l && e.vmid == vmid && e.fp == fp
  }

  /** What a leg is checked against before anything else: the inventory's pin,
      or the pins read for it. */
  function CheckOf(cfg: Config, s: World, l: nat, cpin: string): (e: Event)
    requires l in s.legs
    ensures e.Checked? && IsCheck(e, l, s.legs[l].vmid, s.legs[l].fp) && e.inv == s.legs[l].inv
  {
    var leg := s.legs[l];
    var stored := if leg.inv == "" && cfg.pinDir then Content(s.pins, leg.vmid) else "";
    Checked(l, leg.vmid, leg.fp, leg.inv, cpin, stored, cfg.requireClusterPin)
  }

  /** The inventory's pin, if there is one, else the cluster pin, else, unless a
      cluster pin is required, the local pin; no pin at all allows any EK. */
  predicate OwnAgrees(e: Event)
    requires e.Checked?
  {
    if e.inv != "" then e.inv == e.fp
    else if e.cpin != "" then e.cpin == e.fp
    else if e.required then false
    else e.stored == "" || e.stored == e.fp
  }

  function BeginScan(cfg: Config, s: World, l: nat): World
    requires l in s.legs
  {
    s.(legs := s.legs[l := s.legs[l].(pc := Scan(false, "", FirstPhase(cfg)), entered := |s.events|, stale := {})])
  }

  /** The leg is refused, or goes on to the scan. */
  function Vet(cfg: Config, s: World, l: nat, e: Event): World
    requires l in s.legs && e.Checked?
  {
    if OwnAgrees(e) then Log(BeginScan(cfg, s, l), e) else Goto(s, l, Over)
  }

  /** SessionStore.Take, and the checks of Finish on what it returns. */
  function TakeNext(s: World, l: nat): World
    requires l in s.legs
  {
    var leg := s.legs[l];
    if leg.sid !in s.sessions then Goto(s, l, Over)
    else
      var sess := s.sessions[leg.sid];
      var s' := s.(sessions := s.sessions - {leg.sid});
      if sess.vmid != leg.vmid || sess.fp != leg.fp || sess.nonce != leg.response then Goto(s', l, Over)
      else s'.(legs := s.legs[l := leg.(bound := sess, pc := if leg.inv == "" then WaitLock else Issue(ByInventory))])
  }

  function AcquireNext(s: World, l: nat): World
    requires l in s.legs
  {
    s.(lock := Some(l), legs := s.legs[l := s.legs[l].(pc := LockedCluster, entered := |s.events|)])
  }

  function LockedClusterNext(cfg: Config, s: World, l: nat): World
    requires l in s.legs
  {
    var leg := s.legs[l];
    var cpin := ClusterPin(cfg, s, leg.vmid);
    if cpin != "" then Goto(s, l, if cpin == leg.fp then Settled(ByCluster(|s.events|)) else Over)
    else if cfg.requireClusterPin then Goto(s, l, Over)
    else Goto(s, l, if cfg.pinDir then LockedOwn else Settled(NoStore))
  }

  function LockedOwnNext(s: World, l: nat): World
    requires l in s.legs
  {
    var leg := s.legs[l];
    var existing := Content(s.pins, leg.vmid);
    if existing == "" then Goto(s, l, Scan(true, "", ListPins))
    else if existing != leg.fp then Goto(s, l, Over)
    else
      Log(s.(legs := s.legs[l := leg.(pc := Scan(true, existing, ListPins), mark := |s.events|)]),
          Witness(l, leg.vmid, leg.fp))
  }

  /** The exclusive link succeeds: the pin file appears with its content. */
  function LinkPin(s: World, l: nat): World
    requires l in s.legs
  {
    var leg := s.legs[l];
    Log(s.(pins := s.pins[leg.vmid := leg.fp],
           legs := s.legs[l := leg.(pc := Settled(ByLocal(|s.events|)), mark := |s.events|)]),
        Created(l, leg.vmid, leg.fp, leg.entered, s.pins))
  }

  function CreateNext(s: World, l: nat, again: bool): World
    requires l in s.legs
  {
    if s.legs[l].vmid !in s.pins then LinkPin(s, l)
    else Goto(s, l, if again then Over else Reread)
  }

  function RereadNext(s: World, l: nat): World
    requires l in s.legs
  {
    var leg := s.legs[l];
    var existing := Content(s.pins, leg.vmid);
    if existing == "" then Goto(s, l, RemoveBlank)
    else if existing != leg.fp then Goto(s, l, Over)
    else
      Log(s.(legs := s.legs[l := leg.(pc := Settled(ByLocal(|s.events|)), mark := |s.events|)]),
          Witness(l, leg.vmid, leg.fp))
  }

  /** os.Remove of a blank file. */
  function RemoveNext(s: World, l: nat): World
    requires l in s.legs
  {
    Goto(s.(pins := s.pins - {s.legs[l].vmid}), l, Recreate)
  }

  /** The section ends: the lock is given back and the certificate issued. */
  function ReleaseNext(s: World, l: nat): World
    requires l in s.legs && s.legs[l].pc.Settled?
  {
    s.(lock := None, legs := s.legs[l := s.legs[l].(pc := Issue(s.legs[l].pc.path))])
  }

  /** IssueDevID: the common name is the session's VM ID. */
  function IssueNext(s: World, l: nat): World
    requires l in s.legs && s.legs[l].pc.Issue?
  {
    var leg := s.legs[l];
    Log(Goto(s, l, Over), Issued(l, leg.sid, leg.bound.vmid, leg.vmid, leg.fp, leg.pc.reason))
  }

  predicate CanAdvance(s: World, l: nat) {
    && l in s.legs
    && var pc := s.legs[l].pc;
       && !pc.Over? && !pc.PutSession?
       && (pc.WaitLock? ==> s.lock.None?)
       && (pc.Scan? ==> !pc.phase.ListPins? && !pc.phase.ListClusterPins?)
  }

  /** The leg's next action, where it is determined. */
  function Advance(cfg: Config, s: World, l: nat): World
    requires CanAdvance(s, l)
  {
    match s.legs[l].pc
    case PreCluster => Goto(s, l, PreOwn(ClusterPin(cfg, s, s.legs[l].vmid)))
    case PreInventory => Vet(cfg, s, l, CheckOf(cfg, s, l, ""))
    case PreOwn(cpin) => Vet(cfg, s, l, CheckOf(cfg, s, l, cpin))
    case Scan(_, _, _) => ScanNext(cfg, s, l)
    case TakeSession => TakeNext(s, l)
    case WaitLock => AcquireNext(s, l)
    case LockedCluster => LockedClusterNext(cfg, s, l)
    case LockedOwn => LockedOwnNext(s, l)
    case Create => CreateNext(s, l, false)
    case Reread => RereadNext(s, l)
    case RemoveBlank => RemoveNext(s, l)
    case Recreate => CreateNext(s, l, true)
    case Settled(_) => ReleaseNext(s, l)
    case Issue(_) => IssueNext(s, l)
  }

  // ----- steps and runs

  datatype Step =
    | Arrive(l: nat, kind: Kind, vmid: string, fp: string, inv: string, sid: string, response: nat)
    | Advances(l: nat)
    | Lists(l: nat, names: seq<string>)           // a pin directory is listed, in some order
    | Doubts(l: nat)                              // a look that cannot be made counts as found
    | Fails(l: nat)                               // any error ends the leg
    | Puts(l: nat, sid: string, nonce: nat)
    | Purges(sid: string)
    | OperatorDeletes(vmid: string)
    | RootWrites(vmid: string, content: string)
    | RootRemoves(vmid: string)
    | Reloads(inventory: map<string, string>)
    | Moves(vmid: string, place: Place)
    | Destroys(vmid: string)
    | Adds(vmid: string, place: Place)

  /** The listing of a pin directory as the scan reads it. */
  ghost predicate IsListing(names: seq<string>, files: map<string, string>, vmid: string) {
    forall name :: name in names <==> name in files && name != vmid && IsVMIDName(name)
  }

  predicate AtPhase(s: World, l: nat, phase: Phase) {
    l in s.legs && s.legs[l].pc.Scan? && s.legs[l].pc.phase == phase
  }

  ghost predicate FreshSession(events: seq<Event>, sid: string) {
    forall e :: e in events && e.SessionPut? ==> e.sid != sid
  }

  ghost predicate Enabled(cfg: Config, s: World, step: Step) {
    match step
    case Arrive(l, kind, vmid, fp, inv, sid, response) =>
      l !in s.legs && IsVMIDName(vmid) && IsFingerprint(fp) && inv == Content(s.inventory, vmid)
    case Advances(l) => CanAdvance(s, l)
    case Lists(l, names) =>
      || (AtPhase(s, l, ListPins) && IsListing(names, s.pins, s.legs[l].vmid))
      || (AtPhase(s, l, ListClusterPins) && IsListing(names, s.clusterPins, s.legs[l].vmid))
    case Doubts(l) => l in s.legs && s.legs[l].pc.Scan? && s.legs[l].pc.phase.Look?
    case Fails(l) => l in s.legs
    case Puts(l, sid, nonce) => l in s.legs && s.legs[l].pc.PutSession? && FreshSession(s.events, sid)
    case Purges(sid) => true
    case OperatorDeletes(vmid) => true
    case RootWrites(vmid, content) => true
    case RootRemoves(vmid) => true
    case Reloads(inventory) => true
    case Moves(vmid, place) => vmid in s.guests && place in Places(cfg.nodes)
    case Destroys(vmid) => true
    case Adds(vmid, place) => vmid !in s.guests && place in Places(cfg.nodes)
  }

  /** A request whose MAC and EK certificate are known; its record's pin in the
      inventory, if it has one, decides instead of the pin files. */
  function NewLeg(kind: Kind, vmid: string, fp: string, inv: string, sid: string, response: nat): Leg {
    var pc := if inv == "" then PreCluster else PreInventory;
    Leg(kind, vmid, fp, inv, sid, response, pc, Session("", "", 0), 0, 0, {})
  }

  function ListNext(s: World, l: nat, names: seq<string>): World
    requires AtPhase(s, l, ListPins) || AtPhase(s, l, ListClusterPins)
  {
    var leg := s.legs[l];
    if leg.pc.phase.ListPins? then
      s.(legs := s.legs[l := leg.(pc := leg.pc.(phase := Pins(names)), stale := {})])
    else
      Goto(s, l, leg.pc.(phase := ClusterPins(names, [])))
  }

  function PutNext(s: World, l: nat, sid: string, nonce: nat): World
    requires l in s.legs
  {
    var leg := s.legs[l];
    Log(Goto(s.(sessions := s.sessions[sid := Session(leg.vmid, leg.fp, nonce)]), l, Over),
        SessionPut(sid, leg.vmid, leg.fp))
  }

  ghost function After(cfg: Config, s: World, step: Step): World
    requires Enabled(cfg, s, step)
  {
    match step
    case Arrive(l, kind, vmid, fp, inv, sid, response) =>
      s.(legs := s.legs[l := NewLeg(kind, vmid, fp, inv, sid, response)])
    case Advances(l) => Advance(cfg, s, l)
    case Lists(l, names) => ListNext(s, l, names)
    case Doubts(l) => Goto(s, l, Over)
    case Fails(l) => Goto(s, l, Over)
    case Puts(l, sid, nonce) => PutNext(s, l, sid, nonce)
    case Purges(sid) => s.(sessions := s.sessions - {sid})
    case OperatorDeletes(vmid) => Log(s.(pins := s.pins - {vmid}), Deleted(vmid))
    case RootWrites(vmid, content) => Log(s.(clusterPins := s.clusterPins[vmid := content]), ClusterTouched(vmid))
    case RootRemoves(vmid) => Log(s.(clusterPins := s.clusterPins - {vmid}), ClusterTouched(vmid))
    case Reloads(inventory) => s.(inventory := inventory)
    case Moves(vmid, place) => Log(s.(guests := s.guests[vmid := place]), Moved(vmid))
    case Destroys(vmid) => Log(s.(guests := s.guests - {vmid}), Destroyed(vmid))
    case Adds(vmid, place) => s.(guests := s.guests[vmid := place])
  }

  /** The service starts: no request, no session. */
  ghost predicate Initial(cfg: Config, s: World) {
    && s.sessions == map[] && s.legs == map[] && s.lock.None? && s.events == []
    && forall g :: g in s.guests ==> s.guests[g] in Places(cfg.nodes)
  }

  /** A run: worlds, and the steps between them. */
  ghost predicate IsRun(cfg: Config, worlds: seq<World>, steps: seq<Step>) {
    && |worlds| == |steps| + 1
    && Initial(cfg, worlds[0])
    && forall i :: 0 <= i < |steps| ==>
         Enabled(cfg, worlds[i], steps[i]) && worlds[i + 1] == After(cfg, worlds[i], steps[i])
  }

  // ----- histories

  /** How often the guest moved. */
  ghost function MoveCount(events: seq<Event>, vmid: string): nat {
    if events == [] then 0
    else MoveCount(events[..|events| - 1], vmid) + if events[|events| - 1] == Moved(vmid) then 1 else 0
  }

  /** The VM's pin file held the fingerprint at this event. */
  predicate IsWitness(e: Event, vmid: string, fp: string) {
    (e.Witness? || e.Created?) && e.vmid == vmid && e.fp == fp
  }

  /** The leg passed the check of its own pins. */
  ghost predicate Vetted(events: seq<Event>, l: nat, vmid: string, fp: string) {
    exists k :: 0 <= k < |events| && IsCheck(events[k], l, vmid, fp)
  }

  /** Some leg for that VM and EK did. */
  ghost predicate WasChecked(events: seq<Event>, vmid: string, fp: string) {
    exists l :: Vetted(events, l, vmid, fp)
  }

  predicate IsIgnored(e: Event, l: nat, vmid: string) {
    e.Ignored? && e.leg == l && e.vmid == vmid
  }

  ghost predicate DeletedSince(events: seq<Event>, n: nat, vmid: string) {
    exists k :: n <= k < |events| && events[k] == Deleted(vmid)
  }

  ghost predicate CreatedSince(events: seq<Event>, n: nat, vmid: string) {
    exists k :: n <= k < |events| && events[k].Created? && events[k].vmid == vmid
  }

  ghost predicate TouchedSince(events: seq<Event>, n: nat, vmid: string) {
    exists k :: n <= k < |events| && events[k] == ClusterTouched(vmid)
  }

  ghost predicate DestroyedSince(events: seq<Event>, n: nat, vmid: string) {
    exists k :: n <= k < |events| && events[k] == Destroyed(vmid)
  }

  ghost predicate IgnoredSince(past: seq<Event>, entered: nat, l: nat, vmid: string) {
    exists k :: entered <= k < |past| && IsIgnored(past[k], l, vmid)
  }

  /** Every other VM whose file holds the fingerprint was ignored by that leg in
      the same critical section. */
  ghost predicate AllIgnored(past: seq<Event>, e: Event)
    requires e.Created?
  {
    forall b :: b in e.pins && b != e.vmid && IsVMIDName(b) && e.pins[b] == e.fp ==>
      IgnoredSince(past, e.entered, e.leg, b)
  }

  /** The leg's scan, before its critical section or in it, found no other VM. */
  ghost predicate ClearedBy(events: seq<Event>, l: nat, vmid: string, fp: string, section: bool) {
    exists k :: 0 <= k < |events| && IsClear(events[k], l, vmid, fp, section)
  }

  /** So did the scan of some leg for that VM and EK. */
  ghost predicate WasCleared(events: seq<Event>, vmid: string, fp: string) {
    exists l :: ClearedBy(events, l, vmid, fp, false)
  }

  /** When a scan ends: every other VM whose file holds the fingerprint was
      ignored in it, unless, outside the critical section, the file was created
      meanwhile; so was every other VM whose cluster pin is the fingerprint,
      unless it was touched meanwhile; no other VM's inventory pin is it. */
  ghost predicate AllHeeded(past: seq<Event>, e: Event)
    requires e.Cleared?
  {
    && (forall b :: b in e.pins && b != e.vmid && IsVMIDName(b) && e.pins[b] == e.fp ==>
          IgnoredSince(past, e.entered, e.leg, b) || (!e.section && CreatedSince(past, e.entered, b)))
    && (forall b :: b in e.clusterPins && b != e.vmid && IsVMIDName(b) &&
                    ParseClusterPin(e.clusterPins[b]) == Some(e.fp) ==>
          TouchedSince(past, e.entered, b) || IgnoredSince(past, e.entered, e.leg, b))
    && !InventoryHas(e.inventory, e.vmid, e.fp)
  }

  /** A VM's pin was seen to hold another fingerprint only before a delete. */
  ghost predicate NoOtherWitness(past: seq<Event>, vmid: string, fp: string) {
    forall k, f :: 0 <= k < |past| && IsWitness(past[k], vmid, f) && f != fp ==> DeletedSince(past, k, vmid)
  }

  /** What the log promises about an event, given the events before it. */
  ghost predicate EntryOk(past: seq<Event>, e: Event) {
    match e
    case Ignored(l, vmid, since, absent) =>
      since <= |past| && (absent || DestroyedSince(past, since, vmid) || MoveCount(past[since..], vmid) >= 2)
    case Cleared(_, _, _, _, _, _, _, _) => AllHeeded(past, e)
    case Created(l, vmid, fp, entered, pins) =>
      AllIgnored(past, e) && NoOtherWitness(past, vmid, fp) && ClearedBy(past, l, vmid, fp, true)
    case Witness(l, vmid, fp) => NoOtherWitness(past, vmid, fp)
    case Checked(l, vmid, fp, inv, cpin, stored, required) => OwnAgrees(e)
    case SessionPut(sid, vmid, fp) =>
      FreshSession(past, sid) && WasChecked(past, vmid, fp) && WasCleared(past, vmid, fp)
    case Issued(l, sid, cn, vmid, fp, path) =>
      && cn == vmid
      && SessionPut(sid, vmid, fp) in past && Vetted(past, l, vmid, fp) && ClearedBy(past, l, vmid, fp, false)
      && (forall d :: d in past && d.Issued? ==> d.sid != sid)
      && (path.ByLocal? ==>
            path.mark < |past| && IsWitness(past[path.mark], vmid, fp) && ClearedBy(past, l, vmid, fp, true))
    case _ => true
  }

  ghost predicate LogOk(events: seq<Event>) {
    forall n :: 0 <= n < |events| ==> EntryOk(events[..n], events[n])
  }

  // ----- the invariant

  predicate InSection(pc: Pc) {
    || pc.LockedCluster? || pc.LockedOwn? || (pc.Scan? && pc.section)
    || pc.Create? || pc.Reread? || pc.RemoveBlank? || pc.Recreate? || pc.Settled?
  }

  ghost predicate LockInv(legs: map<nat, Leg>, lock: Option<nat>) {
    && (forall l :: l in legs && InSection(legs[l].pc) ==> lock == Some(l))
    && (lock.Some? ==> lock.value in legs && InSection(legs[lock.value].pc))
  }

  ghost predicate LegsInv(legs: map<nat, Leg>) {
    forall l :: l in legs ==> IsVMIDName(legs[l].vmid) && IsFingerprint(legs[l].fp)
  }

  /** The leg is past the check of its own pins. */
  predicate PastCheck(pc: Pc) {
    !pc.PreInventory? && !pc.PreCluster? && !pc.PreOwn? && !pc.Over?
  }

  ghost predicate VettedInv(legs: map<nat, Leg>, events: seq<Event>) {
    forall l :: l in legs && PastCheck(legs[l].pc) ==> Vetted(events, l, legs[l].vmid, legs[l].fp)
  }

  ghost predicate GuestsInv(cfg: Config, guests: map<string, Place>) {
    forall g :: g in guests ==> guests[g] in Places(cfg.nodes)
  }

  /** Witnessed content is still there unless an operator deleted the file. */
  ghost predicate WitnessInv(pins: map<string, string>, events: seq<Event>) {
    forall n, vmid, fp :: 0 <= n < |events| && IsWitness(events[n], vmid, fp) ==>
      fp != "" && (DeletedSince(events, n, vmid) || (vmid in pins && pins[vmid] == fp))
  }

  ghost predicate Ahead(phase: Phase, guests: map<string, Place>, moves: nat)
    requires phase.Look?
  {
    phase.name in guests
    && moves + (if guests[phase.name] in phase.places then 1 else 0) >= if phase.again then 2 else 1
  }

  /** A look under way: the guest was not there at some time, or has moved, or
      is still ahead. */
  ghost predicate LookOk(phase: Phase, guests: map<string, Place>, events: seq<Event>) {
    phase.Look? ==>
      && phase.since <= |events|
      && (phase.absent || DestroyedSince(events, phase.since, phase.name)
          || Ahead(phase, guests, MoveCount(events[phase.since..], phase.name)))
  }

  ghost predicate LooksInv(legs: map<nat, Leg>, guests: map<string, Place>, events: seq<Event>) {
    forall l :: l in legs && legs[l].pc.Scan? ==> LookOk(legs[l].pc.phase, guests, events)
  }

  /** The names the scan of the pin files still has to read. */
  function Pending(phase: Phase): seq<string> {
    match phase
    case Pins(todo) => todo
    case Look(name, _, _, _, _, ToPins(todo)) => [name] + todo
    case _ => []
  }

  /** Every other VM with that fingerprint is still to be read, or was ignored. */
  ghost predicate Covered(pins: map<string, string>, vmid: string, fp: string, pending: seq<string>, stale: set<string>)
  {
    forall b :: b in pins && b != vmid && IsVMIDName(b) && pins[b] == fp ==> b in pending || b in stale
  }

  ghost predicate StaleLogged(l: nat, entered: nat, stale: set<string>, events: seq<Event>) {
    forall b :: b in stale ==> IgnoredSince(events, entered, l, b)
  }

  predicate Blank(pins: map<string, string>, vmid: string) {
    Content(pins, vmid) == ""
  }

  /** The leg saw or wrote its own pin; a delete since leaves no file. */
  ghost predicate Seen(vmid: string, fp: string, mark: nat, pins: map<string, string>, events: seq<Event>) {
    && mark < |events| && IsWitness(events[mark], vmid, fp)
    && (DeletedSince(events, mark, vmid) ==> vmid !in pins)
  }

  ghost predicate ScanOk(l: nat, me: Self, existing: string, phase: Phase, pins: map<string, string>,
                         events: seq<Event>)
  {
    && (if existing == "" then Blank(pins, me.vmid) else Seen(me.vmid, me.fp, me.mark, pins, events))
    && (!phase.ListPins? ==>
          Covered(pins, me.vmid, me.fp, Pending(phase), me.stale) && StaleLogged(l, me.entered, me.stale, events))
  }

  ghost predicate ReadyToLink(l: nat, me: Self, pins: map<string, string>, events: seq<Event>) {
    Blank(pins, me.vmid) && Covered(pins, me.vmid, me.fp, [], me.stale) && StaleLogged(l, me.entered, me.stale, events)
  }

  /** The section's answer: which pin equals the fingerprint, and until when. */
  ghost predicate SettledOk(cfg: Config, leg: Leg, path: Path, pins: map<string, string>,
                            clusterPins: map<string, string>, events: seq<Event>)
  {
    match path
    case ByLocal(mark) => Seen(leg.vmid, leg.fp, mark, pins, events)
    case ByCluster(read) =>
      && cfg.clusterDir && read <= |events|
      && (TouchedSince(events, read, leg.vmid)
          || (leg.vmid in clusterPins && ParseClusterPin(clusterPins[leg.vmid]) == Some(leg.fp)))
    case NoStore => !cfg.pinDir
    case ByInventory => false
  }

  /** What holds for the leg in the critical section. */
  ghost predicate Held(cfg: Config, l: nat, leg: Leg, pins: map<string, string>, clusterPins: map<string, string>,
                       events: seq<Event>)
  {
    && leg.entered <= |events|
    && match leg.pc
       case LockedOwn => cfg.pinDir
       case Scan(section, existing, phase) =>
         section ==> cfg.pinDir && ScanOk(l, leg.Me(), existing, phase, pins, events)
       case Create => ReadyToLink(l, leg.Me(), pins, events)
       case Reread => ReadyToLink(l, leg.Me(), pins, events)
       case RemoveBlank => ReadyToLink(l, leg.Me(), pins, events)
       case Recreate => ReadyToLink(l, leg.Me(), pins, events)
       case Settled(path) => SettledOk(cfg, leg, path, pins, clusterPins, events)
       case _ => true
  }

  /** The scan has not listed the cluster pins yet. */
  predicate BeforeClusters(phase: Phase) {
    phase.ListPins? || phase.Pins? || phase.ListClusterPins? || (phase.Look? && phase.back.ToPins?)
  }

  /** The names whose cluster pins are still to be read or asked about. */
  function Candidates(phase: Phase): seq<string> {
    match phase
    case ClusterPins(todo, found) => todo + found
    case Suspects(todo) => todo
    case Look(name, _, _, _, _, ToSuspects(todo)) => [name] + todo
    case _ => []
  }

  /** Every other VM whose cluster pin is that fingerprint, untouched since the
      scan began, is still to be dealt with, or was ignored. */
  ghost predicate ClusterCovered(clusterPins: map<string, string>, events: seq<Event>, entered: nat, vmid: string,
                                 fp: string, pending: seq<string>, stale: set<string>)
  {
    forall b :: b in clusterPins && b != vmid && IsVMIDName(b) && ParseClusterPin(clusterPins[b]) == Some(fp) &&
                !TouchedSince(events, entered, b) ==>
      b in pending || b in stale
  }

  /** The files that were not created meanwhile. */
  ghost function OldPins(pins: map<string, string>, events: seq<Event>, entered: nat): map<string, string> {
    map b | b in pins && !CreatedSince(events, entered, b) :: pins[b]
  }

  /** What a scan has covered, in its critical section or before it. */
  ghost predicate PhaseOk(cfg: Config, l: nat, me: Self, section: bool, phase: Phase,
                          pins: map<string, string>, clusterPins: map<string, string>, events: seq<Event>)
  {
    !phase.ListPins? ==>
      && StaleLogged(l, me.entered, me.stale, events)
      && (cfg.pinDir && !section ==>
            Covered(OldPins(pins, events, me.entered), me.vmid, me.fp, Pending(phase), me.stale))
      && (cfg.clusterDir && !BeforeClusters(phase) ==>
            ClusterCovered(clusterPins, events, me.entered, me.vmid, me.fp, Candidates(phase), me.stale))
  }

  ghost predicate Tracks(cfg: Config, l: nat, leg: Leg, pins: map<string, string>, clusterPins: map<string, string>,
                         events: seq<Event>)
  {
    leg.pc.Scan? ==>
      leg.entered <= |events| && PhaseOk(cfg, l, leg.Me(), leg.pc.section, leg.pc.phase, pins, clusterPins, events)
  }

  ghost predicate ScansInv(cfg: Config, s: World) {
    forall l :: l in s.legs ==> Tracks(cfg, l, s.legs[l], s.pins, s.clusterPins, s.events)
  }

  /** The leg is past its first scan. */
  predicate PastPre(pc: Pc) {
    PastCheck(pc) && !(pc.Scan? && !pc.section)
  }

  /** The leg is past the scan of its section, on the local path. */
  predicate PastScan(pc: Pc) {
    || pc.Create? || pc.Reread? || pc.RemoveBlank? || pc.Recreate?
    || (pc.Settled? && pc.path.ByLocal?) || (pc.Issue? && pc.reason.ByLocal?)
  }

  ghost predicate ScannedOk(l: nat, leg: Leg, events: seq<Event>) {
    && (PastPre(leg.pc) ==> ClearedBy(events, l, leg.vmid, leg.fp, false))
    && (PastScan(leg.pc) ==> ClearedBy(events, l, leg.vmid, leg.fp, true))
  }

  ghost predicate ClearedInv(legs: map<nat, Leg>, events: seq<Event>) {
    forall l :: l in legs ==> ScannedOk(l, legs[l], events)
  }

  ghost predicate HeldInv(cfg: Config, s: World) {
    s.lock.Some? && s.lock.value in s.legs ==>
      Held(cfg, s.lock.value, s.legs[s.lock.value], s.pins, s.clusterPins, s.events)
  }

  /** The leg has taken its session and not issued yet. */
  predicate Holds(leg: Leg) {
    leg.pc.WaitLock? || InSection(leg.pc) || leg.pc.Issue?
  }

  ghost predicate NotIssued(events: seq<Event>, sid: string) {
    forall e :: e in events && e.Issued? ==> e.sid != sid
  }

  ghost predicate Bound(s: World, leg: Leg) {
    && leg.bound.vmid == leg.vmid && leg.sid !in s.sessions
    && SessionPut(leg.sid, leg.vmid, leg.fp) in s.events && NotIssued(s.events, leg.sid)
    && (leg.pc.Issue? && leg.pc.reason.ByLocal? ==>
          leg.pc.reason.mark < |s.events| && IsWitness(s.events[leg.pc.reason.mark], leg.vmid, leg.fp))
  }

  /** A session is in the store, or held by one leg, or used up. */
  ghost predicate SessionsInv(s: World) {
    && (forall sid :: sid in s.sessions ==>
          SessionPut(sid, s.sessions[sid].vmid, s.sessions[sid].fp) in s.events && NotIssued(s.events, sid))
    && (forall l :: l in s.legs && Holds(s.legs[l]) ==> Bound(s, s.legs[l]))
    && (forall l, m :: l in s.legs && m in s.legs && l != m && Holds(s.legs[l]) && Holds(s.legs[m]) ==>
          s.legs[l].sid != s.legs[m].sid)
  }

  ghost predicate Inv(cfg: Config, s: World) {
    && LockInv(s.legs, s.lock)
    && LegsInv(s.legs)
    && VettedInv(s.legs, s.events)
    && GuestsInv(cfg, s.guests)
    && WitnessInv(s.pins, s.events)
    && LogOk(s.events)
    && LooksInv(s.legs, s.guests, s.events)
    && HeldInv(cfg, s)
    && ScansInv(cfg, s)
    && ClearedInv(s.legs, s.events)
    && SessionsInv(s)
  }
}
