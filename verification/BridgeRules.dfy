/** The rules that admit on each guest port only that guest's MAC
    (internal/bridgebind: render; internal/proxmox: nics). */
module BridgeRules {
  import opened Strings

  datatype NIC = NIC(vmid: string, index: nat, model: string, mac: string, bridge: string)

  // ----- port names

  predicate Digit(c: char) {
    '0' <= c <= '9'
  }

  /** A VM ID in the form GuestNICs reads: no leading zero, nine digits at most. */
  predicate IsVMID(s: string) {
    1 <= |s| <= 9 && s[0] != '0' && forall i :: 0 <= i < |s| ==> Digit(s[i])
  }

  /** A number below 100, in decimal. */
  function Decimal(n: nat): string {
    if n < 10 then [('0' as int + n) as char]
    else if n < 100 then [('0' as int + n / 10) as char, ('0' as int + n % 10) as char]
    else ""
  }

  /** The host side of a NIC. */
  function Tap(n: NIC): string {
    "tap" + n.vmid + "i" + Decimal(n.index)
  }

  /** What GuestNICs promises of a NIC. */
  ghost predicate Named(n: NIC) {
    IsVMID(n.vmid) && n.index < 100
  }

  lemma DecimalInjective(m: nat, n: nat)
    requires m < 100 && n < 100 && Decimal(m) == Decimal(n)
    ensures m == n
  {
    if m >= 10 {
      assert Decimal(m)[0] == Decimal(n)[0] && Decimal(m)[1] == Decimal(n)[1];
    } else {
      assert Decimal(m)[0] == Decimal(n)[0];
    }
  }

  /** A port name fits an interface name, and tells guest and NIC apart. */
  lemma TapIdentifies(m: NIC, n: NIC)
    requires Named(m) && Named(n)
    ensures |Tap(m)| <= 15
    ensures Tap(m) == Tap(n) <==> m.vmid == n.vmid && m.index == n.index
  {
    if Tap(m) == Tap(n) {
      var u, v := "i" + Decimal(m.index), "i" + Decimal(n.index);
      assert Tap(m) == "tap" + (m.vmid + u) && Tap(n) == "tap" + (n.vmid + v);
      assert Tap(m)[3..] == m.vmid + u && Tap(n)[3..] == n.vmid + v;
      FirstPieceUnique(m.vmid, u, n.vmid, v, 'i');
      assert u[1..] == Decimal(m.index) && v[1..] == Decimal(n.index);
      DecimalInjective(m.index, n.index);
    }
  }

  // ----- rules and frames

  datatype Match = Anything | TaggedFrame | SourceNot(mac: string) | ArpSenderNot(mac: string)

  /** A rule drops what comes in on the port and matches. */
  datatype Rule = Rule(iif: string, what: Match)

  /** What a frame carries: an 802.1Q or 802.1ad tag hides the rest. */
  datatype Payload = Tagged | Arp(sender: string) | Other

  datatype Frame = Frame(iif: string, source: string, payload: Payload)

  predicate Matches(r: Rule, f: Frame) {
    r.iif == f.iif && match r.what
      case Anything => true
      case TaggedFrame => f.payload.Tagged?
      case SourceNot(mac) => f.source != mac
      case ArpSenderNot(mac) => f.payload.Arp? && f.payload.sender != mac
  }

  /** The chain's policy accepts what no rule drops. */
  ghost predicate Accepts(rules: seq<Rule>, f: Frame) {
    forall r :: r in rules ==> !Matches(r, f)
  }

  /** A frame a NIC's guest may send: untagged, from the NIC's MAC, and in ARP
      also claiming it. */
  predicate Honest(f: Frame, mac: string) {
    mac != "" && !f.payload.Tagged? && f.source == mac && (f.payload.Arp? ==> f.payload.sender == mac)
  }

  ghost predicate Allowed(f: Frame, bridge: string, nics: seq<NIC>) {
    forall n :: n in nics && n.bridge == bridge && Tap(n) == f.iif ==> Honest(f, n.mac)
  }

  /** The rules accept exactly what every NIC of the port allows. */
  ghost predicate Binds(rules: seq<Rule>, bridge: string, nics: seq<NIC>) {
    forall f :: Accepts(rules, f) <==> Allowed(f, bridge, nics)
  }

  /** The rules of the table for the NICs on the bridge. */
  method Render(bridge: string, nics: seq<NIC>) returns (rules: seq<Rule>)
    ensures forall f :: Accepts(rules, f) <==> forall n :: n in nics && n.bridge == bridge && Tap(n) == f.iif ==>
              Honest(f, n.mac)
    ensures forall r :: r in rules ==> exists n :: n in nics && n.bridge == bridge && r.iif == Tap(n)
  {
    hide Tap;
    rules := [];
    for i := 0 to |nics|
      invariant Binds(rules, bridge, nics[..i])
      invariant forall r :: r in rules ==> exists n :: n in nics[..i] && n.bridge == bridge && r.iif == Tap(n)
    {
      var n := nics[i];
      assert nics[..i + 1] == nics[..i] + [n];
      ghost var before := rules;
      if n.bridge != bridge {
        BindsOther(before, bridge, nics[..i], n);
        continue;
      }
      var tap := Tap(n);
      if n.mac == "" {
        rules := rules + [Rule(tap, Anything)];
        BindsMore(before, [Rule(tap, Anything)], bridge, nics[..i], n);
        continue;
      }
      var three := [Rule(tap, TaggedFrame), Rule(tap, SourceNot(n.mac)), Rule(tap, ArpSenderNot(n.mac))];
      rules := rules + three;
      BindsMore(before, three, bridge, nics[..i], n);
    }
    assert nics[..|nics|] == nics;
  }

  lemma BindsOther(rules: seq<Rule>, bridge: string, nics: seq<NIC>, n: NIC)
    requires Binds(rules, bridge, nics) && n.bridge != bridge
    ensures Binds(rules, bridge, nics + [n])
  {
    hide Tap, Accepts, Honest;
    forall f ensures Accepts(rules, f) <==> Allowed(f, bridge, nics + [n]) {
      assert Allowed(f, bridge, nics + [n]) <==> Allowed(f, bridge, nics);
    }
  }

  lemma BindsMore(rules: seq<Rule>, more: seq<Rule>, bridge: string, nics: seq<NIC>, n: NIC)
    requires Binds(rules, bridge, nics) && n.bridge == bridge
    requires more == if n.mac == "" then [Rule(Tap(n), Anything)]
                     else [Rule(Tap(n), TaggedFrame), Rule(Tap(n), SourceNot(n.mac)), Rule(Tap(n), ArpSenderNot(n.mac))]
    ensures Binds(rules + more, bridge, nics + [n])
  {
    hide Tap, Accepts, Honest;
    forall f ensures Accepts(rules + more, f) <==> Allowed(f, bridge, nics + [n]) {
      AcceptsBoth(rules, more, f);
      AcceptsOne(more, f, n);
      assert Allowed(f, bridge, nics + [n]) <==> Allowed(f, bridge, nics) && (Tap(n) == f.iif ==> Honest(f, n.mac)) by {
        assert n in nics + [n];
      }
    }
  }

  lemma AcceptsBoth(rules: seq<Rule>, more: seq<Rule>, f: Frame)
    ensures Accepts(rules + more, f) <==> Accepts(rules, f) && Accepts(more, f)
  {
    hide Matches;
    if Accepts(rules + more, f) {
      forall r | r in rules ensures !Matches(r, f) {
        assert r in rules + more;
      }
      forall r | r in more ensures !Matches(r, f) {
        assert r in rules + more;
      }
    }
  }

  lemma AcceptsOne(more: seq<Rule>, f: Frame, n: NIC)
    requires more == if n.mac == "" then [Rule(Tap(n), Anything)]
                     else [Rule(Tap(n), TaggedFrame), Rule(Tap(n), SourceNot(n.mac)), Rule(Tap(n), ArpSenderNot(n.mac))]
    ensures Accepts(more, f) <==> (Tap(n) == f.iif ==> Honest(f, n.mac))
  {
    hide Tap;
    if n.mac == "" {
      assert Accepts(more, f) <==> !Matches(more[0], f);
    } else {
      assert Accepts(more, f) <==> !Matches(more[0], f) && !Matches(more[1], f) && !Matches(more[2], f);
    }
  }

  /** One guest's MAC never filters another's port: what is accepted on a NIC's
      port is a matter of that guest's NICs with that index alone. */
  lemma OwnNICsDecide(f: Frame, bridge: string, nics: seq<NIC>, port: NIC)
    requires Named(port) && (forall n :: n in nics ==> Named(n)) && f.iif == Tap(port)
    ensures Allowed(f, bridge, nics) <==>
              forall n :: n in nics && n.bridge == bridge && n.vmid == port.vmid && n.index == port.index ==>
                Honest(f, n.mac)
  {
    hide Tap, Honest, Named;
    forall n | n in nics ensures Tap(n) == f.iif <==> n.vmid == port.vmid && n.index == port.index {
      TapIdentifies(n, port);
    }
  }
}
