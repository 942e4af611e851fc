/** Reading the NICs of guest configs (internal/proxmox: nics), from the text of
    the files. How white space is trimmed is left open. */
module NICReader {
  import opened Options
  import opened BridgeRules
  import opened Sorting
  import opened Strings

  // ----- one NIC

  predicate HexDigit(c: char) {
    Digit(c) || 'a' <= c <= 'f' || 'A' <= c <= 'F'
  }

  /** Six pairs of hexadecimal digits with colons between them. */
  predicate IsMac(s: string) {
    |s| == 17 && forall i :: 0 <= i < 17 ==> if i % 3 == 2 then s[i] == ':' else HexDigit(s[i])
  }

  /** A valid MAC in lower case. */
  predicate IsLowerMac(s: string) {
    IsMac(s) && forall i :: 0 <= i < |s| ==> !('A' <= s[i] <= 'Z')
  }

  function KeyOf(field: string): string {
    field[..IndexOf(field, '=')]
  }

  function ValueOf(field: string): string {
    var n := IndexOf(field, '=');
    if n < |field| then field[n + 1..] else ""
  }

  /** The MAC a field names: an older macaddr replaces, <model>=<MAC> only fills. */
  function MacAfter(mac: string, field: string): string {
    var k, v := KeyOf(field), ValueOf(field);
    if k == "bridge" || k == "model" then mac
    else if k == "macaddr" then v
    else if mac == "" && IsMac(v) then v
    else mac
  }

  function ChosenMac(fields: seq<string>): string {
    if fields == [] then "" else MacAfter(ChosenMac(fields[..|fields| - 1]), fields[|fields| - 1])
  }

  /** The bridge a field names: a later one replaces. */
  function BridgeAfter(bridge: string, field: string): string {
    if KeyOf(field) == "bridge" then ValueOf(field) else bridge
  }

  function ChosenBridge(fields: seq<string>): string {
    if fields == [] then "" else BridgeAfter(ChosenBridge(fields[..|fields| - 1]), fields[|fields| - 1])
  }

  /** The model a field names: model=<model>, or <model>=<MAC> while there is no
      MAC. */
  function ModelAfter(model: string, mac: string, field: string): string {
    var k, v := KeyOf(field), ValueOf(field);
    if k == "bridge" || k == "macaddr" then model
    else if k == "model" then v
    else if mac == "" && IsMac(v) then k
    else model
  }

  function ChosenModel(fields: seq<string>): string {
    if fields == [] then ""
    else
      var before := fields[..|fields| - 1];
      ModelAfter(ChosenModel(before), ChosenMac(before), fields[|fields| - 1])
  }

  /** The NIC of a net line, by its fields. */
  function LineNIC(vmid: string, index: nat, fields: seq<string>): NIC {
    var mac := ChosenMac(fields);
    NIC(vmid, index, ChosenModel(fields), if IsMac(mac) then ToLower(mac) else "", ChosenBridge(fields))
  }

  /** What the fields before i have chosen. */
  ghost predicate Chosen(nic: NIC, mac: string, fields: seq<string>) {
    mac == ChosenMac(fields) && nic.bridge == ChosenBridge(fields) && nic.model == ChosenModel(fields)
  }

  lemma ChosenMore(nic: NIC, mac: string, nic': NIC, mac': string, fields: seq<string>, field: string)
    requires Chosen(nic, mac, fields)
    requires mac' == MacAfter(mac, field) && nic'.bridge == BridgeAfter(nic.bridge, field)
             && nic'.model == ModelAfter(nic.model, mac, field)
    ensures Chosen(nic', mac', fields + [field])
  {
    hide MacAfter, BridgeAfter, ModelAfter;
    assert (fields + [field])[..|fields|] == fields;
  }

  method ParseNIC(vmid: string, index: nat, fields: seq<string>) returns (nic: NIC)
    ensures nic == LineNIC(vmid, index, fields)
  {
    hide IsMac, KeyOf, ValueOf, Chosen;
    nic := NIC(vmid, index, "", "", "");
    var mac := "";
    ChosenNone(nic);
    for i := 0 to |fields|
      invariant nic.vmid == vmid && nic.index == index && nic.mac == "" && Chosen(nic, mac, fields[..i])
    {
      assert fields[..i + 1] == fields[..i] + [fields[i]];
      ghost var nic0, mac0 := nic, mac;
      var k, v := KeyOf(fields[i]), ValueOf(fields[i]);
      if k == "bridge" {
        nic := nic.(bridge := v);
      } else if k == "model" {
        nic := nic.(model := v);
      } else if k == "macaddr" {
        mac := v;
      } else if mac == "" && IsMac(v) {
        nic, mac := nic.(model := k), v;
      }
      ChosenMore(nic0, mac0, nic, mac, fields[..i], fields[i]);
    }
    assert fields[..|fields|] == fields;
    ChosenAll(nic, mac, fields);
    if IsMac(mac) {
      nic := nic.(mac := ToLower(mac));
    }
  }

  lemma ChosenNone(nic: NIC)
    requires nic.bridge == "" && nic.model == ""
    ensures Chosen(nic, "", [])
  {
  }

  lemma ChosenAll(nic: NIC, mac: string, fields: seq<string>)
    requires Chosen(nic, mac, fields)
    ensures mac == ChosenMac(fields) && nic.bridge == ChosenBridge(fields) && nic.model == ChosenModel(fields)
  {
  }

  lemma LowerIsMac(s: string)
    requires IsMac(s)
    ensures IsLowerMac(ToLower(s))
  {
  }

  /** <model>=<MAC>. */
  predicate Fills(field: string) {
    KeyOf(field) != "bridge" && KeyOf(field) != "model" && KeyOf(field) != "macaddr" && IsMac(ValueOf(field))
  }

  predicate NamesMac(field: string) {
    KeyOf(field) == "macaddr"
  }

  /** One field: a macaddr replaces, a model fills what is empty. */
  lemma MacAfterMeaning(mac: string, field: string)
    ensures NamesMac(field) ==> MacAfter(mac, field) == ValueOf(field)
    ensures !NamesMac(field) ==> MacAfter(mac, field) == if mac == "" && Fills(field) then ValueOf(field) else mac
    ensures Fills(field) ==> ValueOf(field) != "" && !NamesMac(field)
  {
    hide KeyOf, ValueOf;
  }

  /** Where the last macaddr stands; -1 if there is none. */
  function LastMacaddr(fields: seq<string>): (i: int)
    ensures -1 <= i < |fields| && (i >= 0 ==> NamesMac(fields[i]))
    ensures forall j :: i < j < |fields| ==> !NamesMac(fields[j])
  {
    if fields == [] then -1
    else if NamesMac(fields[|fields| - 1]) then |fields| - 1
    else LastMacaddr(fields[..|fields| - 1])
  }

  /** Where the first <model>=<MAC> from position n on stands; at the end if
      there is none. */
  function FirstFiller(fields: seq<string>, n: nat): (k: nat)
    requires n <= |fields|
    ensures n <= k <= |fields| && (k < |fields| ==> Fills(fields[k]))
    ensures forall j :: n <= j < k ==> !Fills(fields[j])
    decreases |fields| - n
  {
    if n == |fields| || Fills(fields[n]) then n else FirstFiller(fields, n + 1)
  }

  /** The MAC of a line: the last macaddr's value, and if that is empty or there
      is no macaddr, the first <model>=<MAC> after it; else none. */
  lemma {:induction false} ChosenMacMeaning(fields: seq<string>)
    ensures var i := LastMacaddr(fields);
            var k := FirstFiller(fields, i + 1);
            ChosenMac(fields) ==
            if i >= 0 && ValueOf(fields[i]) != "" then ValueOf(fields[i])
            else if k < |fields| then ValueOf(fields[k])
            else ""
  {
    hide NamesMac, Fills, ValueOf, MacAfter, FirstFiller;
    if fields != [] {
      var n := |fields| - 1;
      var before, i := fields[..n], LastMacaddr(fields);
      ChosenMacMeaning(before);
      MacAfterMeaning(ChosenMac(before), fields[n]);
      if i < n {
        assert LastMacaddr(before) == i;
        FirstFillerMore(fields, i + 1);
        MacAfterMeaning("", fields[FirstFiller(before, i + 1)]);
      }
    }
  }

  lemma FirstFillerMore(fields: seq<string>, n: nat)
    requires n < |fields|
    ensures var k := FirstFiller(fields[..|fields| - 1], n);
            FirstFiller(fields, n) == if k < |fields| - 1 || Fills(fields[k]) then k else k + 1
  {
    hide Fills, FirstFiller;
    var k := FirstFiller(fields[..|fields| - 1], n);
    assert forall j :: n <= j < k ==> fields[..|fields| - 1][j] == fields[j];
  }

  /** The last bridge field decides. */
  lemma {:induction false} LastBridgeDecides(fields: seq<string>, i: nat)
    requires i < |fields| && KeyOf(fields[i]) == "bridge"
    requires forall j :: i < j < |fields| ==> KeyOf(fields[j]) != "bridge"
    ensures ChosenBridge(fields) == ValueOf(fields[i])
  {
    hide KeyOf, ValueOf;
    var n := |fields| - 1;
    if i < n {
      assert fields[..n][i] == fields[i] && forall j :: i < j < n ==> fields[..n][j] == fields[j];
      LastBridgeDecides(fields[..n], i);
    }
  }

  /** Without one the NIC is on no bridge. */
  lemma {:induction false} NoBridgeNamed(fields: seq<string>)
    requires forall j :: 0 <= j < |fields| ==> KeyOf(fields[j]) != "bridge"
    ensures ChosenBridge(fields) == ""
  {
    hide KeyOf, ValueOf;
    if fields != [] {
      var n := |fields| - 1;
      assert forall j :: 0 <= j < n ==> fields[..n][j] == fields[j];
      NoBridgeNamed(fields[..n]);
    }
  }

  /** The last model field decides, unless a <model>=<MAC> follows. */
  lemma {:induction false} LastModelDecides(fields: seq<string>, i: nat)
    requires i < |fields| && KeyOf(fields[i]) == "model"
    requires forall j :: i < j < |fields| ==> KeyOf(fields[j]) != "model" && !Fills(fields[j])
    ensures ChosenModel(fields) == ValueOf(fields[i])
  {
    hide KeyOf, ValueOf, IsMac, ChosenMac;
    var n := |fields| - 1;
    if i < n {
      assert fields[..n][i] == fields[i] && forall j :: i < j < n ==> fields[..n][j] == fields[j];
      LastModelDecides(fields[..n], i);
    }
  }

  /** Without one the field whose MAC is taken names the model. */
  lemma {:induction false} FirstFillerNamesModel(fields: seq<string>, i: nat)
    requires i < |fields| && Fills(fields[i])
    requires forall j :: 0 <= j < i ==> !Fills(fields[j])
    requires forall j :: 0 <= j < |fields| ==> !NamesMac(fields[j]) && KeyOf(fields[j]) != "model"
    ensures ChosenModel(fields) == KeyOf(fields[i])
  {
    hide KeyOf, ValueOf, IsMac, ChosenMac, NamesMac;
    var n := |fields| - 1;
    assert forall j :: 0 <= j < n ==> fields[..n][j] == fields[j];
    MacAfterMeaning("", fields[i]);
    ChosenMacMeaning(fields[..n]);
    if i < n {
      FirstFillerNamesModel(fields[..n], i);
      assert FirstFiller(fields[..n], 0) == i;
    } else {
      assert FirstFiller(fields[..n], 0) == n;
    }
  }

  // ----- one guest's config

  /** The index of a net<n> key, of one or two digits. */
  function NICIndex(key: string): (r: Option<nat>)
    ensures r.Some? ==> r.value < 100
  {
    if !("net" <= key) then None
    else
      var d := key[3..];
      if |d| == 1 && Digit(d[0]) then Some((d[0] as int) - ('0' as int))
      else if |d| == 2 && Digit(d[0]) && Digit(d[1])
        then Some(10 * ((d[0] as int) - ('0' as int)) + (d[1] as int) - ('0' as int))
      else None
  }

  predicate IsHeader(line: string) {
    line != "" && line[0] == '['
  }

  /** The lines before the first section header. */
  function Live(lines: seq<string>): seq<string> {
    if lines == [] || IsHeader(lines[0]) then [] else [lines[0]] + Live(lines[1..])
  }

  /** The net line's index: None when the line is none. */
  function LineIndex(trim: string -> string, line: string): (r: Option<nat>)
    ensures r.Some? ==> r.value < 100
  {
    var n := IndexOf(line, ':');
    if n == |line| then None else NICIndex(trim(line[..n]))
  }

  /** Nothing after the first section header is read: not the pending changes,
      not a snapshot. */
  lemma {:induction false} LiveStops(lines: seq<string>, header: string, rest: seq<string>)
    requires IsHeader(header) && forall i :: 0 <= i < |lines| ==> !IsHeader(lines[i])
    ensures Live(lines + [header] + rest) == lines
  {
    if lines == [] {
      assert (lines + [header] + rest)[0] == header;
    } else {
      assert (lines + [header] + rest)[1..] == lines[1..] + [header] + rest;
      LiveStops(lines[1..], header, rest);
    }
  }

  lemma {:induction false} LiveIs(lines: seq<string>, k: nat)
    requires k <= |lines| && (k < |lines| ==> IsHeader(lines[k]))
    requires forall i :: 0 <= i < k ==> !IsHeader(lines[i])
    ensures Live(lines) == lines[..k]
  {
    if k > 0 {
      LiveIs(lines[1..], k - 1);
      assert lines[..k] == [lines[0]] + lines[1..][..k - 1];
    }
  }

  function Trimmed(trim: string -> string, parts: seq<string>): seq<string> {
    seq(|parts|, i requires 0 <= i < |parts| => trim(parts[i]))
  }

  /** The lines of a file, and the fields of a value. */
  function LinesOf(trim: string -> string, data: string): seq<string> {
    Trimmed(trim, Split(data, '\n'))
  }

  function FieldsOf(trim: string -> string, value: string): seq<string> {
    Trimmed(trim, Split(value, ','))
  }

  /** The NIC of a line: None when it is no net line. */
  function NetNIC(trim: string -> string, vmid: string, line: string): Option<NIC> {
    match LineIndex(trim, line)
    case None => None
    case Some(index) =>
      var n := IndexOf(line, ':');
      Some(LineNIC(vmid, index, FieldsOf(trim, trim(if n < |line| then line[n + 1..] else ""))))
  }

  /** The NICs of the net lines, in order. */
  function NetNICs(trim: string -> string, vmid: string, lines: seq<string>): seq<NIC> {
    if lines == [] then []
    else
      var n := NetNIC(trim, vmid, lines[|lines| - 1]);
      NetNICs(trim, vmid, lines[..|lines| - 1]) + if n.Some? then [n.value] else []
  }

  /** One NIC for each net line, and no other, in the order of the lines: at
      says which line each comes from. */
  lemma {:induction false} NetNICsMeaning(trim: string -> string, vmid: string, lines: seq<string>)
    returns (at: seq<nat>)
    ensures |at| == |NetNICs(trim, vmid, lines)|
    ensures forall k :: 0 <= k < |at| ==>
              at[k] < |lines| && NetNIC(trim, vmid, lines[at[k]]) == Some(NetNICs(trim, vmid, lines)[k])
    ensures forall k, m :: 0 <= k < m < |at| ==> at[k] < at[m]
    ensures forall i :: 0 <= i < |lines| && NetNIC(trim, vmid, lines[i]).Some? ==> i in at
  {
    hide NetNIC;
    at := [];
    if lines != [] {
      var n := |lines| - 1;
      at := NetNICsMeaning(trim, vmid, lines[..n]);
      if NetNIC(trim, vmid, lines[n]).Some? {
        at := at + [n];
      }
      assert forall i :: 0 <= i < n ==> lines[..n][i] == lines[i];
    }
  }

  lemma NetNICsMore(trim: string -> string, vmid: string, lines: seq<string>, line: string)
    ensures NetNICs(trim, vmid, lines + [line])
         == NetNICs(trim, vmid, lines) + if NetNIC(trim, vmid, line).Some? then [NetNIC(trim, vmid, line).value] else []
  {
    hide NetNIC;
    assert (lines + [line])[..|lines|] == lines;
  }

  /** The NICs of a config. */
  function ConfigNICs(trim: string -> string, vmid: string, data: string): seq<NIC> {
    NetNICs(trim, vmid, Live(LinesOf(trim, data)))
  }

  method ParseNICs(vmid: string, data: string, trim: string -> string) returns (nics: seq<NIC>)
    ensures nics == ConfigNICs(trim, vmid, data)
  {
    hide LineIndex, LineNIC, NetNICs, FieldsOf, IsHeader, Live;
    nics := [];
    var lines := Split(data, '\n');
    ghost var trimmed := LinesOf(trim, data);
    NetNICsNone(trim, vmid);
    var i := 0;
    while i < |lines| && !IsHeader(trim(lines[i]))
      invariant i <= |lines| && forall j :: 0 <= j < i ==> !IsHeader(trimmed[j])
      invariant nics == NetNICs(trim, vmid, trimmed[..i])
    {
      var line := trim(lines[i]);
      assert trimmed[..i + 1] == trimmed[..i] + [line];
      NetNICsMore(trim, vmid, trimmed[..i], line);
      i := i + 1;
      var index := LineIndex(trim, line);
      if index.None? {
        continue;
      }
      var n := IndexOf(line, ':');
      var nic := ParseNIC(vmid, index.value, FieldsOf(trim, trim(if n < |line| then line[n + 1..] else "")));
      nics := nics + [nic];
    }
    LiveIs(trimmed, i);
  }

  lemma NetNICsNone(trim: string -> string, vmid: string)
    ensures NetNICs(trim, vmid, []) == []
  {
  }

  /** Every NIC of a config is named after the guest, by a small index, with a
      valid MAC in lower case or none. */
  ghost predicate NICOk(n: NIC, vmid: string) {
    n.vmid == vmid && n.index < 100 && (n.mac == "" || IsLowerMac(n.mac))
  }

  lemma LineNICOk(vmid: string, index: nat, fields: seq<string>)
    requires index < 100
    ensures NICOk(LineNIC(vmid, index, fields), vmid)
  {
    hide IsMac, IsLowerMac, ChosenMac, ChosenModel, ChosenBridge;
    if IsMac(ChosenMac(fields)) {
      LowerIsMac(ChosenMac(fields));
    }
  }

  lemma {:induction false} NetNICsOk(trim: string -> string, vmid: string, lines: seq<string>)
    ensures forall n :: n in NetNICs(trim, vmid, lines) ==> NICOk(n, vmid)
  {
    hide LineIndex, LineNIC, NICOk, FieldsOf;
    if lines != [] {
      var line := lines[|lines| - 1];
      NetNICsOk(trim, vmid, lines[..|lines| - 1]);
      if LineIndex(trim, line).Some? {
        var n := IndexOf(line, ':');
        LineNICOk(vmid, LineIndex(trim, line).value, FieldsOf(trim, trim(if n < |line| then line[n + 1..] else "")));
      }
    }
  }

  // ----- all guests

  /** Atoi of a VM ID. */
  function Number(s: string): int {
    if s == "" then 0 else 10 * Number(s[..|s| - 1]) + (s[|s| - 1] as int) - ('0' as int)
  }

  /** By VM ID and index. */
  predicate LeNIC(a: NIC, b: NIC) {
    Number(a.vmid) < Number(b.vmid) || (Number(a.vmid) == Number(b.vmid) && a.index <= b.index)
  }

  /** One config file: its VM ID and text, None when it cannot be read. */
  datatype Config = Config(vmid: string, data: Option<string>)

  /** The NICs, or why there are none. */
  datatype Read = NICs(nics: seq<NIC>) | NoDirectory | Unreadable(vmid: string)

  /** The NICs of every guest's config, file by file. */
  function AllNICs(trim: string -> string, configs: seq<Config>): seq<NIC> {
    if configs == [] then []
    else AllNICs(trim, configs[..|configs| - 1]) + GuestsNICs(trim, configs[|configs| - 1])
  }

  /** Files not named after a guest are not read. */
  function GuestsNICs(trim: string -> string, c: Config): seq<NIC> {
    if IsVMID(c.vmid) && c.data.Some? then ConfigNICs(trim, c.vmid, c.data.value) else []
  }

  lemma AllNICsMore(trim: string -> string, configs: seq<Config>, c: Config)
    ensures AllNICs(trim, configs + [c]) == AllNICs(trim, configs) + GuestsNICs(trim, c)
  {
    hide GuestsNICs;
    assert (configs + [c])[..|configs|] == configs;
  }

  /** A NIC is among them exactly if it is in the config of a guest. */
  lemma {:induction false} AllNICsMeaning(trim: string -> string, configs: seq<Config>, n: NIC)
    ensures n in AllNICs(trim, configs) <==> exists c :: c in configs && n in GuestsNICs(trim, c)
  {
    hide GuestsNICs;
    if configs != [] {
      AllNICsMeaning(trim, configs[..|configs| - 1], n);
      assert forall c :: c in configs <==> c in configs[..|configs| - 1] || c == configs[|configs| - 1];
    }
  }

  predicate Fails(c: Config) {
    IsVMID(c.vmid) && c.data.None?
  }

  /** dir is the directory's config files, None when it cannot be read. The NICs
      are exactly those of all guests' live net lines, as often as they are
      there. */
  method GuestNICs(dir: Option<seq<Config>>, trim: string -> string) returns (r: Read)
    ensures r.NoDirectory? <==> dir.None?
    ensures r.Unreadable? <==> dir.Some? && exists i :: 0 <= i < |dir.value| && Fails(dir.value[i])
    ensures r.Unreadable? ==>
              exists i :: 0 <= i < |dir.value| && Fails(dir.value[i]) && dir.value[i].vmid == r.vmid
                && forall j :: 0 <= j < i ==> !Fails(dir.value[j])
    ensures r.NICs? ==> Sorted(r.nics, LeNIC) && multiset(r.nics) == multiset(AllNICs(trim, dir.value))
    ensures r.NICs? ==> forall n :: n in r.nics ==> Named(n) && (n.mac == "" || IsLowerMac(n.mac))
  {
    hide IsVMID, ConfigNICs, LeNIC, AllNICs, Named, IsLowerMac;
    if dir.None? {
      return NoDirectory;
    }
    var configs := dir.value;
    var all: seq<NIC> := [];
    AllNICsNone(trim);
    for i := 0 to |configs|
      invariant forall j :: 0 <= j < i ==> !Fails(configs[j])
      invariant all == AllNICs(trim, configs[..i])
    {
      var c := configs[i];
      assert configs[..i + 1] == configs[..i] + [c];
      AllNICsMore(trim, configs[..i], c);
      if !IsVMID(c.vmid) {
        continue;
      }
      if c.data.None? {
        return Unreadable(c.vmid);
      }
      var more := ParseNICs(c.vmid, c.data.value, trim);
      all := all + more;
    }
    assert configs[..|configs|] == configs;
    SortedNICs(all);
    AllNICsOk(trim, configs);
    return NICs(Sort(all, LeNIC));
  }

  lemma AllNICsNone(trim: string -> string)
    ensures AllNICs(trim, []) == []
  {
  }

  lemma AllNICsOk(trim: string -> string, configs: seq<Config>)
    ensures forall n :: n in AllNICs(trim, configs) ==> Named(n) && (n.mac == "" || IsLowerMac(n.mac))
  {
    hide AllNICs, IsLowerMac, IsVMID, NetNICs, Live, LinesOf;
    forall n | n in AllNICs(trim, configs) ensures Named(n) && (n.mac == "" || IsLowerMac(n.mac)) {
      AllNICsMeaning(trim, configs, n);
      var c :| c in configs && n in GuestsNICs(trim, c);
      NetNICsOk(trim, c.vmid, Live(LinesOf(trim, c.data.value)));
    }
  }

  lemma SortedNICs(all: seq<NIC>)
    ensures Sorted(Sort(all, LeNIC), LeNIC) && forall n :: n in Sort(all, LeNIC) <==> n in all
  {
    assert TotalPreorder(LeNIC) by {
      hide Number;
    }
    SortSorted(all, LeNIC);
    SameElements(all, Sort(all, LeNIC));
  }

  // ----- from the configs to the frames

  /** What the configs say of a frame: every live net line of a guest that puts
      its NIC on the bridge, at the port the frame comes from, allows it. */
  ghost predicate AllowedByText(f: Frame, bridge: string, trim: string -> string, configs: seq<Config>) {
    forall c, line :: c in configs && IsVMID(c.vmid) && c.data.Some? && line in Live(LinesOf(trim, c.data.value)) ==>
      LineAllows(f, bridge, NetNIC(trim, c.vmid, line))
  }

  predicate LineAllows(f: Frame, bridge: string, nic: Option<NIC>) {
    nic.Some? && nic.value.bridge == bridge && Tap(nic.value) == f.iif ==> Honest(f, nic.value.mac)
  }

  lemma NetNICsContain(trim: string -> string, vmid: string, lines: seq<string>, n: NIC)
    ensures n in NetNICs(trim, vmid, lines) <==> exists line :: line in lines && NetNIC(trim, vmid, line) == Some(n)
  {
    hide NetNIC, NetNICs;
    var at := NetNICsMeaning(trim, vmid, lines);
    var nics := NetNICs(trim, vmid, lines);
    if n in nics {
      var k :| 0 <= k < |nics| && nics[k] == n;
      assert lines[at[k]] in lines && NetNIC(trim, vmid, lines[at[k]]) == Some(n);
    }
    if line :| line in lines && NetNIC(trim, vmid, line) == Some(n) {
      var i :| 0 <= i < |lines| && lines[i] == line;
      var k :| 0 <= k < |at| && at[k] == i;
      assert nics[k] == n;
    }
  }

  lemma AllowedMeaning(f: Frame, bridge: string, trim: string -> string, configs: seq<Config>)
    ensures Allowed(f, bridge, AllNICs(trim, configs)) <==> AllowedByText(f, bridge, trim, configs)
  {
    hide Tap, Honest, IsVMID, NetNIC, NetNICs, LinesOf, Live, AllNICs;
    var all := AllNICs(trim, configs);
    if Allowed(f, bridge, all) {
      forall c, line | c in configs && IsVMID(c.vmid) && c.data.Some? && line in Live(LinesOf(trim, c.data.value))
        ensures LineAllows(f, bridge, NetNIC(trim, c.vmid, line))
      {
        if NetNIC(trim, c.vmid, line).Some? {
          var n := NetNIC(trim, c.vmid, line).value;
          NetNICsContain(trim, c.vmid, Live(LinesOf(trim, c.data.value)), n);
          AllNICsMeaning(trim, configs, n);
        }
      }
    }
    if AllowedByText(f, bridge, trim, configs) {
      forall n | n in all && n.bridge == bridge && Tap(n) == f.iif ensures Honest(f, n.mac) {
        AllNICsMeaning(trim, configs, n);
        var c :| c in configs && n in GuestsNICs(trim, c);
        NetNICsContain(trim, c.vmid, Live(LinesOf(trim, c.data.value)), n);
        var line :| line in Live(LinesOf(trim, c.data.value)) && NetNIC(trim, c.vmid, line) == Some(n);
        assert LineAllows(f, bridge, NetNIC(trim, c.vmid, line));
      }
    }
  }

  /** The binder's reading: the rules for the bridge, from the text of the
      configs. They accept exactly the frames the text allows. */
  method RulesOf(bridge: string, dir: Option<seq<Config>>, trim: string -> string) returns (rules: Option<seq<Rule>>)
    ensures rules.Some? <==> dir.Some? && forall c :: c in dir.value ==> !Fails(c)
    ensures rules.Some? ==> forall f :: Accepts(rules.value, f) <==> AllowedByText(f, bridge, trim, dir.value)
  {
    hide AllowedByText, AllNICs, Accepts, Fails, Tap, Honest, LeNIC, Sorted, Named, IsLowerMac;
    var r := GuestNICs(dir, trim);
    if !r.NICs? {
      return None;
    }
    var made := Render(bridge, r.nics);
    SameElements(AllNICs(trim, dir.value), r.nics);
    forall f ensures Accepts(made, f) <==> AllowedByText(f, bridge, trim, dir.value) {
      AllowedMeaning(f, bridge, trim, dir.value);
      AllowedSame(f, bridge, r.nics, AllNICs(trim, dir.value));
    }
    return Some(made);
  }

  lemma AllowedSame(f: Frame, bridge: string, a: seq<NIC>, b: seq<NIC>)
    requires forall n :: n in a <==> n in b
    ensures Allowed(f, bridge, a) <==> Allowed(f, bridge, b)
  {
    hide Tap, Honest;
  }
}
