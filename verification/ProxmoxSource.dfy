/** The files of a Proxmox node and what is loaded from them (internal/proxmox:
    fingerprint, vmconfig). */
module ProxmoxSource {
  import opened Options
  import opened Fingerprints
  import NICReader

  datatype Result<T> = Ok(value: T) | Err(message: string)

  /** A config file under qemu-server, by its path. */
  datatype ConfigFile = ConfigFile(path: string, state: FileState)

  datatype Listing = Unreadable(message: string) | GlobFails(message: string) | Files(files: seq<ConfigFile>)

  /** Everything that is read: the target of the local link, the guest configs,
      the node description and corosync.conf. */
  datatype Tree = Tree(link: Result<string>, configs: Listing, description: FileState, corosync: FileState)

  const LOCAL_CONFIG: string := "/local/config"
  const COROSYNC: string := "/corosync.conf"
  const LINK_OK: string := "local->"
  const LINK_FAILS: string := "local!"
  const DIR_FAILS: string := "qemu-server!"
  const GLOB_FAILS: string := "glob!"

  function LinkField(link: Result<string>): Field {
    match link
    case Ok(target) => Field('s', LINK_OK + target)
    case Err(message) => Field('s', LINK_FAILS + message)
  }

  function FilesFields(files: seq<ConfigFile>): (r: seq<Field>)
    ensures |r| == 2 * |files|
  {
    if files == [] then []
    else FilesFields(files[..|files| - 1]) + FileFields(files[|files| - 1].path, files[|files| - 1].state)
  }

  function ListingFields(configs: Listing): seq<Field> {
    match configs
    case Unreadable(message) => [Field('s', DIR_FAILS + message)]
    case GlobFails(message) => [Field('s', GLOB_FAILS + message)]
    case Files(files) => FilesFields(files)
  }

  /** The inputs of the fingerprint, in order. */
  function SourceFields(root: string, tree: Tree): seq<Field> {
    [LinkField(tree.link)] + ListingFields(tree.configs)
    + FileFields(root + LOCAL_CONFIG, tree.description) + FileFields(root + COROSYNC, tree.corosync)
  }

  method SourceFingerprint(root: string, tree: Tree) returns (b: FingerprintBuilder)
    ensures fresh(b) && b.Valid() && b.fields == SourceFields(root, tree)
  {
    hide LINK_OK, LINK_FAILS, DIR_FAILS, GLOB_FAILS, LOCAL_CONFIG, COROSYNC, FileFields, Encode;
    b := new FingerprintBuilder();
    match tree.link {
      case Ok(target) => b.AddString(LINK_OK + target);
      case Err(message) => b.AddString(LINK_FAILS + message);
    }
    match tree.configs {
      case Unreadable(message) => b.AddString(DIR_FAILS + message);
      case GlobFails(message) => b.AddString(GLOB_FAILS + message);
      case Files(files) =>
        for i := 0 to |files|
          invariant fresh(b) && b.Valid() && b.fields == [LinkField(tree.link)] + FilesFields(files[..i])
        {
          assert files[..i + 1][..i] == files[..i];
          b.AddFile(files[i].path, files[i].state);
        }
        assert files[..|files|] == files;
    }
    b.AddFile(root + LOCAL_CONFIG, tree.description);
    b.AddFile(root + COROSYNC, tree.corosync);
  }

  lemma LinkInjective(a: Result<string>, b: Result<string>)
    requires LinkField(a) == LinkField(b)
    ensures a == b
  {
    var s, t := LinkField(a).data, LinkField(b).data;
    assert s[5] == t[5];
    if a.Ok? {
      assert s[7..] == a.value && t[7..] == b.value;
    } else {
      assert s[6..] == a.message && t[6..] == b.message;
    }
  }

  lemma FilesLast(files: seq<ConfigFile>)
    requires files != []
    ensures var n := |files| - 1;
            FilesFields(files) == FilesFields(files[..n]) + [Field('p', files[n].path), StateField(files[n].state)]
  {
    hide StateField;
  }

  lemma {:induction false} FilesInjective(a: seq<ConfigFile>, b: seq<ConfigFile>)
    requires FilesFields(a) == FilesFields(b)
    ensures a == b
  {
    hide FilesFields, StateField;
    if a != [] {
      var n := |a| - 1;
      FilesLast(a);
      FilesLast(b);
      var s, t := FilesFields(a), FilesFields(b);
      assert s[..2 * n] == FilesFields(a[..n]) && t[..2 * n] == FilesFields(b[..n]);
      assert s[2 * n] == Field('p', a[n].path) && t[2 * n] == Field('p', b[n].path);
      assert s[2 * n + 1] == StateField(a[n].state) && t[2 * n + 1] == StateField(b[n].state);
      FilesInjective(a[..n], b[..n]);
      StateInjective(a[n].state, b[n].state);
      assert a == a[..n] + [a[n]] && b == b[..n] + [b[n]];
    }
  }

  lemma FilesKinds(files: seq<ConfigFile>)
    ensures |files| > 0 ==> FilesFields(files)[0].kind == 'p'
  {
    if |files| > 1 {
      FilesKinds(files[..|files| - 1]);
    }
  }

  lemma ListingInjective(a: Listing, b: Listing)
    requires ListingFields(a) == ListingFields(b)
    ensures a == b
  {
    if a.Files? && b.Files? {
      FilesInjective(a.files, b.files);
    } else {
      if a.Files? {
        FilesKinds(a.files);
      }
      if b.Files? {
        FilesKinds(b.files);
      }
      ErrorsInjective(a, b);
    }
  }

  lemma ErrorsInjective(a: Listing, b: Listing)
    requires ListingFields(a) == ListingFields(b) && !a.Files? && !b.Files?
    ensures a == b
  {
    var s, t := ListingFields(a)[0].data, ListingFields(b)[0].data;
    assert s[0] == t[0];
    if a.Unreadable? {
      assert s[12..] == a.message && t[12..] == b.message;
    } else {
      assert s[5..] == a.message && t[5..] == b.message;
    }
  }

  /** The inputs determine everything that was read. */
  lemma SourceInjective(root: string, a: Tree, b: Tree)
    requires SourceFields(root, a) == SourceFields(root, b)
    ensures a == b
  {
    hide LinkField, ListingFields, StateField;
    var s, t := SourceFields(root, a), SourceFields(root, b);
    var n, m := |ListingFields(a.configs)|, |ListingFields(b.configs)|;
    assert |s| == n + 5 && |t| == m + 5;
    assert s[0] == LinkField(a.link) && t[0] == LinkField(b.link);
    assert s[1..n + 1] == ListingFields(a.configs) && t[1..m + 1] == ListingFields(b.configs);
    assert s[n + 2] == StateField(a.description) && t[m + 2] == StateField(b.description);
    assert s[n + 4] == StateField(a.corosync) && t[m + 4] == StateField(b.corosync);
    LinkInjective(a.link, b.link);
    ListingInjective(a.configs, b.configs);
    StateInjective(a.description, b.description);
    StateInjective(a.corosync, b.corosync);
  }

  // ----- what is loaded

  /** How contents are read: a guest's config, the VM ID of a path, the node's
      name from the link's target, the cluster's name, the node description. */
  datatype Parsers<VM> = Parsers(
    vm: (string, string) -> VM,
    vmid: string -> string,
    node: string -> Option<string>,
    cluster: string -> Option<string>,
    description: string -> map<string, string>)

  /** The guests of the readable files, by VM ID. */
  function GuestsOf<VM>(p: Parsers<VM>, files: seq<ConfigFile>): map<string, VM> {
    if files == [] then map[]
    else
      var f := files[|files| - 1];
      var before := GuestsOf(p, files[..|files| - 1]);
      if f.state.Content? then before[p.vmid(f.path) := p.vm(p.vmid(f.path), f.state.data)] else before
  }

  /** The file is readable, and this guest's. */
  predicate IsOf<VM>(p: Parsers<VM>, f: ConfigFile, id: string) {
    f.state.Content? && p.vmid(f.path) == id
  }

  /** A guest is known exactly if a readable file is its: a file that cannot be
      read is skipped. */
  lemma {:induction false} GuestsOfMeaning<VM>(p: Parsers<VM>, files: seq<ConfigFile>, id: string)
    ensures id in GuestsOf(p, files) <==> exists i :: 0 <= i < |files| && IsOf(p, files[i], id)
  {
    if files != [] {
      var n := |files| - 1;
      GuestsOfMeaning(p, files[..n], id);
      assert forall i :: 0 <= i < n ==> files[..n][i] == files[i];
    }
  }

  /** It is what the last of its readable files says. */
  lemma {:induction false} LastFileDecides<VM>(p: Parsers<VM>, files: seq<ConfigFile>, i: nat, id: string)
    requires i < |files| && IsOf(p, files[i], id)
    requires forall j :: i < j < |files| ==> !IsOf(p, files[j], id)
    ensures id in GuestsOf(p, files) && GuestsOf(p, files)[id] == p.vm(id, files[i].state.data)
  {
    var n := |files| - 1;
    if i < n {
      assert files[..n][i] == files[i] && forall j :: i < j < n ==> files[..n][j] == files[j];
      LastFileDecides(p, files[..n], i, id);
    }
  }

  /** What is loaded: an error exactly if the directory cannot be listed. */
  function Loaded<VM>(p: Parsers<VM>, configs: Listing): Result<map<string, VM>> {
    match configs
    case Unreadable(message) => Err(message)
    case GlobFails(message) => Err(message)
    case Files(files) => Ok(GuestsOf(p, files))
  }

  method ParseVMConfigs<VM>(p: Parsers<VM>, configs: Listing) returns (r: Result<map<string, VM>>)
    ensures r == Loaded(p, configs)
    ensures r.Ok? <==> configs.Files?
    ensures r.Ok? ==> forall id :: id in r.value <==>
            exists i :: 0 <= i < |configs.files| && IsOf(p, configs.files[i], id)
  {
    match configs
    case Unreadable(message) => return Err(message);
    case GlobFails(message) => return Err(message);
    case Files(files) =>
      var vms: map<string, VM> := map[];
      for i := 0 to |files|
        invariant vms == GuestsOf(p, files[..i])
      {
        assert files[..i + 1][..i] == files[..i];
        if !files[i].state.Content? {
          continue;
        }
        var vmid := p.vmid(files[i].path);
        vms := vms[vmid := p.vm(vmid, files[i].state.data)];
      }
      assert files[..|files|] == files;
      forall id ensures id in vms <==> exists i :: 0 <= i < |files| && IsOf(p, files[i], id) {
        GuestsOfMeaning(p, files, id);
      }
      return Ok(vms);
  }

  /** The config files as the NIC reader meets them. */
  function GuestDir<VM>(p: Parsers<VM>, configs: Listing): Option<seq<NICReader.Config>> {
    if configs.Files? then Some(seq(|configs.files|,
                                    i requires 0 <= i < |configs.files| => GuestConfig(p, configs.files[i]))) else None
  }

  function GuestConfig<VM>(p: Parsers<VM>, f: ConfigFile): NICReader.Config {
    NICReader.Config(p.vmid(f.path), if f.state.Content? then Some(f.state.data) else None)
  }

  const ZONE: string := "availability-zone"
  const REGION: string := "region"
  const NODE: string := "node"
  const CLUSTER: string := "cluster"

  /** The node's topology: a key of the description as it says; otherwise the
      node's or the cluster's name, where that is valid; otherwise the default. */
  function Topology<VM>(p: Parsers<VM>, tree: Tree): map<string, string> {
    var defaults := map[ZONE := "proxmox", REGION := "local"];
    var node := if tree.link.Ok? then p.node(tree.link.value) else None;
    var placed := if node.Some? then defaults[ZONE := node.value][NODE := node.value] else defaults;
    var cluster := if tree.corosync.Content? then p.cluster(tree.corosync.data) else None;
    var named := if cluster.Some? then placed[REGION := cluster.value][CLUSTER := cluster.value] else placed;
    named + if tree.description.Content? then p.description(tree.description.data) else map[]
  }

  method HostTopology<VM>(p: Parsers<VM>, tree: Tree) returns (topology: map<string, string>)
    ensures topology == Topology(p, tree)
  {
    hide ZONE, REGION, NODE, CLUSTER;
    topology := map[ZONE := "proxmox", REGION := "local"];
    match tree.link {
      case Err(message) =>
      case Ok(target) =>
        var node := p.node(target);
        if node.Some? {
          topology := topology[ZONE := node.value];
          topology := topology[NODE := node.value];
        }
    }
    if tree.corosync.Content? {
      var cluster := p.cluster(tree.corosync.data);
      if cluster.Some? {
        topology := topology[REGION := cluster.value];
        topology := topology[CLUSTER := cluster.value];
      }
    }
    if tree.description.Content? {
      topology := Overlay(topology, p.description(tree.description.data));
    } else {
      assert topology + map[] == topology;
    }
  }

  lemma OverlayOne(before: map<string, string>, described: map<string, string>, keys: set<string>, key: string)
    requires key in keys && keys <= described.Keys
    ensures (before + (described - keys))[key := described[key]] == before + (described - (keys - {key}))
  {
  }

  /** Every described key replaces what was there. */
  method Overlay(before: map<string, string>, described: map<string, string>) returns (topology: map<string, string>)
    ensures topology == before + described
  {
    topology := before;
    var keys := described.Keys;
    while keys != {}
      invariant keys <= described.Keys
      invariant topology == before + (described - keys)
      decreases keys
    {
      var key :| key in keys;
      OverlayOne(before, described, keys, key);
      topology := topology[key := described[key]];
      keys := keys - {key};
    }
    assert described - {} == described;
  }

  /** Which source each key takes its value from. */
  lemma TopologySources<VM>(p: Parsers<VM>, tree: Tree, key: string)
    ensures var described := if tree.description.Content? then p.description(tree.description.data) else map[];
            var node := if tree.link.Ok? then p.node(tree.link.value) else None;
            var cluster := if tree.corosync.Content? then p.cluster(tree.corosync.data) else None;
            var t := Topology(p, tree);
            && (key in described ==> key in t && t[key] == described[key])
            && (key !in described && key == ZONE ==> key in t && t[key] == if node.Some? then node.value else "proxmox")
            && (key !in described && key == REGION ==>
                  key in t && t[key] == if cluster.Some? then cluster.value else "local")
            && (key !in described && key == NODE ==> (key in t <==> node.Some?) && (key in t ==> t[key] == node.value))
            && (key !in described && key == CLUSTER ==>
                  (key in t <==> cluster.Some?) && (key in t ==> t[key] == cluster.value))
            && (key !in described && key !in {ZONE, REGION, NODE, CLUSTER} ==> key !in t)
  {
    assert ZONE[0] == 'a' && REGION[0] == 'r' && NODE[0] == 'n' && CLUSTER[0] == 'c';
  }

  /** Two snapshots have one fingerprint exactly if all that is read is the same,
      for a hash without collisions; so they load the same guests or the same
      error, the same NICs, for the same rules, and the same topology. */
  lemma SameFingerprintSameLoad<Digest(!new), VM>(hash: string -> Digest, root: string, a: Tree, b: Tree,
                                                  p: Parsers<VM>, trim: string -> string)
    requires Sized(SourceFields(root, a)) && Sized(SourceFields(root, b))
    requires forall x, y :: hash(x) == hash(y) ==> x == y
    ensures hash(Encode(SourceFields(root, a))) == hash(Encode(SourceFields(root, b))) <==> a == b
    ensures hash(Encode(SourceFields(root, a))) == hash(Encode(SourceFields(root, b))) ==>
              && Loaded(p, a.configs) == Loaded(p, b.configs) && Topology(p, a) == Topology(p, b)
              && GuestDir(p, a.configs) == GuestDir(p, b.configs)
              && (a.configs.Files? ==>
                    NICReader.AllNICs(trim, GuestDir(p, a.configs).value)
                      == NICReader.AllNICs(trim, GuestDir(p, b.configs).value))
  {
    hide Encode, SourceFields, Topology, Loaded;
    if hash(Encode(SourceFields(root, a))) == hash(Encode(SourceFields(root, b))) {
      EncodeInjective(SourceFields(root, a), SourceFields(root, b));
      SourceInjective(root, a, b);
    }
  }
}
