/** SPIFFE IDs of node aliases (internal/reconcile/wanted.go). */
module AliasPaths {
  import opened Options
  import opened Strings

  /** One path segment of a SPIFFE ID: the characters section 2.2 of the
      SPIFFE-ID standard allows, less the capitals. */
  predicate ValidSegment(s: string) {
    && s != "" && s != "." && s != ".."
    && forall c :: c in s ==> 'a' <= c <= 'z' || '0' <= c <= '9' || c == '.' || c == '-' || c == '_'
  }

  datatype Path = Vm(vmid: string) | Pool(pool: string) | Tag(pool: string, key: string, value: string)

  function Base(td: string, cluster: string): string {
    "spiffe://" + td + "/pve/" + cluster
  }

  function Render(base: string, p: Path): string {
    match p
    case Vm(vmid) => base + "/vm/" + vmid
    case Pool(pool) => base + "/pool/" + pool
    case Tag(pool, key, value) => base + "/pool/" + pool + "/tag/" + key + "/" + value
  }

  function PathOf(parts: seq<string>): Option<Path> {
    if |parts| == 2 && parts[0] == "vm" then Some(Vm(parts[1]))
    else if |parts| == 2 && parts[0] == "pool" then Some(Pool(parts[1]))
    else if |parts| == 5 && parts[0] == "pool" && parts[2] == "tag" then Some(Tag(parts[1], parts[3], parts[4]))
    else None
  }

  function Decode(base: string, id: string): Option<Path> {
    if !(base + "/" <= id) then None else PathOf(Split(id[|base| + 1..], '/'))
  }

  /** Every part of the path is a single segment. */
  predicate SlashFree(p: Path) {
    match p
    case Vm(vmid) => '/' !in vmid
    case Pool(pool) => '/' !in pool
    case Tag(pool, key, value) => '/' !in pool && '/' !in key && '/' !in value
  }

  function Parts(p: Path): seq<string> {
    match p
    case Vm(vmid) => ["vm", vmid]
    case Pool(pool) => ["pool", pool]
    case Tag(pool, key, value) => ["pool", pool, "tag", key, value]
  }

  lemma JoinCons(head: string, rest: seq<string>)
    requires rest != []
    ensures Join([head] + rest, '/') == head + "/" + Join(rest, '/')
  {
    assert ([head] + rest)[1..] == rest;
  }

  lemma JoinTag(pool: string, key: string, value: string)
    ensures Join(["pool", pool, "tag", key, value], '/') == "pool" + "/"
            + (pool + "/" + ("tag" + "/" + (key + "/" + value)))
  {
    JoinCons(key, [value]);
    JoinCons("tag", [key] + [value]);
    JoinCons(pool, ["tag"] + ([key] + [value]));
    JoinCons("pool", [pool] + (["tag"] + ([key] + [value])));
    assert ["pool", pool, "tag", key, value] == ["pool"] + ([pool] + (["tag"] + ([key] + [value])));
    assert Join([value], '/') == value;
  }

  lemma RenderJoins(base: string, p: Path)
    ensures Render(base, p) == base + "/" + Join(Parts(p), '/')
  {
    hide ValidSegment, Join;
    assert "/pool/" == "/" + "pool" + "/" && "/tag/" == "/" + "tag" + "/";
    match p
    case Vm(vmid) => JoinPair("vm", vmid);
    case Pool(pool) => JoinPair("pool", pool);
    case Tag(pool, key, value) => JoinTag(pool, key, value); Regroup(base, "pool", pool, "tag", key, value);
  }

  lemma Regroup(base: string, a: string, pool: string, t: string, key: string, value: string)
    ensures base + ("/" + a + "/") + pool + ("/" + t + "/") + key + "/" + value
         == base + "/" + (a + "/" + (pool + "/" + (t + "/" + (key + "/" + value))))
  {
  }

  lemma JoinPair(a: string, b: string)
    ensures Join([a, b], '/') == a + "/" + b
  {
    JoinCons(a, [b]);
    assert [a, b] == [a] + [b];
  }

  lemma PartsSlashFree(p: Path)
    ensures PathOf(Parts(p)) == Some(p)
    ensures |Parts(p)| >= 1 && (SlashFree(p) ==> forall part :: part in Parts(p) ==> '/' !in part)
  {
  }

  /** A rendered ID is read back as the path it was made from, so different
      paths never share an ID. */
  lemma DecodeRender(base: string, p: Path)
    requires SlashFree(p)
    ensures Decode(base, Render(base, p)) == Some(p)
  {
    hide Render, Parts, PathOf, Join, Split;
    RenderJoins(base, p);
    PartsSlashFree(p);
    var rest := Join(Parts(p), '/');
    assert (base + "/" + rest)[|base| + 1..] == rest;
    SplitJoin(Parts(p), '/');
  }
}
