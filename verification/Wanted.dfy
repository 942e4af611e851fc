/** The aliases wanted for the guests of one cluster (internal/reconcile/wanted.go). */
module Wanted {
  import opened Options
  import opened Strings
  import opened Sorting
  import opened AliasPaths
  import opened Entries
  import BanTracking

  datatype Guest = Guest(vmid: string, pool: string, tags: string, template: bool)

  datatype Cluster = Cluster(name: string, fingerprints: seq<string>)

  datatype Problem = Problem(vmid: string, reason: string, detail: string)

  const BAD_SEGMENT := "bad-segment"
  const NESTED_POOL := "nested-pool"
  const POOL_COLLISION := "pool-collision"
  const TAG_PREFIX := "vtpm_mds.io."

  /** The Unicode functions the source takes from the Go library, left open:
      strings.ToLower, strings.EqualFold and the splitting of a tags string. */
  datatype Text = Text(lower: string -> string, equalFold: (string, string) -> bool, fields: string -> seq<string>)

  /** One guest's claim to one SPIFFE ID. */
  datatype Want = Want(id: string, vmid: string)

  // ----- pools

  /** The guest is in a pool that can be a path segment. */
  predicate Pooled(text: Text, g: Guest) {
    !g.template && g.pool != "" && '/' !in g.pool && ValidSegment(text.lower(g.pool))
  }

  /** The pools, as written, that lowercase to this segment, each once. */
  function PoolNames(text: Text, guests: seq<Guest>, segment: string): seq<string> {
    if guests == [] then []
    else
      var g := guests[|guests| - 1];
      var rest := PoolNames(text, guests[..|guests| - 1], segment);
      if Pooled(text, g) && text.lower(g.pool) == segment && g.pool !in rest then rest + [g.pool] else rest
  }

  function Detail(text: Text, guests: seq<Guest>, segment: string): string {
    Join(Sort(PoolNames(text, guests, segment), Le), ',')
  }

  datatype PoolState = NoPool | Nested | BadSegment | Colliding(detail: string) | Usable(segment: string)

  function StateOf(text: Text, guests: seq<Guest>, g: Guest): PoolState {
    if g.pool == "" then NoPool
    else if '/' in g.pool then Nested
    else
      var segment := text.lower(g.pool);
      if !ValidSegment(segment) then BadSegment
      else if |PoolNames(text, guests, segment)| > 1 then Colliding(Detail(text, guests, segment))
      else Usable(segment)
  }

  // ----- tags

  datatype TagRead = Foreign | Malformed | Good(key: string, value: string)

  function ReadTag(text: Text, piece: string): TagRead {
    if |piece| < |TAG_PREFIX| || !text.equalFold(piece[..|TAG_PREFIX|], TAG_PREFIX) then Foreign
    else
      var rest := piece[|TAG_PREFIX|..];
      var n := IndexOf(rest, '.');
      if n == |rest| then Malformed
      else
        var key, value := text.lower(rest[..n]), text.lower(rest[n + 1..]);
        if ValidSegment(key) && ValidSegment(value) then Good(key, value) else Malformed
  }

  function TagWants(text: Text, base: string, segment: string, vmid: string, pieces: seq<string>): seq<Want> {
    if pieces == [] then []
    else
      var n := |pieces| - 1;
      TagWants(text, base, segment, vmid, pieces[..n])
      + match ReadTag(text, pieces[n])
        case Good(key, value) => [Want(Render(base, Tag(segment, key, value)), vmid)]
        case _ => []
  }

  function TagProblems(text: Text, vmid: string, pieces: seq<string>): seq<Problem> {
    if pieces == [] then []
    else
      var n := |pieces| - 1;
      TagProblems(text, vmid, pieces[..n])
      + if ReadTag(text, pieces[n]).Malformed? then [Problem(vmid, BAD_SEGMENT, pieces[n])] else []
  }

  // ----- what one guest is to have

  function GuestWants(text: Text, base: string, guests: seq<Guest>, g: Guest): seq<Want> {
    if g.template then []
    else
      [Want(Render(base, Vm(g.vmid)), g.vmid)]
      + match StateOf(text, guests, g)
        case Usable(segment) =>
          [Want(Render(base, Pool(segment)), g.vmid)] + TagWants(text, base, segment, g.vmid, text.fields(g.tags))
        case _ => []
  }

  function GuestProblems(text: Text, guests: seq<Guest>, g: Guest): seq<Problem> {
    if g.template then []
    else
      match StateOf(text, guests, g)
      case NoPool => []
      case Nested => [Problem(g.vmid, NESTED_POOL, g.pool)]
      case BadSegment => [Problem(g.vmid, BAD_SEGMENT, g.pool)]
      case Colliding(detail) => [Problem(g.vmid, POOL_COLLISION, detail)]
      case Usable(_) => TagProblems(text, g.vmid, text.fields(g.tags))
  }

  function Selectors(fp: string, vmid: string): seq<string> {
    [BanTracking.FP_PREFIX + fp, BanTracking.CN_PREFIX + vmid]
  }

  function AliasOf(w: Want, fp: string): Alias {
    Alias(w.id, Selectors(fp, w.vmid))
  }

  /** Every claim of every guest, once per intermediate of the cluster. */
  function WantedAliases(text: Text, td: string, c: Cluster, guests: seq<Guest>): set<Alias> {
    set g, w, fp | g in guests && w in GuestWants(text, Base(td, c.name), guests, g)
      && fp in c.fingerprints :: AliasOf(w, fp)
  }

  function WantedProblems(text: Text, guests: seq<Guest>): set<Problem> {
    set g, p | g in guests && p in GuestProblems(text, guests, g) :: p
  }

  // ----- orders

  predicate AliasLe(a: Alias, b: Alias) {
    if a.spiffeID != b.spiffeID then Le(a.spiffeID, b.spiffeID)
    else Le(Join(a.selectors, NUL), Join(b.selectors, NUL))
  }

  predicate ProblemLe(a: Problem, b: Problem) {
    if a.vmid != b.vmid then Le(a.vmid, b.vmid)
    else if a.reason != b.reason then Le(a.reason, b.reason)
    else Le(a.detail, b.detail)
  }

  lemma OrderFacts(a: string, b: string, c: string)
    ensures Le(a, b) || Le(b, a)
    ensures Le(a, b) && Le(b, c) ==> Le(a, c)
    ensures Le(a, b) && Le(b, a) ==> a == b
  {
    LeTotal(a, b);
    if Le(a, b) && Le(b, c) { LeTransitive(a, b, c); }
    if Le(a, b) && Le(b, a) { LeAntisymmetric(a, b); }
  }

  lemma ProblemOrder(a: Problem, b: Problem, c: Problem)
    ensures ProblemLe(a, b) || ProblemLe(b, a)
    ensures ProblemLe(a, b) && ProblemLe(b, c) ==> ProblemLe(a, c)
    ensures ProblemLe(a, b) && ProblemLe(b, a) ==> a == b
  {
    OrderFacts(a.vmid, b.vmid, c.vmid);
    OrderFacts(b.vmid, a.vmid, c.vmid);
    OrderFacts(b.vmid, c.vmid, a.vmid);
    OrderFacts(a.reason, b.reason, c.reason);
    OrderFacts(b.reason, c.reason, a.reason);
    OrderFacts(a.detail, b.detail, c.detail);
    OrderFacts(b.detail, a.detail, c.detail);
  }

  lemma AliasOrder(a: Alias, b: Alias, c: Alias)
    ensures AliasLe(a, b) || AliasLe(b, a)
    ensures AliasLe(a, b) && AliasLe(b, c) ==> AliasLe(a, c)
    ensures AliasLe(a, b) && AliasLe(b, a) ==>
              a.spiffeID == b.spiffeID && Join(a.selectors, NUL) == Join(b.selectors, NUL)
  {
    OrderFacts(a.spiffeID, b.spiffeID, c.spiffeID);
    OrderFacts(b.spiffeID, c.spiffeID, a.spiffeID);
    OrderFacts(Join(a.selectors, NUL), Join(b.selectors, NUL), Join(c.selectors, NUL));
    OrderFacts(Join(b.selectors, NUL), Join(a.selectors, NUL), Join(c.selectors, NUL));
  }

  lemma OrdersArePreorders()
    ensures TotalPreorder(AliasLe) && TotalPreorder(ProblemLe)
  {
    forall a, b ensures AliasLe(a, b) || AliasLe(b, a) { AliasOrder(a, b, a); }
    forall a, b, c ensures AliasLe(a, b) && AliasLe(b, c) ==> AliasLe(a, c) { AliasOrder(a, b, c); }
    forall a, b ensures ProblemLe(a, b) || ProblemLe(b, a) { ProblemOrder(a, b, a); }
    forall a, b, c ensures ProblemLe(a, b) && ProblemLe(b, c) ==> ProblemLe(a, c) { ProblemOrder(a, b, c); }
  }

  // ----- facts about selectors and aliases

  lemma SortPair(a: string, b: string)
    requires Le(a, b)
    ensures Sort([a, b], Le) == [a, b]
  {
    hide Le;
    assert [a, b][1..] == [b] && [b][1..] == [];
    assert Sort([b], Le) == [b];
  }

  lemma LessAfter(prefix: string, a: string, b: string)
    requires a != "" && b != "" && a[0] < b[0]
    ensures Le(prefix + a, prefix + b)
  {
    LePrefix(prefix, a, b);
  }

  lemma SelectorsSplit(fp: string, vmid: string)
    ensures Selectors(fp, vmid) == ["tpm_devid:" + ("ca:fingerprint:" + fp), "tpm_devid:" + ("subject:cn:" + vmid)]
  {
    assert BanTracking.FP_PREFIX == "tpm_devid:" + "ca:fingerprint:"
           && BanTracking.CN_PREFIX == "tpm_devid:" + "subject:cn:";
    assert "tpm_devid:" + "ca:fingerprint:" + fp == "tpm_devid:" + ("ca:fingerprint:" + fp);
    assert "tpm_devid:" + "subject:cn:" + vmid == "tpm_devid:" + ("subject:cn:" + vmid);
  }

  /** sort.Strings leaves the two selectors as they are built. */
  lemma SelectorsSorted(fp: string, vmid: string)
    ensures Sort(Selectors(fp, vmid), Le) == Selectors(fp, vmid)
  {
    hide *;
    var a, b := "ca:fingerprint:" + fp, "subject:cn:" + vmid;
    SelectorsSplit(fp, vmid);
    LessAfter("tpm_devid:", a, b);
    SortPair("tpm_devid:" + a, "tpm_devid:" + b);
  }

  lemma AliasOfInjective(w: Want, f: string, x: Want, g: string)
    requires AliasOf(w, f) == AliasOf(x, g)
    ensures w == x && f == g
  {
    var s, t := Selectors(f, w.vmid), Selectors(g, x.vmid);
    assert s[0] == t[0] && s[1] == t[1];
    assert f == s[0][|BanTracking.FP_PREFIX|..] == g;
    assert w.vmid == s[1][|BanTracking.CN_PREFIX|..] == x.vmid;
  }

  /** Fingerprints and VM IDs as they are: free of the join character. */
  predicate NulFree(c: Cluster, guests: seq<Guest>) {
    && (forall f :: f in c.fingerprints ==> NUL !in f)
    && (forall g :: g in guests ==> NUL !in g.vmid)
  }

  lemma SelectorsJoinable(fp: string, vmid: string)
    requires NUL !in fp && NUL !in vmid
    ensures Joinable(Selectors(fp, vmid))
  {
    var s := Selectors(fp, vmid);
    assert s[0] == BanTracking.FP_PREFIX + fp && s[1] == BanTracking.CN_PREFIX + vmid;
    forall p | p in s ensures p != "" && NUL !in p {
      assert p == s[0] || p == s[1];
    }
  }

  // ----- the pool collision pass

  lemma {:induction false} PoolNamesMeaning(text: Text, guests: seq<Guest>, segment: string)
    ensures Distinct(PoolNames(text, guests, segment))
    ensures forall name :: name in PoolNames(text, guests, segment) <==>
              exists g :: g in guests && Pooled(text, g) && text.lower(g.pool) == segment && g.pool == name
  {
    if guests != [] {
      var n := |guests| - 1;
      PoolNamesMeaning(text, guests[..n], segment);
      assert guests == guests[..n] + [guests[n]];
    }
  }

  /** The set of names has the size of the list without repetitions. */
  lemma {:induction false} DistinctSize(s: seq<string>, names: set<string>)
    requires Distinct(s) && forall x :: x in s <==> x in names
    ensures |names| == |s|
  {
    if s == [] {
      assert names == {};
    } else {
      assert s[0] in names;
      assert forall x :: x in s[1..] <==> x in names && x != s[0];
      DistinctSize(s[1..], names - {s[0]});
    }
  }

  method ElementsOf(names: set<string>) returns (ids: seq<string>)
    ensures Distinct(ids) && forall x :: x in ids <==> x in names
  {
    ids := [];
    var todo := names;
    while todo != {}
      invariant todo <= names
      invariant Distinct(ids) && forall x :: x in ids <==> x in names && x !in todo
    {
      var x :| x in todo;
      todo := todo - {x};
      ids := ids + [x];
    }
  }

  /** The names of a set, sorted and joined, do not depend on the order in
      which the set was read. */
  lemma SortedNamesUnique(a: seq<string>, b: seq<string>)
    requires Distinct(a) && Distinct(b) && forall x :: x in a <==> x in b
    ensures Sort(a, Le) == Sort(b, Le)
  {
    LePreorder();
    SortSorted(a, Le);
    SortSorted(b, Le);
    SortDistinct(a, Sort(a, Le));
    SortDistinct(b, Sort(b, Le));
    SameElements(a, Sort(a, Le));
    SameElements(b, Sort(b, Le));
    forall x, y ensures Le(x, y) && Le(y, x) ==> x == y { OrderFacts(x, y, x); }
    StrictUnique(Sort(a, Le), Sort(b, Le), Le);
  }

  method GroupPools(text: Text, guests: seq<Guest>) returns (byLower: map<string, set<string>>)
    ensures forall l, x :: (l in byLower && x in byLower[l]) <==> x in PoolNames(text, guests, l)
  {
    byLower := map[];
    for i := 0 to |guests|
      invariant forall l, x :: (l in byLower && x in byLower[l]) <==> x in PoolNames(text, guests[..i], l)
    {
      var g := guests[i];
      assert guests[..i + 1][..i] == guests[..i];
      if !Pooled(text, g) {
        continue;
      }
      var l := text.lower(g.pool);
      if l !in byLower {
        byLower := byLower[l := {}];
      }
      byLower := byLower[l := byLower[l] + {g.pool}];
    }
    assert guests[..|guests|] == guests;
  }

  /** The pools of the groups in done that have several names, with details. */
  ghost predicate Gathered(text: Text, guests: seq<Guest>, byLower: map<string, set<string>>, done: set<string>,
                           collide: map<string, string>)
  {
    && (forall p :: p in collide ==>
          exists l :: l in done && l in byLower && p in byLower[l] && |byLower[l]| > 1
            && collide[p] == Detail(text, guests, l))
    && (forall l, p :: l in done && l in byLower && p in byLower[l] && |byLower[l]| > 1 ==> p in collide)
  }

  method GatherOne(text: Text, guests: seq<Guest>, byLower: map<string, set<string>>, ghost done: set<string>,
                   collide: map<string, string>, l: string)
    returns (collide': map<string, string>)
    requires l in byLower
    requires forall l, x :: (l in byLower && x in byLower[l]) <==> x in PoolNames(text, guests, l)
    requires Gathered(text, guests, byLower, done, collide)
    ensures Gathered(text, guests, byLower, done + {l}, collide')
  {
    collide' := collide;
    if |byLower[l]| < 2 {
      return;
    }
    var ids := ElementsOf(byLower[l]);
    PoolNamesMeaning(text, guests, l);
    SortedNamesUnique(ids, PoolNames(text, guests, l));
    var detail := Join(Sort(ids, Le), ',');
    collide' := Mark(collide, ids, detail);
    GatheredStep(text, guests, byLower, done, collide, collide', l);
  }

  method Mark(collide: map<string, string>, ids: seq<string>, detail: string) returns (collide': map<string, string>)
    ensures forall p :: p in collide' <==> p in collide || p in ids
    ensures forall p :: p in collide' ==> collide'[p] == if p in ids then detail else collide[p]
  {
    collide' := collide;
    for i := 0 to |ids|
      invariant forall p :: p in collide' <==> p in collide || p in ids[..i]
      invariant forall p :: p in collide' ==> collide'[p] == if p in ids[..i] then detail else collide[p]
    {
      assert ids[..i + 1] == ids[..i] + [ids[i]];
      collide' := collide'[ids[i] := detail];
    }
    assert ids[..|ids|] == ids;
  }

  lemma GatheredStep(text: Text, guests: seq<Guest>, byLower: map<string, set<string>>, done: set<string>,
                     collide: map<string, string>, collide': map<string, string>, l: string)
    requires l in byLower && |byLower[l]| > 1
    requires Gathered(text, guests, byLower, done, collide)
    requires forall p :: p in collide' <==> p in collide || p in byLower[l]
    requires forall p :: p in collide' ==>
               collide'[p] == if p in byLower[l] then Detail(text, guests, l) else collide[p]
    ensures Gathered(text, guests, byLower, done + {l}, collide')
  {
    forall p | p in collide'
      ensures exists m :: m in done + {l} && m in byLower && p in byLower[m] && |byLower[m]| > 1 &&
                          collide'[p] == Detail(text, guests, m)
    {
      if p in byLower[l] {
        assert l in done + {l};
      } else {
        var m :| m in done && m in byLower && p in byLower[m] && |byLower[m]| > 1
            && collide[p] == Detail(text, guests, m);
        assert m in done + {l};
      }
    }
  }

  /** Pools that collide once lowercased, each with what to report. */
  method Collisions(text: Text, guests: seq<Guest>) returns (collide: map<string, string>)
    ensures forall g :: g in guests && Pooled(text, g) ==>
              (g.pool in collide <==> StateOf(text, guests, g).Colliding?)
              && (g.pool in collide ==> StateOf(text, guests, g) == Colliding(collide[g.pool]))
  {
    var byLower := GroupPools(text, guests);
    collide := map[];
    var todo := byLower.Keys;
    while todo != {}
      invariant todo <= byLower.Keys
      invariant Gathered(text, guests, byLower, byLower.Keys - todo, collide)
    {
      var l :| l in todo;
      collide := GatherOne(text, guests, byLower, byLower.Keys - todo, collide, l);
      assert byLower.Keys - (todo - {l}) == byLower.Keys - todo + {l};
      todo := todo - {l};
    }
    assert byLower.Keys - {} == byLower.Keys;
    forall g | g in guests && Pooled(text, g)
      ensures g.pool in collide <==> StateOf(text, guests, g).Colliding?
      ensures g.pool in collide ==> StateOf(text, guests, g) == Colliding(collide[g.pool])
    {
      CollideMeaning(text, guests, byLower, collide, g);
    }
  }

  lemma CollideMeaning(text: Text, guests: seq<Guest>, byLower: map<string, set<string>>, collide: map<string, string>,
                       g: Guest)
    requires forall l, x :: (l in byLower && x in byLower[l]) <==> x in PoolNames(text, guests, l)
    requires Gathered(text, guests, byLower, byLower.Keys, collide)
    requires g in guests && Pooled(text, g)
    ensures g.pool in collide <==> StateOf(text, guests, g).Colliding?
    ensures g.pool in collide ==> StateOf(text, guests, g) == Colliding(collide[g.pool])
  {
    CollisionOf(text, guests, byLower, g);
    if g.pool in collide {
      var l :| l in byLower && g.pool in byLower[l] && |byLower[l]| > 1 && collide[g.pool] == Detail(text, guests, l);
      PoolNamesMeaning(text, guests, l);
    }
  }

  lemma CollisionOf(text: Text, guests: seq<Guest>, byLower: map<string, set<string>>, g: Guest)
    requires g in guests && Pooled(text, g)
    requires forall l, x :: (l in byLower && x in byLower[l]) <==> x in PoolNames(text, guests, l)
    ensures var l := text.lower(g.pool);
            l in byLower && g.pool in byLower[l] && |byLower[l]| == |PoolNames(text, guests, l)|
  {
    var l := text.lower(g.pool);
    PoolNamesMeaning(text, guests, l);
    assert g.pool in PoolNames(text, guests, l);
    DistinctSize(PoolNames(text, guests, l), byLower[l]);
  }

  // ----- the loop over the guests

  /** The claims of the first n guests, one after the other. */
  function AllWants(text: Text, base: string, guests: seq<Guest>, n: nat): seq<Want>
    requires n <= |guests|
  {
    if n == 0 then [] else AllWants(text, base, guests, n - 1) + GuestWants(text, base, guests, guests[n - 1])
  }

  function AllProblems(text: Text, guests: seq<Guest>, n: nat): seq<Problem>
    requires n <= |guests|
  {
    if n == 0 then [] else AllProblems(text, guests, n - 1) + GuestProblems(text, guests, guests[n - 1])
  }

  lemma {:induction false} AllWantsMeaning(text: Text, base: string, guests: seq<Guest>, n: nat, w: Want)
    requires n <= |guests|
    ensures w in AllWants(text, base, guests, n) <==>
            exists g :: g in guests[..n] && w in GuestWants(text, base, guests, g)
  {
    hide GuestWants;
    if n > 0 {
      AllWantsMeaning(text, base, guests, n - 1, w);
      assert guests[..n] == guests[..n - 1] + [guests[n - 1]];
    }
  }

  lemma {:induction false} AllProblemsMeaning(text: Text, guests: seq<Guest>, n: nat, p: Problem)
    requires n <= |guests|
    ensures p in AllProblems(text, guests, n) <==> exists g :: g in guests[..n] && p in GuestProblems(text, guests, g)
  {
    hide GuestProblems;
    if n > 0 {
      AllProblemsMeaning(text, guests, n - 1, p);
      assert guests[..n] == guests[..n - 1] + [guests[n - 1]];
    }
  }

  /** A list without repetitions of exactly the elements of another. */
  ghost predicate Covers(wants: seq<Want>, seen: set<Want>, all: seq<Want>) {
    Distinct(wants) && (forall w :: w in wants <==> w in seen) && (forall w :: w in seen <==> w in all)
  }

  method Add(wants: seq<Want>, seen: set<Want>, w: Want, ghost all: seq<Want>)
    returns (wants': seq<Want>, seen': set<Want>)
    requires Covers(wants, seen, all)
    ensures Covers(wants', seen', all + [w])
  {
    wants', seen' := wants, seen;
    if w !in seen {
      seen' := seen + {w};
      wants' := wants + [w];
    }
  }

  method AddTags(text: Text, base: string, segment: string, vmid: string, pieces: seq<string>,
                 wants: seq<Want>, seen: set<Want>, ghost all: seq<Want>)
    returns (wants': seq<Want>, seen': set<Want>, problems: seq<Problem>)
    requires Covers(wants, seen, all)
    ensures Covers(wants', seen', all + TagWants(text, base, segment, vmid, pieces))
    ensures problems == TagProblems(text, vmid, pieces)
  {
    wants', seen', problems := wants, seen, [];
    assert all + [] == all;
    for i := 0 to |pieces|
      invariant Covers(wants', seen', all + TagWants(text, base, segment, vmid, pieces[..i]))
      invariant problems == TagProblems(text, vmid, pieces[..i])
    {
      assert pieces[..i + 1][..i] == pieces[..i];
      ghost var sofar := all + TagWants(text, base, segment, vmid, pieces[..i]);
      match ReadTag(text, pieces[i])
      case Foreign =>
        assert all + TagWants(text, base, segment, vmid, pieces[..i + 1]) == sofar;
      case Malformed =>
        assert all + TagWants(text, base, segment, vmid, pieces[..i + 1]) == sofar;
        problems := problems + [Problem(vmid, BAD_SEGMENT, pieces[i])];
      case Good(key, value) =>
        var w := Want(base + "/pool/" + segment + "/tag/" + key + "/" + value, vmid);
        assert all + TagWants(text, base, segment, vmid, pieces[..i + 1]) == sofar + [w];
        wants', seen' := Add(wants', seen', w, sofar);
    }
    assert pieces[..|pieces|] == pieces;
  }

  method AddGuest(text: Text, base: string, ghost guests: seq<Guest>, collide: map<string, string>, g: Guest,
                  wants: seq<Want>, seen: set<Want>, ghost all: seq<Want>)
    returns (wants': seq<Want>, seen': set<Want>, problems: seq<Problem>)
    requires Covers(wants, seen, all)
    requires Pooled(text, g) ==> (g.pool in collide <==> StateOf(text, guests, g).Colliding?)
    requires Pooled(text, g) && g.pool in collide ==> StateOf(text, guests, g) == Colliding(collide[g.pool])
    ensures Covers(wants', seen', all + GuestWants(text, base, guests, g))
    ensures problems == GuestProblems(text, guests, g)
  {
    wants', seen', problems := wants, seen, [];
    if g.template {
      assert all + [] == all;
      return;
    }
    ghost var claims := GuestWants(text, base, guests, g);
    var w := Want(base + "/vm/" + g.vmid, g.vmid);
    wants', seen' := Add(wants', seen', w, all);
    if g.pool == "" {
      assert claims == [w];
      return;
    }
    if '/' in g.pool {
      assert claims == [w];
      problems := [Problem(g.vmid, NESTED_POOL, g.pool)];
      return;
    }
    var pool := text.lower(g.pool);
    if !ValidSegment(pool) {
      assert claims == [w];
      problems := [Problem(g.vmid, BAD_SEGMENT, g.pool)];
      return;
    }
    if g.pool in collide {
      assert claims == [w];
      problems := [Problem(g.vmid, POOL_COLLISION, collide[g.pool])];
      return;
    }
    var p := Want(base + "/pool/" + pool, g.vmid);
    wants', seen' := Add(wants', seen', p, all + [w]);
    wants', seen', problems := AddTags(text, base, pool, g.vmid, text.fields(g.tags), wants', seen', all + [w] + [p]);
    assert all + claims == all + [w] + [p] + TagWants(text, base, pool, g.vmid, text.fields(g.tags));
  }

  // ----- once per intermediate

  ghost predicate Expanded(aliases: seq<Alias>, wants: seq<Want>, fps: seq<string>) {
    && (forall a :: a in aliases <==> exists w, f :: w in wants && f in fps && a == AliasOf(w, f))
    && (forall w, f :: w in wants && f in fps ==> multiset(aliases)[AliasOf(w, f)] == multiset(fps)[f])
  }

  /** The aliases of one claim, one per intermediate. */
  function Copies(w: Want, fps: seq<string>): seq<Alias> {
    seq(|fps|, k requires 0 <= k < |fps| => AliasOf(w, fps[k]))
  }

  /** Every claim, as often with each fingerprint as that is listed. */
  lemma {:induction false} CopiesCount(w: Want, fps: seq<string>, f: string)
    ensures multiset(Copies(w, fps))[AliasOf(w, f)] == multiset(fps)[f]
  {
    if fps != [] {
      var n := |fps| - 1;
      CopiesCount(w, fps[..n], f);
      assert fps == fps[..n] + [fps[n]] && Copies(w, fps) == Copies(w, fps[..n]) + [AliasOf(w, fps[n])];
      if AliasOf(w, fps[n]) == AliasOf(w, f) {
        AliasOfInjective(w, fps[n], w, f);
      }
    }
  }

  method BuildAlias(w: Want, fp: string) returns (a: Alias)
    ensures a == AliasOf(w, fp)
  {
    SelectorsSorted(fp, w.vmid);
    a := Alias(w.id, Sort(Selectors(fp, w.vmid), Le));
  }

  method ExpandOne(aliases: seq<Alias>, w: Want, fps: seq<string>) returns (aliases': seq<Alias>)
    ensures aliases' == aliases + Copies(w, fps)
  {
    aliases' := aliases;
    for k := 0 to |fps|
      invariant aliases' == aliases + Copies(w, fps)[..k]
    {
      var a := BuildAlias(w, fps[k]);
      aliases' := aliases' + [a];
    }
  }

  method Expand(wants: seq<Want>, fps: seq<string>) returns (aliases: seq<Alias>)
    requires Distinct(wants)
    ensures Expanded(aliases, wants, fps)
  {
    aliases := [];
    for i := 0 to |wants|
      invariant Expanded(aliases, wants[..i], fps)
    {
      ExpandedStep(aliases, wants[..i], wants[i], fps);
      assert wants[..i + 1] == wants[..i] + [wants[i]];
      aliases := ExpandOne(aliases, wants[i], fps);
    }
    assert wants[..|wants|] == wants;
  }

  lemma ExpandedStep(aliases: seq<Alias>, done: seq<Want>, w: Want, fps: seq<string>)
    requires Expanded(aliases, done, fps) && w !in done
    ensures Expanded(aliases + Copies(w, fps), done + [w], fps)
  {
    hide AliasOf;
    var copies := Copies(w, fps);
    forall x, f | x in done + [w] && f in fps ensures multiset(aliases + copies)[AliasOf(x, f)] == multiset(fps)[f] {
      CopiesCount(w, fps, f);
      if x == w {
        NotYet(aliases, done, w, fps, f);
      } else {
        NotCopied(w, fps, x, f);
      }
    }
    forall a ensures a in aliases + copies <==> exists x, f :: x in done + [w] && f in fps && a == AliasOf(x, f) {
      ExpandedElements(aliases, done, w, fps, a);
    }
  }

  lemma NotYet(aliases: seq<Alias>, done: seq<Want>, w: Want, fps: seq<string>, f: string)
    requires Expanded(aliases, done, fps) && w !in done
    ensures multiset(aliases)[AliasOf(w, f)] == 0
  {
    hide AliasOf;
    if AliasOf(w, f) in aliases {
      var x, g :| x in done && g in fps && AliasOf(w, f) == AliasOf(x, g);
      AliasOfInjective(w, f, x, g);
    }
  }

  lemma NotCopied(w: Want, fps: seq<string>, x: Want, f: string)
    requires x != w
    ensures multiset(Copies(w, fps))[AliasOf(x, f)] == 0
  {
    hide AliasOf;
    var copies := Copies(w, fps);
    if AliasOf(x, f) in copies {
      var k :| 0 <= k < |copies| && copies[k] == AliasOf(x, f);
      AliasOfInjective(w, fps[k], x, f);
    }
  }

  lemma ExpandedElements(aliases: seq<Alias>, done: seq<Want>, w: Want, fps: seq<string>, a: Alias)
    requires Expanded(aliases, done, fps)
    ensures a in aliases + Copies(w, fps) <==> exists x, f :: x in done + [w] && f in fps && a == AliasOf(x, f)
  {
    var copies := Copies(w, fps);
    if a in aliases {
      var x, f :| x in done && f in fps && a == AliasOf(x, f);
      assert x in done + [w];
    } else if a in copies {
      var k :| 0 <= k < |copies| && a == copies[k];
      assert w in done + [w] && fps[k] in fps;
    }
    if x, f :| x in done + [w] && f in fps && a == AliasOf(x, f) {
      if x == w {
        var k :| 0 <= k < |fps| && fps[k] == f;
        assert copies[k] == a;
      }
    }
  }

  // ----- the in-place deduplication

  /** Writes the kept elements into the array it is still reading, and reports
      how many there are. */
  method DedupInPlace(problems: array<Problem>) returns (n: nat)
    modifies problems
    ensures n <= problems.Length
    ensures problems[..n] == Dedup(old(problems[..]))
  {
    n := 0;
    ghost var was := problems[..];
    ghost var kept: seq<Problem> := [];
    for i := 0 to problems.Length
      invariant n <= i
      invariant problems[..n] == kept == Dedup(was[..i])
      invariant forall k :: i <= k < problems.Length ==> problems[k] == was[k]
      invariant i > 0 ==> problems[i - 1] == was[i - 1]
    {
      var pr := problems[i];
      DedupStep(was, i);
      if i == 0 || pr != problems[i - 1] {
        problems[n] := pr;
        n := n + 1;
        assert problems[..n] == kept + [pr];
        kept := kept + [pr];
      }
    }
    assert was[..problems.Length] == was;
  }

  lemma DedupStep(s: seq<Problem>, i: nat)
    requires i < |s|
    ensures Dedup(s[..i + 1]) == Dedup(s[..i]) + if i == 0 || s[i] != s[i - 1] then [s[i]] else []
  {
    assert s[..i + 1][..i] == s[..i];
  }

  // ----- Wanted

  /** The wanted aliases, each as often as the cluster lists its fingerprint. */
  ghost predicate AllListed(text: Text, td: string, c: Cluster, guests: seq<Guest>, aliases: seq<Alias>) {
    && (forall a :: a in aliases <==> a in WantedAliases(text, td, c, guests))
    && (forall g, w, fp :: g in guests && w in GuestWants(text, Base(td, c.name), guests, g) && fp in c.fingerprints ==>
          multiset(aliases)[AliasOf(w, fp)] == multiset(c.fingerprints)[fp])
  }

  /** So none is there twice, exactly if no fingerprint is listed twice, or all
      guests are templates. */
  lemma OncePerFingerprint(text: Text, td: string, c: Cluster, guests: seq<Guest>, aliases: seq<Alias>)
    requires AllListed(text, td, c, guests, aliases)
    ensures Distinct(aliases) <==> Distinct(c.fingerprints) || forall g :: g in guests ==> g.template
  {
    hide AliasOf, GuestWants, Base, Distinct;
    DistinctMeaning(aliases);
    DistinctMeaning(c.fingerprints);
    if Distinct(c.fingerprints) {
      forall a ensures multiset(aliases)[a] <= 1 {
        if a in aliases {
          var g, w, fp :| g in guests && w in GuestWants(text, Base(td, c.name), guests, g) && fp in c.fingerprints
              && a == AliasOf(w, fp);
        }
      }
    } else if g :| g in guests && !g.template {
      var w := OwnWant(text, Base(td, c.name), guests, g);
      var fp :| multiset(c.fingerprints)[fp] > 1;
      assert fp in c.fingerprints && multiset(aliases)[AliasOf(w, fp)] > 1;
    } else {
      TemplatesWantNothing(text, td, c, guests);
      forall a ensures multiset(aliases)[a] <= 1 {
        assert a !in aliases;
      }
    }
  }

  lemma OwnWant(text: Text, base: string, guests: seq<Guest>, g: Guest) returns (w: Want)
    requires !g.template
    ensures w in GuestWants(text, base, guests, g)
  {
    w := Want(Render(base, Vm(g.vmid)), g.vmid);
  }

  lemma TemplatesWantNothing(text: Text, td: string, c: Cluster, guests: seq<Guest>)
    requires forall g :: g in guests ==> g.template
    ensures WantedAliases(text, td, c, guests) == {}
  {
  }

  /** Aliases do repeat: a guest of a cluster that lists a fingerprint twice has
      its alias twice. */
  method RepeatedAlias(text: Text) returns (c: Cluster, guests: seq<Guest>, aliases: seq<Alias>)
    ensures AllListed(text, "example.org", c, guests, aliases) && Sorted(aliases, AliasLe)
    ensures !StrictlySorted(aliases, AliasLe) && exists a :: multiset(aliases)[a] == 2
  {
    c := Cluster("pve", ["ab", "ab"]);
    guests := [Guest("100", "", "", false)];
    var problems;
    aliases, problems := Compute(text, "example.org", c, guests);
    ghost var w := OwnWant(text, Base("example.org", c.name), guests, guests[0]);
    assert c.fingerprints[0] == c.fingerprints[1] == "ab";
    assert multiset(c.fingerprints)["ab"] == 2;
    assert multiset(aliases)[AliasOf(w, "ab")] == 2;
  }

  /** The aliases and problems of a cluster, sorted; the problems without
      repetitions, the aliases without others than the fingerprints'. */
  method Compute(text: Text, td: string, c: Cluster, guests: seq<Guest>)
    returns (aliases: seq<Alias>, problems: seq<Problem>)
    ensures Sorted(aliases, AliasLe) && AllListed(text, td, c, guests, aliases)
    ensures StrictlySorted(aliases, AliasLe) <==> Distinct(c.fingerprints) || forall g :: g in guests ==> g.template
    ensures StrictlySorted(problems, ProblemLe)
    ensures forall p :: p in problems <==> p in WantedProblems(text, guests)
  {
    var collide := Collisions(text, guests);
    var base := "spiffe://" + td + "/pve/" + c.name;
    var wants, found := CollectAll(text, base, guests, collide);
    aliases := Expand(wants, c.fingerprints);
    ghost var raw := aliases;
    ExpandedMeaning(text, td, c, guests, wants, raw);
    aliases := SortAliases(aliases);
    SameElements(raw, aliases);
    ListedSorted(text, td, c, guests, raw, aliases);
    var listed := Sort(found, ProblemLe);
    SortedProblems(found);
    var buffer := new Problem[|listed|](i requires 0 <= i < |listed| => listed[i]);
    assert buffer[..] == listed;
    var n := DedupInPlace(buffer);
    problems := buffer[..n];
    DedupedMeaning(text, guests, found, listed);
  }

  method CollectAll(text: Text, base: string, guests: seq<Guest>, collide: map<string, string>)
    returns (wants: seq<Want>, problems: seq<Problem>)
    requires forall g :: g in guests && Pooled(text, g) ==>
               (g.pool in collide <==> StateOf(text, guests, g).Colliding?)
               && (g.pool in collide ==> StateOf(text, guests, g) == Colliding(collide[g.pool]))
    ensures Distinct(wants) && forall w :: w in wants <==> w in AllWants(text, base, guests, |guests|)
    ensures problems == AllProblems(text, guests, |guests|)
  {
    wants, problems := [], [];
    var seen: set<Want> := {};
    for i := 0 to |guests|
      invariant Covers(wants, seen, AllWants(text, base, guests, i))
      invariant problems == AllProblems(text, guests, i)
    {
      var more;
      wants, seen, more := AddGuest(text, base, guests, collide, guests[i], wants, seen,
                                    AllWants(text, base, guests, i));
      problems := problems + more;
    }
  }

  method SortAliases(aliases: seq<Alias>) returns (sorted: seq<Alias>)
    ensures Sorted(sorted, AliasLe) && multiset(sorted) == multiset(aliases)
  {
    sorted := Sort(aliases, AliasLe);
    OrdersArePreorders();
    SortSorted(aliases, AliasLe);
  }

  lemma ListedSorted(text: Text, td: string, c: Cluster, guests: seq<Guest>, raw: seq<Alias>, aliases: seq<Alias>)
    requires AllListed(text, td, c, guests, raw) && multiset(aliases) == multiset(raw) && Sorted(aliases, AliasLe)
    ensures AllListed(text, td, c, guests, aliases)
    ensures StrictlySorted(aliases, AliasLe) <==> Distinct(c.fingerprints) || forall g :: g in guests ==> g.template
  {
    hide AliasOf, GuestWants, Base, WantedAliases, AliasLe;
    SameElements(raw, aliases);
    OncePerFingerprint(text, td, c, guests, aliases);
  }

  lemma SortedProblems(found: seq<Problem>)
    ensures Sorted(Sort(found, ProblemLe), ProblemLe)
    ensures forall p :: p in Sort(found, ProblemLe) <==> p in found
  {
    OrdersArePreorders();
    SortSorted(found, ProblemLe);
    SameElements(found, Sort(found, ProblemLe));
  }

  lemma DedupedMeaning(text: Text, guests: seq<Guest>, found: seq<Problem>, listed: seq<Problem>)
    requires found == AllProblems(text, guests, |guests|)
    requires Sorted(listed, ProblemLe) && forall p :: p in listed <==> p in found
    ensures StrictlySorted(Dedup(listed), ProblemLe)
    ensures forall p :: p in Dedup(listed) <==> p in WantedProblems(text, guests)
  {
    forall x, y ensures ProblemLe(x, y) && ProblemLe(y, x) ==> x == y { ProblemOrder(x, y, x); }
    forall x ensures ProblemLe(x, x) { ProblemOrder(x, x, x); }
    DedupSorted(listed, ProblemLe);
    assert guests[..|guests|] == guests;
    forall p ensures p in found <==> p in WantedProblems(text, guests) {
      AllProblemsMeaning(text, guests, |guests|, p);
    }
  }

  lemma ExpandedMeaning(text: Text, td: string, c: Cluster, guests: seq<Guest>, wants: seq<Want>, aliases: seq<Alias>)
    requires forall w :: w in wants <==> w in AllWants(text, Base(td, c.name), guests, |guests|)
    requires Expanded(aliases, wants, c.fingerprints)
    ensures AllListed(text, td, c, guests, aliases)
  {
    hide AliasOf;
    var base := Base(td, c.name);
    assert guests[..|guests|] == guests;
    forall w ensures w in wants <==> exists g :: g in guests && w in GuestWants(text, base, guests, g) {
      AllWantsMeaning(text, base, guests, |guests|, w);
    }
  }

  // ----- the order of the guests does not matter

  lemma PermutedNames(text: Text, guests: seq<Guest>, others: seq<Guest>, l: string)
    requires forall x :: x in guests <==> x in others
    ensures |PoolNames(text, guests, l)| == |PoolNames(text, others, l)|
    ensures Detail(text, guests, l) == Detail(text, others, l)
  {
    PoolNamesMeaning(text, guests, l);
    PoolNamesMeaning(text, others, l);
    var a, b := PoolNames(text, guests, l), PoolNames(text, others, l);
    var names := set x | x in b;
    forall x ensures x in a <==> x in names {
      if x in a {
        var g :| g in guests && Pooled(text, g) && text.lower(g.pool) == l && g.pool == x;
      }
      if x in b {
        var g :| g in others && Pooled(text, g) && text.lower(g.pool) == l && g.pool == x;
      }
    }
    DistinctSize(a, names);
    DistinctSize(b, names);
    SortedNamesUnique(a, b);
  }

  lemma PermutedState(text: Text, guests: seq<Guest>, others: seq<Guest>, g: Guest)
    requires forall x :: x in guests <==> x in others
    ensures StateOf(text, guests, g) == StateOf(text, others, g)
  {
    hide PoolNames, Detail, ValidSegment;
    PermutedNames(text, guests, others, text.lower(g.pool));
  }

  lemma PermutedSets(text: Text, td: string, c: Cluster, guests: seq<Guest>, others: seq<Guest>)
    requires forall x :: x in guests <==> x in others
    ensures WantedAliases(text, td, c, guests) == WantedAliases(text, td, c, others)
    ensures WantedProblems(text, guests) == WantedProblems(text, others)
  {
    forall g ensures StateOf(text, guests, g) == StateOf(text, others, g) {
      PermutedState(text, guests, others, g);
    }
    var base := Base(td, c.name);
    assert forall g :: GuestWants(text, base, guests, g) == GuestWants(text, base, others, g);
    assert forall g :: GuestProblems(text, guests, g) == GuestProblems(text, others, g);
  }

  /** What Compute promises about its two results. */
  ghost predicate Computed(text: Text, td: string, c: Cluster, guests: seq<Guest>, aliases: seq<Alias>,
                           problems: seq<Problem>)
  {
    && Sorted(aliases, AliasLe) && AllListed(text, td, c, guests, aliases)
    && StrictlySorted(problems, ProblemLe) && (forall p :: p in problems <==> p in WantedProblems(text, guests))
  }

  /** Every VM ID claimed is a guest's own. */
  lemma {:induction false} ClaimsOwnName(text: Text, base: string, guests: seq<Guest>, g: Guest, w: Want)
    requires w in GuestWants(text, base, guests, g)
    ensures !g.template && w.vmid == g.vmid
  {
    match StateOf(text, guests, g)
    case Usable(segment) => TagWantsPaths(text, base, segment, g.vmid, text.fields(g.tags));
    case _ =>
  }

  lemma {:induction false} TagWantsPaths(text: Text, base: string, segment: string, vmid: string, pieces: seq<string>)
    ensures forall w :: w in TagWants(text, base, segment, vmid, pieces) ==>
              w.vmid == vmid
              && exists key, value :: ValidSegment(key) && ValidSegment(value) &&
                                      w.id == Render(base, Tag(segment, key, value))
  {
    if pieces != [] {
      TagWantsPaths(text, base, segment, vmid, pieces[..|pieces| - 1]);
    }
  }

  lemma WantedSelectorsJoin(text: Text, td: string, c: Cluster, guests: seq<Guest>, x: Alias, y: Alias)
    requires NulFree(c, guests)
    requires x in WantedAliases(text, td, c, guests) && y in WantedAliases(text, td, c, guests)
    requires Join(x.selectors, NUL) == Join(y.selectors, NUL)
    ensures x.selectors == y.selectors
  {
    WantedJoinable(text, td, c, guests, x);
    WantedJoinable(text, td, c, guests, y);
    assert PartsOf(x.selectors, NUL) && PartsOf(y.selectors, NUL);
    JoinInjective(x.selectors, y.selectors, NUL);
  }

  lemma WantedJoinable(text: Text, td: string, c: Cluster, guests: seq<Guest>, a: Alias)
    requires NulFree(c, guests)
    requires a in WantedAliases(text, td, c, guests)
    ensures Joinable(a.selectors)
  {
    var g, w, fp :| g in guests && w in GuestWants(text, Base(td, c.name), guests, g) && fp in c.fingerprints
        && a == AliasOf(w, fp);
    ClaimsOwnName(text, Base(td, c.name), guests, g, w);
    SelectorsJoinable(fp, w.vmid);
  }

  lemma ListedSame(text: Text, td: string, c: Cluster, guests: seq<Guest>, others: seq<Guest>, aliases: seq<Alias>,
                   aliases': seq<Alias>)
    requires forall x :: x in guests <==> x in others
    requires AllListed(text, td, c, guests, aliases) && AllListed(text, td, c, others, aliases')
    ensures multiset(aliases) == multiset(aliases')
  {
    hide *;
    forall a ensures multiset(aliases)[a] == multiset(aliases')[a] {
      ListedAt(text, td, c, guests, others, aliases, aliases', a);
    }
  }

  lemma ListedAt(text: Text, td: string, c: Cluster, guests: seq<Guest>, others: seq<Guest>, aliases: seq<Alias>,
                 aliases': seq<Alias>, a: Alias)
    requires forall x :: x in guests <==> x in others
    requires AllListed(text, td, c, guests, aliases) && AllListed(text, td, c, others, aliases')
    ensures multiset(aliases)[a] == multiset(aliases')[a]
  {
    hide AliasOf, Base, GuestWants, WantedProblems;
    PermutedSets(text, td, c, guests, others);
    if a in aliases {
      var g, w, fp := FromWant(text, td, c, guests, a);
      PermutedWants(text, Base(td, c.name), guests, others, g);
    } else {
      assert a !in aliases';
    }
  }

  lemma FromWant(text: Text, td: string, c: Cluster, guests: seq<Guest>, a: Alias)
    returns (g: Guest, w: Want, fp: string)
    requires a in WantedAliases(text, td, c, guests)
    ensures g in guests && w in GuestWants(text, Base(td, c.name), guests, g) && fp in c.fingerprints
            && a == AliasOf(w, fp)
  {
    hide AliasOf, Base, GuestWants;
    g, w, fp :| g in guests && w in GuestWants(text, Base(td, c.name), guests, g) && fp in c.fingerprints
      && a == AliasOf(w, fp);
  }

  lemma PermutedWants(text: Text, base: string, guests: seq<Guest>, others: seq<Guest>, g: Guest)
    requires forall x :: x in guests <==> x in others
    ensures GuestWants(text, base, guests, g) == GuestWants(text, base, others, g)
  {
    hide StateOf;
    PermutedState(text, guests, others, g);
  }

  /** Every listing of the same guests gives the same two lists. */
  lemma SameForEveryOrder(text: Text, td: string, c: Cluster, guests: seq<Guest>, others: seq<Guest>,
                          aliases: seq<Alias>, problems: seq<Problem>, aliases': seq<Alias>, problems': seq<Problem>)
    requires multiset(guests) == multiset(others)
    requires NulFree(c, guests)
    requires Computed(text, td, c, guests, aliases, problems)
    requires Computed(text, td, c, others, aliases', problems')
    ensures aliases == aliases' && problems == problems'
  {
    SameElements(guests, others);
    PermutedSets(text, td, c, guests, others);
    forall x, y | ProblemLe(x, y) && ProblemLe(y, x) ensures x == y { ProblemOrder(x, y, x); }
    forall x ensures ProblemLe(x, x) { ProblemOrder(x, x, x); }
    StrictUnique(problems, problems', ProblemLe);
    forall x, y | x in aliases && y in aliases && AliasLe(x, y) && AliasLe(y, x) ensures x == y {
      AliasOrder(x, y, x);
      WantedSelectorsJoin(text, td, c, guests, x, y);
    }
    forall x ensures AliasLe(x, x) { AliasOrder(x, x, x); }
    ListedSame(text, td, c, guests, others, aliases, aliases');
    SortedUnique(aliases, aliases', AliasLe);
  }

  // ----- who shares an alias

  /** Every generated ID stands for one path, all of whose segments are valid. */
  lemma ClaimsDecode(text: Text, base: string, guests: seq<Guest>, g: Guest, w: Want)
    requires w in GuestWants(text, base, guests, g) && ValidSegment(g.vmid)
    ensures Decode(base, w.id).Some?
    ensures match Decode(base, w.id).value
            case Vm(vmid) => vmid == g.vmid
            case Pool(pool) => StateOf(text, guests, g) == Usable(pool) && ValidSegment(pool)
            case Tag(pool, key, value) =>
              StateOf(text, guests, g) == Usable(pool) && ValidSegment(pool) && ValidSegment(key) && ValidSegment(value)
    ensures Render(base, Decode(base, w.id).value) == w.id
  {
    var state := StateOf(text, guests, g);
    if w.id == Render(base, Vm(g.vmid)) {
      DecodeRender(base, Vm(g.vmid));
    } else {
      var segment := state.segment;
      if w.id == Render(base, Pool(segment)) {
        DecodeRender(base, Pool(segment));
      } else {
        TagWantsPaths(text, base, segment, g.vmid, text.fields(g.tags));
        var key, value :| ValidSegment(key) && ValidSegment(value) && w.id == Render(base, Tag(segment, key, value));
        DecodeRender(base, Tag(segment, key, value));
      }
    }
  }

  /** The pool segment a claimed ID lies under. */
  function PoolOf(base: string, id: string): Option<string> {
    match Decode(base, id)
    case Some(Pool(pool)) => Some(pool)
    case Some(Tag(pool, _, _)) => Some(pool)
    case _ => None
  }

  /** Two guests with a pool alias, or tag aliases, under one pool segment are
      in one and the same pool as written, whatever lowercasing does. */
  lemma OnePoolPerSegment(text: Text, base: string, guests: seq<Guest>, g: Guest, h: Guest, w: Want, x: Want)
    requires g in guests && h in guests && ValidSegment(g.vmid) && ValidSegment(h.vmid)
    requires w in GuestWants(text, base, guests, g) && x in GuestWants(text, base, guests, h)
    requires PoolOf(base, w.id).Some? && PoolOf(base, w.id) == PoolOf(base, x.id)
    ensures g.pool == h.pool
  {
    hide Decode, GuestWants, Detail, Render;
    ClaimsOwnName(text, base, guests, g, w);
    ClaimsOwnName(text, base, guests, h, x);
    ClaimsDecode(text, base, guests, g, w);
    ClaimsDecode(text, base, guests, h, x);
    var segment := PoolOf(base, w.id).value;
    assert StateOf(text, guests, g) == StateOf(text, guests, h) == Usable(segment);
    assert text.lower(g.pool) == segment == text.lower(h.pool);
    PoolNamesMeaning(text, guests, segment);
    var names := PoolNames(text, guests, segment);
    assert !g.template && !h.template;
    assert g.pool in names && h.pool in names && |names| <= 1;
  }
}
