/** The IMDSv2 session tokens (imds/token.go): live tokens indexed by value and
    by minting peer, pruned, evicted and capped. The specification is the full
    history of mints, which the store does not keep. */
module TokenStores {
  import opened Options

  const MAX_LIVE_TOKENS_PER_PEER: nat := 32
  const GLOBAL_TOKEN_EMERGENCY_CAP: nat := 65536

  datatype Token = Token(value: string, expiresAt: int, createdAt: int, peer: string)

  datatype MintResult = Minted(token: Token) | NoRandomness | Emergency

  predicate Expired(t: Token, now: int) {
    now > t.expiresAt
  }

  // ----- the specification: histories of mints

  /** The peer's mints, oldest first. */
  function MintsOf(h: seq<Token>, peer: string): seq<Token> {
    if h == [] then []
    else
      var last := h[|h| - 1];
      MintsOf(h[..|h| - 1], peer) + if last.peer == peer then [last] else []
  }

  function Latest(m: seq<Token>): seq<Token> {
    if |m| <= MAX_LIVE_TOKENS_PER_PEER then m else m[|m| - MAX_LIVE_TOKENS_PER_PEER..]
  }

  /** The peer's latest mints, as many as it may hold. */
  function LatestMints(h: seq<Token>, peer: string): seq<Token> {
    Latest(MintsOf(h, peer))
  }

  /** v was minted, its peer has not minted too many since, and it is not past
      its expiry. */
  ghost predicate Accepted(h: seq<Token>, v: string, now: int) {
    exists t :: t in h && t.value == v && t in LatestMints(h, t.peer) && !Expired(t, now)
  }

  /** What the clock and the random source promise about a history. */
  ghost predicate WellFormed(h: seq<Token>, ttl: int, clock: int) {
    && (forall i, j :: 0 <= i < j < |h| ==> h[i].createdAt <= h[j].createdAt && h[i].value != h[j].value)
    && (forall t :: t in h ==> t.createdAt <= clock && t.expiresAt == t.createdAt + ttl)
  }

  lemma {:induction false} MintsOfMeaning(h: seq<Token>, peer: string, t: Token)
    ensures t in MintsOf(h, peer) <==> t in h && t.peer == peer
  {
    if h != [] {
      MintsOfMeaning(h[..|h| - 1], peer, t);
      assert h == h[..|h| - 1] + [h[|h| - 1]];
    }
  }

  /** Later tokens expire later and have other values. */
  ghost predicate Ordered(list: seq<Token>) {
    forall i, j :: 0 <= i < j < |list| ==> list[i].expiresAt <= list[j].expiresAt && list[i].value != list[j].value
  }

  // ----- pruning a list

  /** How many of an ordered list have expired: they come first. */
  function ExpiredCount(list: seq<Token>, now: int): (k: nat)
    ensures k <= |list|
  {
    if list == [] || !Expired(list[0], now) then 0 else ExpiredCount(list[1..], now) + 1
  }

  lemma {:induction false} ExpiredCountMeaning(list: seq<Token>, now: int)
    requires Ordered(list)
    ensures forall i :: 0 <= i < |list| ==> (Expired(list[i], now) <==> i < ExpiredCount(list, now))
  {
    if list != [] && Expired(list[0], now) {
      ExpiredCountMeaning(list[1..], now);
      assert forall i :: 1 <= i < |list| ==> list[i] == list[1..][i - 1];
    }
  }

  // ----- the two indexes

  function ListOf(byPeer: map<string, seq<Token>>, peer: string): seq<Token> {
    if peer in byPeer then byPeer[peer] else []
  }

  function Put(byPeer: map<string, seq<Token>>, peer: string, list: seq<Token>): map<string, seq<Token>> {
    if list == [] then byPeer - {peer} else byPeer[peer := list]
  }

  ghost function Without(tokens: map<string, Token>, dropped: seq<Token>): map<string, Token> {
    map v | v in tokens && tokens[v] !in dropped :: tokens[v]
  }

  ghost predicate MapListed(tokens: map<string, Token>, byPeer: map<string, seq<Token>>) {
    forall v :: v in tokens ==> tokens[v].value == v && tokens[v] in ListOf(byPeer, tokens[v].peer)
  }

  ghost predicate ListsMapped(tokens: map<string, Token>, byPeer: map<string, seq<Token>>) {
    forall p, t :: p in byPeer && t in byPeer[p] ==> t.peer == p && t.value in tokens && tokens[t.value] == t
  }

  ghost predicate ListsOrdered(byPeer: map<string, seq<Token>>) {
    forall p :: p in byPeer ==> byPeer[p] != [] && Ordered(byPeer[p])
  }

  /** Map and lists hold the same tokens, each once. */
  ghost predicate Agree(tokens: map<string, Token>, byPeer: map<string, seq<Token>>) {
    MapListed(tokens, byPeer) && ListsMapped(tokens, byPeer) && ListsOrdered(byPeer)
  }

  /** In an ordered list the dropped front and the rest share nothing. */
  lemma SplitsApart(list: seq<Token>, k: nat, t: Token)
    requires Ordered(list) && k <= |list|
    ensures t in list <==> t in list[..k] || t in list[k..]
    ensures !(t in list[..k] && t in list[k..])
  {
    assert list == list[..k] + list[k..];
    forall i, j | 0 <= i < k && 0 <= j < |list| - k ensures list[..k][i] != list[k..][j] {
      assert list[i].value != list[k + j].value;
    }
  }

  lemma DropMapListed(tokens: map<string, Token>, byPeer: map<string, seq<Token>>, peer: string, k: nat)
    requires MapListed(tokens, byPeer) && Ordered(ListOf(byPeer, peer)) && k <= |ListOf(byPeer, peer)|
    ensures var list := ListOf(byPeer, peer); MapListed(Without(tokens, list[..k]), Put(byPeer, peer, list[k..]))
  {
    var list := ListOf(byPeer, peer);
    var byPeer' := Put(byPeer, peer, list[k..]);
    var tokens' := Without(tokens, list[..k]);
    forall v | v in tokens' ensures tokens'[v] in ListOf(byPeer', tokens'[v].peer) {
      SplitsApart(list, k, tokens[v]);
    }
  }

  lemma DropListsMapped(tokens: map<string, Token>, byPeer: map<string, seq<Token>>, peer: string, k: nat)
    requires ListsMapped(tokens, byPeer) && Ordered(ListOf(byPeer, peer)) && k <= |ListOf(byPeer, peer)|
    ensures var list := ListOf(byPeer, peer); ListsMapped(Without(tokens, list[..k]), Put(byPeer, peer, list[k..]))
  {
    var list := ListOf(byPeer, peer);
    var byPeer' := Put(byPeer, peer, list[k..]);
    var tokens' := Without(tokens, list[..k]);
    forall p, t: Token | p in byPeer' && t in byPeer'[p]
      ensures t.peer == p && t.value in tokens' && tokens'[t.value] == t
    {
      SplitsApart(list, k, t);
      assert p in byPeer && t in byPeer[p];
      assert t in list ==> t.peer == peer;
    }
  }

  lemma DropListsOrdered(byPeer: map<string, seq<Token>>, peer: string, k: nat)
    requires ListsOrdered(byPeer) && k <= |ListOf(byPeer, peer)|
    ensures ListsOrdered(Put(byPeer, peer, ListOf(byPeer, peer)[k..]))
  {
  }

  lemma DropAgrees(tokens: map<string, Token>, byPeer: map<string, seq<Token>>, peer: string, k: nat)
    requires Agree(tokens, byPeer)
    requires k <= |ListOf(byPeer, peer)|
    ensures var list := ListOf(byPeer, peer);
            Agree(Without(tokens, list[..k]), Put(byPeer, peer, list[k..]))
  {
    DropMapListed(tokens, byPeer, peer, k);
    DropListsMapped(tokens, byPeer, peer, k);
    DropListsOrdered(byPeer, peer, k);
  }

  /** The tokens of the list are in the map under their values, each once. */
  ghost predicate Removable(tokens: map<string, Token>, list: seq<Token>) {
    && Ordered(list)
    && (forall i :: 0 <= i < |list| ==> list[i].value in tokens && tokens[list[i].value] == list[i])
    && (forall v :: v in tokens ==> tokens[v].value == v)
  }

  lemma AgreeRemovable(tokens: map<string, Token>, byPeer: map<string, seq<Token>>, peer: string)
    requires Agree(tokens, byPeer)
    ensures Removable(tokens, ListOf(byPeer, peer))
  {
    var list := ListOf(byPeer, peer);
    forall i | 0 <= i < |list| ensures list[i].value in tokens && tokens[list[i].value] == list[i] {
      assert list[i] in byPeer[peer];
    }
  }

  lemma WithoutNone(tokens: map<string, Token>, list: seq<Token>)
    ensures Without(tokens, list[..0]) == tokens
  {
  }

  ghost predicate PeelsAt(tokens: map<string, Token>, list: seq<Token>, i: nat)
    requires i < |list|
  {
    && list[i].value in Without(tokens, list[..i])
    && Without(tokens, list[..i + 1]) == Without(tokens, list[..i]) - {list[i].value}
  }

  /** Deleting the tokens of the list one by one, first to last. */
  ghost predicate Peels(tokens: map<string, Token>, list: seq<Token>) {
    forall i :: 0 <= i < |list| ==> PeelsAt(tokens, list, i)
  }

  lemma PeelsMeaning(tokens: map<string, Token>, list: seq<Token>, i: nat)
    requires Peels(tokens, list) && i < |list|
    ensures list[i].value in Without(tokens, list[..i])
    ensures Without(tokens, list[..i + 1]) == Without(tokens, list[..i]) - {list[i].value}
  {
    assert PeelsAt(tokens, list, i);
  }

  lemma PeelOne(tokens: map<string, Token>, list: seq<Token>, i: nat)
    requires Removable(tokens, list) && i < |list|
    ensures PeelsAt(tokens, list, i)
  {
    var t := list[i];
    assert list[..i + 1] == list[..i] + [t];
    SplitsApart(list, i, t);
    assert t == list[i..][0];
    forall v | v in tokens ensures tokens[v] in list[..i + 1] <==> tokens[v] in list[..i] || v == t.value {
    }
  }

  lemma ReadyToPrune(tokens: map<string, Token>, byPeer: map<string, seq<Token>>, peer: string, now: int)
    requires Agree(tokens, byPeer)
    ensures var list, k := ListOf(byPeer, peer), ExpiredCount(ListOf(byPeer, peer), now);
            && Peels(tokens, list)
            && (forall i :: 0 <= i < |list| ==> (Expired(list[i], now) <==> i < k))
            && Without(tokens, list[..0]) == tokens
            && (list == [] ==> byPeer - {peer} == byPeer)
  {
    var list := ListOf(byPeer, peer);
    AgreeRemovable(tokens, byPeer, peer);
    forall i | 0 <= i < |list| ensures PeelsAt(tokens, list, i) {
      PeelOne(tokens, list, i);
    }
    ExpiredCountMeaning(list, now);
    WithoutNone(tokens, list);
    assert peer !in byPeer ==> byPeer - {peer} == byPeer;
  }

  // ----- lists and history

  ghost predicate IsSuffix(list: seq<Token>, all: seq<Token>) {
    |list| <= |all| && list == all[|all| - |list|..]
  }

  /** A peer's list is the end of its mints, and what is missing in front has
      been pushed out by later mints or has expired. */
  ghost predicate Faithful(list: seq<Token>, mints: seq<Token>, clock: int) {
    && IsSuffix(list, mints)
    && forall i :: 0 <= i < |mints| - |list| ==> i < |mints| - MAX_LIVE_TOKENS_PER_PEER || Expired(mints[i], clock)
  }

  ghost predicate Refines(byPeer: map<string, seq<Token>>, h: seq<Token>, clock: int) {
    forall p :: Faithful(ListOf(byPeer, p), MintsOf(h, p), clock) && |ListOf(byPeer, p)| <= MAX_LIVE_TOKENS_PER_PEER
  }

  lemma PruneFaithful(list: seq<Token>, mints: seq<Token>, clock: int, now: int, k: nat)
    requires Faithful(list, mints, clock) && clock <= now && k <= |list|
    requires forall i :: 0 <= i < k ==> Expired(list[i], now)
    ensures Faithful(list[k..], mints, now)
  {
    var d := |mints| - |list|;
    assert list[k..] == mints[d + k..];
    forall i | 0 <= i < d + k ensures i < |mints| - MAX_LIVE_TOKENS_PER_PEER || Expired(mints[i], now) {
      if i >= d {
        assert mints[i] == list[i - d];
      }
    }
  }

  /** What a peer's list holds is its latest mints, less what has expired. */
  lemma ListMeaning(list: seq<Token>, mints: seq<Token>, clock: int, t: Token, now: int)
    requires Faithful(list, mints, clock) && |list| <= MAX_LIVE_TOKENS_PER_PEER && clock <= now
    requires !Expired(t, now)
    ensures t in list <==> t in Latest(mints)
  {
    var d := |mints| - |list|;
    if t in list {
      var i :| 0 <= i < |list| && list[i] == t;
      assert t == mints[d + i];
      LatestContains(mints, d + i);
    }
    if t in Latest(mints) {
      var i := LatestIndex(mints, t);
      assert i >= d;
      assert t == list[i - d];
    }
  }

  /** The search by value finds exactly what the history accepts. */
  lemma LookupMeaning(tokens: map<string, Token>, byPeer: map<string, seq<Token>>, h: seq<Token>, ttl: int, clock: int,
                      v: string, now: int)
    requires Agree(tokens, byPeer) && Refines(byPeer, h, clock) && WellFormed(h, ttl, clock)
    requires clock <= now
    ensures (v in tokens && !Expired(tokens[v], now)) <==> Accepted(h, v, now)
  {
    if v in tokens && !Expired(tokens[v], now) {
      var t := tokens[v];
      assert Faithful(ListOf(byPeer, t.peer), MintsOf(h, t.peer), clock);
      ListMeaning(ListOf(byPeer, t.peer), MintsOf(h, t.peer), clock, t, now);
      LatestIsMint(h, t.peer, t);
    }
    if Accepted(h, v, now) {
      var t :| t in h && t.value == v && t in LatestMints(h, t.peer) && !Expired(t, now);
      assert Faithful(ListOf(byPeer, t.peer), MintsOf(h, t.peer), clock);
      ListMeaning(ListOf(byPeer, t.peer), MintsOf(h, t.peer), clock, t, now);
    }
  }

  lemma LatestIsMint(h: seq<Token>, peer: string, t: Token)
    requires t in LatestMints(h, peer)
    ensures t in h && t.peer == peer
  {
    var i := LatestIndex(MintsOf(h, peer), t);
    MintsOfMeaning(h, peer, t);
  }

  lemma LatestContains(m: seq<Token>, i: nat)
    requires i < |m| && i >= |m| - MAX_LIVE_TOKENS_PER_PEER
    ensures m[i] in Latest(m)
  {
    if |m| > MAX_LIVE_TOKENS_PER_PEER {
      assert m[i] == m[|m| - MAX_LIVE_TOKENS_PER_PEER..][i - (|m| - MAX_LIVE_TOKENS_PER_PEER)];
    }
  }

  lemma LatestIndex(m: seq<Token>, t: Token) returns (i: nat)
    requires t in Latest(m)
    ensures i < |m| && i >= |m| - MAX_LIVE_TOKENS_PER_PEER && m[i] == t
  {
    if |m| <= MAX_LIVE_TOKENS_PER_PEER {
      i :| 0 <= i < |m| && m[i] == t;
    } else {
      var j :| 0 <= j < MAX_LIVE_TOKENS_PER_PEER && m[|m| - MAX_LIVE_TOKENS_PER_PEER..][j] == t;
      i := |m| - MAX_LIVE_TOKENS_PER_PEER + j;
    }
  }

  /** The invariant of the store, over its fields and the history. */
  ghost predicate Sound(tokens: map<string, Token>, byPeer: map<string, seq<Token>>, liveCount: int,
                        history: seq<Token>, ttl: int, clock: int)
  {
    && WellFormed(history, ttl, clock)
    && Agree(tokens, byPeer)
    && Refines(byPeer, history, clock)
    && liveCount == |tokens| <= GLOBAL_TOKEN_EMERGENCY_CAP
  }

  /** The first k tokens of a peer's list are gone from map, list and count. */
  ghost predicate Dropped(tokens0: map<string, Token>, byPeer0: map<string, seq<Token>>, count0: int,
                          tokens: map<string, Token>, byPeer: map<string, seq<Token>>, count: int, peer: string, k: nat)
  {
    var list := ListOf(byPeer0, peer);
    && k <= |list|
    && byPeer == Put(byPeer0, peer, list[k..])
    && tokens == Without(tokens0, list[..k])
    && count == count0 - k
  }

  lemma DropDone(tokens0: map<string, Token>, byPeer0: map<string, seq<Token>>, count0: int, tokens: map<string, Token>,
                 byPeer: map<string, seq<Token>>, count: int, peer: string, list: seq<Token>, k: nat)
    requires list == ListOf(byPeer0, peer) && k <= |list|
    requires byPeer == if list[k..] == [] then byPeer0 - {peer} else byPeer0[peer := list[k..]]
    requires tokens == Without(tokens0, list[..k]) && count == count0 - k
    ensures Dropped(tokens0, byPeer0, count0, tokens, byPeer, count, peer, k)
  {
  }

  lemma DroppedFields(tokens0: map<string, Token>, byPeer0: map<string, seq<Token>>, count0: int,
                      tokens: map<string, Token>, byPeer: map<string, seq<Token>>, count: int, peer: string, k: nat)
    requires Dropped(tokens0, byPeer0, count0, tokens, byPeer, count, peer, k)
    ensures k <= |ListOf(byPeer0, peer)|
    ensures byPeer == Put(byPeer0, peer, ListOf(byPeer0, peer)[k..])
    ensures tokens == Without(tokens0, ListOf(byPeer0, peer)[..k])
    ensures count == count0 - k
  {
  }

  lemma OthersStay(byPeer: map<string, seq<Token>>, peer: string, list: seq<Token>)
    ensures forall p :: p != peer ==> ListOf(byPeer[peer := list], p) == ListOf(byPeer, p)
  {
  }

  lemma PutTwice(byPeer: map<string, seq<Token>>, peer: string, a: seq<Token>, b: seq<Token>)
    ensures ListOf(Put(byPeer, peer, a), peer) == a
    ensures forall p :: p != peer ==> ListOf(Put(byPeer, peer, a), p) == ListOf(byPeer, p)
    ensures Put(Put(byPeer, peer, a), peer, b) == Put(byPeer, peer, b)
  {
  }

  lemma WithoutTwice(tokens: map<string, Token>, a: seq<Token>, b: seq<Token>)
    ensures Without(Without(tokens, a), b) == Without(tokens, a + b)
  {
  }

  lemma DroppedTwice(tokens0: map<string, Token>, byPeer0: map<string, seq<Token>>, count0: int,
                     tokens1: map<string, Token>, byPeer1: map<string, seq<Token>>, count1: int,
                     tokens2: map<string, Token>, byPeer2: map<string, seq<Token>>, count2: int, peer: string, k: nat,
                     l: nat)
    requires Dropped(tokens0, byPeer0, count0, tokens1, byPeer1, count1, peer, k)
    requires Dropped(tokens1, byPeer1, count1, tokens2, byPeer2, count2, peer, l)
    ensures Dropped(tokens0, byPeer0, count0, tokens2, byPeer2, count2, peer, k + l)
  {
    hide Put, Without, ListOf;
    var list := ListOf(byPeer0, peer);
    PutTwice(byPeer0, peer, list[k..], []);
    PutTwice(byPeer0, peer, list[k..], list[k..][l..]);
    WithoutTwice(tokens0, list[..k], list[k..][..l]);
    assert list[k..][l..] == list[k + l..];
    assert list[..k] + list[k..][..l] == list[..k + l];
  }

  /** Dropping nothing changes nothing. */
  lemma DroppedNone(tokens0: map<string, Token>, byPeer0: map<string, seq<Token>>, count0: int,
                    tokens: map<string, Token>, byPeer: map<string, seq<Token>>, count: int, peer: string)
    requires ListsOrdered(byPeer0)
    requires Dropped(tokens0, byPeer0, count0, tokens, byPeer, count, peer, 0)
    ensures tokens == tokens0 && byPeer == byPeer0 && count == count0
  {
    var list := ListOf(byPeer0, peer);
    assert list[0..] == list;
    WithoutNone(tokens0, list);
    assert peer !in byPeer0 ==> byPeer0 - {peer} == byPeer0;
    assert peer in byPeer0 ==> byPeer0[peer := list] == byPeer0;
  }

  /** Time passing keeps every list faithful. */
  lemma Later(byPeer: map<string, seq<Token>>, h: seq<Token>, clock: int, now: int)
    requires Refines(byPeer, h, clock) && clock <= now
    ensures Refines(byPeer, h, now)
  {
    forall p
      ensures Faithful(ListOf(byPeer, p), MintsOf(h, p), now) && |ListOf(byPeer, p)| <= MAX_LIVE_TOKENS_PER_PEER
    {
      assert Faithful(ListOf(byPeer, p), MintsOf(h, p), clock);
    }
  }

  lemma LaterSound(tokens: map<string, Token>, byPeer: map<string, seq<Token>>, count: int, h: seq<Token>, ttl: int,
                   clock: int, now: int)
    requires Sound(tokens, byPeer, count, h, ttl, clock) && clock <= now
    ensures Sound(tokens, byPeer, count, h, ttl, now)
  {
    hide Agree, ListOf, MintsOf;
    Later(byPeer, h, clock, now);
  }

  /** Dropping tokens that have expired keeps the store sound. */
  lemma DroppedSound(tokens0: map<string, Token>, byPeer0: map<string, seq<Token>>, count0: int,
                     tokens: map<string, Token>, byPeer: map<string, seq<Token>>, count: int, peer: string, k: nat,
                     h: seq<Token>, ttl: int, clock: int, now: int)
    requires Sound(tokens0, byPeer0, count0, h, ttl, clock) && clock <= now
    requires Dropped(tokens0, byPeer0, count0, tokens, byPeer, count, peer, k)
    requires count == |tokens|
    requires forall i :: 0 <= i < k ==> Expired(ListOf(byPeer0, peer)[i], now)
    ensures Sound(tokens, byPeer, count, h, ttl, now)
  {
    hide MapListed, ListsMapped, ListsOrdered, Put, ListOf, Without;
    var list := ListOf(byPeer0, peer);
    DropAgrees(tokens0, byPeer0, peer, k);
    PutTwice(byPeer0, peer, list[k..], []);
    DroppedRefines(byPeer0, byPeer, peer, k, h, clock, now);
  }

  lemma DroppedRefines(byPeer0: map<string, seq<Token>>, byPeer: map<string, seq<Token>>, peer: string, k: nat,
                       h: seq<Token>, clock: int, now: int)
    requires Refines(byPeer0, h, clock) && clock <= now && k <= |ListOf(byPeer0, peer)|
    requires forall i :: 0 <= i < k ==> Expired(ListOf(byPeer0, peer)[i], now)
    requires ListOf(byPeer, peer) == ListOf(byPeer0, peer)[k..]
    requires forall p :: p != peer ==> ListOf(byPeer, p) == ListOf(byPeer0, p)
    ensures Refines(byPeer, h, now)
  {
    hide ListOf, MintsOf, Faithful, Expired;
    Later(byPeer0, h, clock, now);
    forall p
      ensures Faithful(ListOf(byPeer, p), MintsOf(h, p), now) && |ListOf(byPeer, p)| <= MAX_LIVE_TOKENS_PER_PEER
    {
      assert Faithful(ListOf(byPeer0, p), MintsOf(h, p), clock) && |ListOf(byPeer0, p)| <= MAX_LIVE_TOKENS_PER_PEER;
      assert Faithful(ListOf(byPeer0, p), MintsOf(h, p), now);
      if p == peer {
        PruneFaithful(ListOf(byPeer0, p), MintsOf(h, p), clock, now, k);
      }
    }
  }

  // ----- minting

  /** The first k tokens of a list are in the way of one more mint: expired, or
      too old once it is there; without them the mint fits. */
  ghost predicate Spare(list: seq<Token>, k: nat, now: int) {
    && k <= |list| && |list| - k < MAX_LIVE_TOKENS_PER_PEER
    && forall i :: 0 <= i < k ==> i <= |list| - MAX_LIVE_TOKENS_PER_PEER || Expired(list[i], now)
  }

  /** A mint would push nothing out. */
  ghost predicate HasRoom(list: seq<Token>, now: int) {
    |list| < MAX_LIVE_TOKENS_PER_PEER && forall t :: t in list ==> !Expired(t, now)
  }

  /** How many of n are more than keep. */
  ghost function Surplus(n: nat, keep: int): nat {
    var floor := if keep < 0 then 0 else keep;
    if n > floor then n - floor else 0
  }

  /** How many tokens make room: the expired ones, then the oldest. */
  lemma RoomMade(list: seq<Token>, now: int, m: nat, l: nat)
    requires m <= |list| && forall i :: 0 <= i < |list| ==> (Expired(list[i], now) <==> i < m)
    requires l == Surplus(|list| - m, MAX_LIVE_TOKENS_PER_PEER - 1)
    ensures Spare(list, m + l, now)
    ensures m + l == 0 <==> HasRoom(list, now)
  {
    assert |list| > 0 ==> list[0] in list;
  }

  /** The fields after a mint. */
  lemma MintAgrees(tokens: map<string, Token>, byPeer: map<string, seq<Token>>, t: Token)
    requires Agree(tokens, byPeer) && t.value !in tokens
    requires forall i :: 0 <= i < |ListOf(byPeer, t.peer)| ==> ListOf(byPeer, t.peer)[i].expiresAt <= t.expiresAt
    ensures Agree(tokens[t.value := t], byPeer[t.peer := ListOf(byPeer, t.peer) + [t]])
  {
    MintMapListed(tokens, byPeer, t);
    MintListsMapped(tokens, byPeer, t);
    MintListsOrdered(tokens, byPeer, t);
  }

  lemma MintMapListed(tokens: map<string, Token>, byPeer: map<string, seq<Token>>, t: Token)
    requires MapListed(tokens, byPeer)
    ensures MapListed(tokens[t.value := t], byPeer[t.peer := ListOf(byPeer, t.peer) + [t]])
  {
    var list := ListOf(byPeer, t.peer);
    var tokens', byPeer' := tokens[t.value := t], byPeer[t.peer := list + [t]];
    forall v | v in tokens' ensures tokens'[v].value == v && tokens'[v] in ListOf(byPeer', tokens'[v].peer) {
      if v == t.value {
        assert t == (list + [t])[|list|];
      } else {
        assert tokens[v] in ListOf(byPeer, tokens[v].peer);
      }
    }
  }

  lemma MintListsMapped(tokens: map<string, Token>, byPeer: map<string, seq<Token>>, t: Token)
    requires ListsMapped(tokens, byPeer) && t.value !in tokens
    ensures ListsMapped(tokens[t.value := t], byPeer[t.peer := ListOf(byPeer, t.peer) + [t]])
  {
  }

  lemma MintListsOrdered(tokens: map<string, Token>, byPeer: map<string, seq<Token>>, t: Token)
    requires ListsMapped(tokens, byPeer) && ListsOrdered(byPeer) && t.value !in tokens
    requires forall i :: 0 <= i < |ListOf(byPeer, t.peer)| ==> ListOf(byPeer, t.peer)[i].expiresAt <= t.expiresAt
    ensures ListsOrdered(byPeer[t.peer := ListOf(byPeer, t.peer) + [t]])
  {
    var list := ListOf(byPeer, t.peer);
    forall i | 0 <= i < |list| ensures list[i].value != t.value {
      assert list[i] in byPeer[t.peer];
    }
    assert Ordered(list + [t]);
  }

  lemma MintsOfMint(h: seq<Token>, t: Token, p: string)
    ensures MintsOf(h + [t], p) == MintsOf(h, p) + if t.peer == p then [t] else []
  {
    assert (h + [t])[..|h|] == h;
  }

  /** What the new token pushes out need not be kept; everyone else's mints stay. */
  lemma MintRefines(byPeer0: map<string, seq<Token>>, h: seq<Token>, clock: int, peer: string, k: nat, t: Token)
    requires Refines(byPeer0, h, clock) && t.peer == peer
    requires Spare(ListOf(byPeer0, peer), k, clock)
    ensures Refines(byPeer0[peer := ListOf(byPeer0, peer)[k..] + [t]], h + [t], clock)
  {
    hide Faithful, MintsOf;
    var list := ListOf(byPeer0, peer);
    var byPeer := byPeer0[peer := list[k..] + [t]];
    forall p
      ensures Faithful(ListOf(byPeer, p), MintsOf(h + [t], p), clock) && |ListOf(byPeer, p)| <= MAX_LIVE_TOKENS_PER_PEER
    {
      assert Faithful(ListOf(byPeer0, p), MintsOf(h, p), clock) && |ListOf(byPeer0, p)| <= MAX_LIVE_TOKENS_PER_PEER;
      MintsOfMint(h, t, p);
      if p == peer {
        MintFaithful(list, MintsOf(h, p), clock, k, t);
      } else {
        assert MintsOf(h, p) + [] == MintsOf(h, p);
      }
    }
  }

  lemma MintFaithful(list: seq<Token>, mints: seq<Token>, clock: int, k: nat, t: Token)
    requires Faithful(list, mints, clock) && Spare(list, k, clock)
    ensures Faithful(list[k..] + [t], mints + [t], clock)
  {
    var d := |mints| - |list|;
    assert mints + [t] == mints[..d + k] + (mints[d + k..] + [t]);
    assert list[k..] == mints[d + k..];
    forall i | 0 <= i < d + k ensures i < |mints| + 1 - MAX_LIVE_TOKENS_PER_PEER || Expired((mints + [t])[i], clock) {
      assert (mints + [t])[i] == mints[i];
      if i >= d {
        assert mints[i] == list[i - d];
      }
    }
  }

  lemma ListIsMints(list: seq<Token>, h: seq<Token>, peer: string, clock: int, i: nat)
    requires Faithful(list, MintsOf(h, peer), clock) && i < |list|
    ensures list[i] in h
  {
    var mints := MintsOf(h, peer);
    assert list[i] == mints[|mints| - |list| + i];
    MintsOfMeaning(h, peer, list[i]);
  }

  lemma ListsAreMints(tokens: map<string, Token>, byPeer: map<string, seq<Token>>, h: seq<Token>, clock: int)
    requires MapListed(tokens, byPeer) && Refines(byPeer, h, clock)
    ensures forall p, i :: 0 <= i < |ListOf(byPeer, p)| ==> ListOf(byPeer, p)[i] in h
    ensures forall v :: v in tokens ==> tokens[v] in h
  {
    hide Faithful, ListOf, MintsOf;
    forall p, i | 0 <= i < |ListOf(byPeer, p)| ensures ListOf(byPeer, p)[i] in h {
      assert Faithful(ListOf(byPeer, p), MintsOf(h, p), clock);
      ListIsMints(ListOf(byPeer, p), h, p, clock, i);
    }
  }

  lemma WellFormedMint(h: seq<Token>, ttl: int, clock: int, t: Token)
    requires WellFormed(h, ttl, clock) && t.createdAt >= clock && t.expiresAt == t.createdAt + ttl
    requires forall m :: m in h ==> m.value != t.value
    ensures WellFormed(h + [t], ttl, t.createdAt)
  {
    forall i, j | 0 <= i < j < |h + [t]|
      ensures (h + [t])[i].createdAt <= (h + [t])[j].createdAt && (h + [t])[i].value != (h + [t])[j].value
    {
      assert h[i] in h;
    }
  }

  /** The store after dropping k tokens of the peer and appending a new one. */
  lemma MintSound(tokens0: map<string, Token>, byPeer0: map<string, seq<Token>>, count0: int,
                  tokens: map<string, Token>, byPeer: map<string, seq<Token>>, count: int, k: nat,
                  h: seq<Token>, ttl: int, clock: int, t: Token)
    requires Sound(tokens0, byPeer0, count0, h, ttl, clock) && clock <= t.createdAt && t.expiresAt == t.createdAt + ttl
    requires Dropped(tokens0, byPeer0, count0, tokens, byPeer, count, t.peer, k)
    requires count == |tokens| < GLOBAL_TOKEN_EMERGENCY_CAP
    requires Spare(ListOf(byPeer0, t.peer), k, t.createdAt)
    requires forall m :: m in h ==> m.value != t.value
    ensures Sound(tokens[t.value := t], byPeer[t.peer := ListOf(byPeer, t.peer) + [t]], count + 1, h + [t], ttl,
                  t.createdAt)
  {
    hide MapListed, ListsMapped, ListsOrdered, Refines, WellFormed, Put, ListOf, Without;
    var list := ListOf(byPeer0, t.peer);
    Later(byPeer0, h, clock, t.createdAt);
    ListsAreMints(tokens0, byPeer0, h, clock);
    WellFormedMint(h, ttl, clock, t);
    MintRefines(byPeer0, h, t.createdAt, t.peer, k, t);
    DropAgrees(tokens0, byPeer0, t.peer, k);
    PutTwice(byPeer0, t.peer, list[k..], []);
    ValueIsNew(tokens0, byPeer0, h, t, list, k);
    EarlierExpire(h, ttl, clock, list, k, t);
    MintAgrees(tokens, byPeer, t);
    PutUpdated(byPeer0, t.peer, list[k..], list[k..] + [t]);
  }

  lemma PutUpdated(byPeer: map<string, seq<Token>>, peer: string, a: seq<Token>, b: seq<Token>)
    ensures Put(byPeer, peer, a)[peer := b] == byPeer[peer := b]
  {
  }

  lemma ValueIsNew(tokens0: map<string, Token>, byPeer0: map<string, seq<Token>>, h: seq<Token>, t: Token,
                   list: seq<Token>, k: nat)
    requires MapListed(tokens0, byPeer0) && k <= |list|
    requires forall v :: v in tokens0 ==> tokens0[v] in h
    requires forall m :: m in h ==> m.value != t.value
    ensures t.value !in Without(tokens0, list[..k])
  {
  }

  lemma EarlierExpire(h: seq<Token>, ttl: int, clock: int, list: seq<Token>, k: nat, t: Token)
    requires WellFormed(h, ttl, clock) && clock <= t.createdAt && t.expiresAt == t.createdAt + ttl
    requires k <= |list| && forall i :: 0 <= i < |list| ==> list[i] in h
    ensures forall i :: 0 <= i < |list[k..]| ==> list[k..][i].expiresAt <= t.expiresAt
  {
    forall i | 0 <= i < |list[k..]| ensures list[k..][i].expiresAt <= t.expiresAt {
      assert list[k..][i] == list[k + i];
    }
  }

  function PeerName(who: string): string {
    if who == "" then "unknown" else who
  }

  class TokenStore {
    var tokens: map<string, Token>
    var byPeer: map<string, seq<Token>>
    var liveCount: int
    const tokenTTL: int
    ghost var history: seq<Token>  // every successful mint
    ghost var clock: int           // the latest time read under the lock

    ghost predicate Valid()
      reads this
    {
      Sound(tokens, byPeer, liveCount, history, tokenTTL, clock)
    }

    lemma Parts()
      requires Valid()
      ensures Sound(tokens, byPeer, liveCount, history, tokenTTL, clock)
      ensures WellFormed(history, tokenTTL, clock) && Agree(tokens, byPeer) && Refines(byPeer, history, clock)
      ensures liveCount == |tokens| <= GLOBAL_TOKEN_EMERGENCY_CAP
      ensures ListsOrdered(byPeer)
    {
    }

    lemma Whole()
      requires Sound(tokens, byPeer, liveCount, history, tokenTTL, clock)
      ensures Valid()
    {
    }

    constructor (ttl: int, ghost now: int)
      ensures Valid() && tokenTTL == ttl && history == [] && clock == now
    {
      tokens, byPeer, liveCount, tokenTTL := map[], map[], 0, ttl;
      history, clock := [], now;
    }

    /** Mints a token. now was read before, random is the fresh value or None. */
    method GenerateToken(who: string, now: int, random: Option<string>) returns (r: MintResult)
      requires Valid() && clock <= now
      requires random.Some? ==> forall t :: t in history ==> t.value != random.value
      modifies this
      ensures Valid() && clock == if r.Minted? then now else old(clock)
      ensures r.NoRandomness? <==> random.None?
      ensures r.Emergency? <==>
                random.Some? && old(liveCount) == GLOBAL_TOKEN_EMERGENCY_CAP
                  && HasRoom(ListOf(old(byPeer), PeerName(who)), now)
      ensures !r.Minted? ==>
                tokens == old(tokens) && byPeer == old(byPeer) && liveCount == old(liveCount) && history == old(history)
      ensures r.Minted? ==>
                && r.token == Token(random.value, now + tokenTTL, now, PeerName(who))
                && history == old(history) + [r.token]
      ensures forall p :: p != PeerName(who) ==> ListOf(byPeer, p) == ListOf(old(byPeer), p)
    {
      hide *;
      Parts();
      var peer := PeerName(who);
      if random.None? {
        return NoRandomness;
      }
      var token := Token(random.value, now + tokenTTL, now, peer);
      ghost var tokens0, byPeer0, count0 := tokens, byPeer, liveCount;
      ghost var k := MakeRoom(peer, now);
      DroppedFields(tokens0, byPeer0, count0, tokens, byPeer, liveCount, peer, k);
      if liveCount >= GLOBAL_TOKEN_EMERGENCY_CAP {
        DroppedNone(tokens0, byPeer0, count0, tokens, byPeer, liveCount, peer);
        Whole();
        return Emergency;
      }
      MintSound(tokens0, byPeer0, count0, tokens, byPeer, liveCount, k, history, tokenTTL, clock, token);
      PutTwice(byPeer0, peer, ListOf(byPeer0, peer)[k..], []);
      OthersStay(byPeer, peer, ListOf(byPeer, peer) + [token]);
      tokens := tokens[token.value := token];
      byPeer := byPeer[peer := ListOf(byPeer, peer) + [token]];
      liveCount := liveCount + 1;
      history, clock := history + [token], now;
      Whole();
      return Minted(token);
    }

    /** The prune and the eviction before a mint. */
    method MakeRoom(peer: string, now: int) returns (ghost k: nat)
      requires Valid()
      modifies this`tokens, this`byPeer, this`liveCount
      ensures liveCount == |tokens|
      ensures Dropped(old(tokens), old(byPeer), old(liveCount), tokens, byPeer, liveCount, peer, k)
      ensures Spare(ListOf(old(byPeer), peer), k, now)
      ensures k == 0 <==> HasRoom(ListOf(old(byPeer), peer), now)
    {
      hide *;
      Parts();
      ghost var tokens0, byPeer0, count0 := tokens, byPeer, liveCount;
      ghost var list := ListOf(byPeer, peer);
      ghost var m := ExpiredCount(list, now);
      ReadyToPrune(tokens, byPeer, peer, now);
      DropAgrees(tokens, byPeer, peer, m);
      PutTwice(byPeer, peer, list[m..], []);
      PrunePeerExpired(peer, now);
      ghost var tokens1, byPeer1, count1 := tokens, byPeer, liveCount;
      DroppedFields(tokens0, byPeer0, count0, tokens1, byPeer1, count1, peer, m);
      ghost var l := EvictOldestOfPeer(peer, MAX_LIVE_TOKENS_PER_PEER - 1);
      k := m + l;
      RoomMade(list, now, m, l);
      DroppedTwice(tokens0, byPeer0, count0, tokens1, byPeer1, count1, tokens, byPeer, liveCount, peer, m, l);
    }

    /** Drops the expired tokens of one peer. */
    method PrunePeerExpired(peer: string, now: int)
      requires Agree(tokens, byPeer) && liveCount == |tokens|
      modifies this`tokens, this`byPeer, this`liveCount
      ensures liveCount == |tokens|
      ensures Dropped(old(tokens), old(byPeer), old(liveCount), tokens, byPeer, liveCount, peer,
                      ExpiredCount(ListOf(old(byPeer), peer), now))
    {
      hide *;
      var list := ListOf(byPeer, peer);
      ghost var k := ExpiredCount(list, now);
      ghost var tokens0, byPeer0, count0 := tokens, byPeer, liveCount;
      ReadyToPrune(tokens, byPeer, peer, now);
      if |list| == 0 {
        DropDone(tokens0, byPeer0, count0, tokens, byPeer, liveCount, peer, list, k);
        return;
      }
      var kept := FilterInPlace(list, now, k);
      if |kept| == 0 {
        byPeer := byPeer - {peer};
      } else {
        byPeer := byPeer[peer := kept];
      }
      DropDone(tokens0, byPeer0, count0, tokens, byPeer, liveCount, peer, list, k);
    }

    /** The filtering loop: live tokens move to the front of the list that is
        still being read; expired ones leave map and count. */
    method FilterInPlace(was: seq<Token>, now: int, ghost k: nat) returns (kept: seq<Token>)
      requires k <= |was| && forall i :: 0 <= i < |was| ==> (Expired(was[i], now) <==> i < k)
      requires Peels(tokens, was) && Without(tokens, was[..0]) == tokens && liveCount == |tokens|
      modifies this`tokens, this`liveCount
      ensures kept == was[k..]
      ensures tokens == Without(old(tokens), was[..k])
      ensures liveCount == |tokens| == old(liveCount) - k
    {
      hide *;
      ghost var map0, e := tokens, 0;
      var list, n := was, 0;
      for i := 0 to |list|
        invariant |list| == |was| && e <= i && n == i - e
        invariant if i < k then e == i else e == k
        invariant list[..n] == was[e..i] && list[i..] == was[i..]
        invariant tokens == Without(map0, was[..e])
        invariant liveCount == |tokens| == old(liveCount) - e
      {
        var tok := list[i];
        assert tok == list[i..][0] == was[i];
        if Expired(tok, now) {
          PeelsMeaning(map0, was, i);
          tokens := tokens - {tok.value};
          liveCount := liveCount - 1;
          e := e + 1;
          continue;
        }
        MoveUp(list, was, e, n, i);
        list := list[n := tok];
        n := n + 1;
      }
      kept := list[..n];
    }

    /** Drops the oldest tokens of one peer until it holds at most keep. */
    method EvictOldestOfPeer(peer: string, keep: int) returns (ghost k: nat)
      requires Agree(tokens, byPeer) && liveCount == |tokens|
      modifies this`tokens, this`byPeer, this`liveCount
      ensures k == Surplus(|ListOf(old(byPeer), peer)|, keep)
      ensures liveCount == |tokens|
      ensures Dropped(old(tokens), old(byPeer), old(liveCount), tokens, byPeer, liveCount, peer, k)
    {
      hide *;
      ghost var was := ListOf(byPeer, peer);
      ReadyToPrune(tokens, byPeer, peer, 0);
      SurplusMeaning(|was|, keep);
      var floor := if keep < 0 then 0 else keep;
      var list;
      list, k := EvictFront(ListOf(byPeer, peer), floor);
      if |list| == 0 {
        byPeer := byPeer - {peer};
      } else {
        byPeer := byPeer[peer := list];
      }
      DropDone(old(tokens), old(byPeer), old(liveCount), tokens, byPeer, liveCount, peer, was, k);
    }

    /** The evicting loop: the front of the list leaves map and count. */
    method EvictFront(was: seq<Token>, keep: nat) returns (list: seq<Token>, ghost k: nat)
      requires Peels(tokens, was) && Without(tokens, was[..0]) == tokens && liveCount == |tokens|
      modifies this`tokens, this`liveCount
      ensures k == (if |was| > keep then |was| - keep else 0) && list == was[k..]
      ensures tokens == Without(old(tokens), was[..k])
      ensures liveCount == |tokens| == old(liveCount) - k
    {
      hide *;
      k, list := 0, was;
      while |list| > keep
        invariant k <= |was| && list == was[k..]
        invariant k > 0 ==> |list| >= keep
        invariant tokens == Without(old(tokens), was[..k])
        invariant liveCount == |tokens| == old(liveCount) - k
      {
        var oldest := list[0];
        PeelsMeaning(old(tokens), was, k);
        tokens := tokens - {oldest.value};
        liveCount := liveCount - 1;
        list := list[1..];
        k := k + 1;
      }
    }

    /** The ticker's sweep over every peer. */
    method DiscardExpired(now: int)
      requires Valid() && clock <= now
      modifies this
      ensures Valid() && history == old(history) && clock == now
      ensures forall p :: ListOf(byPeer, p) == ListOf(old(byPeer), p)[ExpiredCount(ListOf(old(byPeer), p), now)..]
      ensures forall v :: v in tokens <==> v in old(tokens) && !Expired(old(tokens)[v], now)
    {
      hide *;
      ghost var byPeer0, tokens0 := byPeer, tokens;
      Parts();
      LaterSound(tokens, byPeer, liveCount, history, tokenTTL, clock, now);
      UnknownLists(byPeer, now);
      clock := now;
      Whole();
      var peers := byPeer.Keys;
      while peers != {}
        invariant Valid() && history == old(history) && clock == now
        invariant peers <= byPeer0.Keys
        invariant forall p :: p in peers ==> ListOf(byPeer, p) == ListOf(byPeer0, p)
        invariant forall p :: p !in peers ==>
                    ListOf(byPeer, p) == ListOf(byPeer0, p)[ExpiredCount(ListOf(byPeer0, p), now)..]
        decreases |peers|
      {
        var peer :| peer in peers;
        peers := peers - {peer};
        PruneOne(peer, now);
      }
      Parts();
      SweptTokens(tokens0, byPeer0, tokens, byPeer, now);
    }

    method PruneOne(peer: string, now: int)
      requires Valid() && clock == now
      modifies this`tokens, this`byPeer, this`liveCount
      ensures Valid()
      ensures ListOf(byPeer, peer) == ListOf(old(byPeer), peer)[ExpiredCount(ListOf(old(byPeer), peer), now)..]
      ensures forall p :: p != peer ==> ListOf(byPeer, p) == ListOf(old(byPeer), p)
    {
      hide *;
      Parts();
      ghost var k := ExpiredCount(ListOf(byPeer, peer), now);
      ghost var tokens0, byPeer0, count0 := tokens, byPeer, liveCount;
      ReadyToPrune(tokens, byPeer, peer, now);
      PrunePeerExpired(peer, now);
      DroppedFields(tokens0, byPeer0, count0, tokens, byPeer, liveCount, peer, k);
      DroppedSound(tokens0, byPeer0, count0, tokens, byPeer, liveCount, peer, k, history, tokenTTL, clock, now);
      PutTwice(byPeer0, peer, ListOf(byPeer0, peer)[k..], []);
      Whole();
    }

    /** A token is valid exactly when the history of mints says so. */
    method ValidateToken(v: string, now: int) returns (ok: bool)
      requires Valid() && clock <= now
      ensures ok <==> Accepted(history, v, now)
    {
      LookupMeaning(tokens, byPeer, history, tokenTTL, clock, v, now);
      if v !in tokens {
        return false;
      }
      if Expired(tokens[v], now) {
        return false;
      }
      return true;
    }
  }

  lemma SurplusMeaning(n: nat, keep: int)
    ensures Surplus(n, keep) == if n > (if keep < 0 then 0 else keep) then n - (if keep < 0 then 0 else keep) else 0
  {
  }

  /** A live token moved to the front, within the slice still being read. */
  lemma MoveUp(list: seq<Token>, was: seq<Token>, e: nat, n: nat, i: nat)
    requires |list| == |was| && e <= i < |was| && n == i - e
    requires list[..n] == was[e..i] && list[i..] == was[i..]
    ensures list[n := was[i]][..n + 1] == was[e..i + 1] && list[n := was[i]][i + 1..] == was[i + 1..]
  {
    assert was[e..i + 1] == was[e..i] + [was[i]];
    assert list[n := was[i]][..n + 1] == list[..n] + [was[i]];
    assert list[n := was[i]][i + 1..] == list[i..][1..];
    assert was[i + 1..] == was[i..][1..];
  }

  /** What soundness says of the fields: map, lists and count agree, and the
      caps hold. */
  lemma SoundBounds(tokens: map<string, Token>, byPeer: map<string, seq<Token>>, liveCount: int, h: seq<Token>,
                    ttl: int, clock: int)
    requires Sound(tokens, byPeer, liveCount, h, ttl, clock)
    ensures forall t: Token :: (t.value in tokens && tokens[t.value] == t) <==> t in ListOf(byPeer, t.peer)
    ensures forall p :: |ListOf(byPeer, p)| <= MAX_LIVE_TOKENS_PER_PEER
    ensures forall p, i, j :: 0 <= i < j < |ListOf(byPeer, p)| ==> ListOf(byPeer, p)[i] != ListOf(byPeer, p)[j]
    ensures liveCount == |tokens| <= GLOBAL_TOKEN_EMERGENCY_CAP
  {
    hide MintsOf, IsSuffix, Expired;
    forall t: Token ensures (t.value in tokens && tokens[t.value] == t) <==> t in ListOf(byPeer, t.peer) {
      AgreeContains(tokens, byPeer, t);
    }
    forall p ensures |ListOf(byPeer, p)| <= MAX_LIVE_TOKENS_PER_PEER {
      assert Faithful(ListOf(byPeer, p), MintsOf(h, p), clock) && |ListOf(byPeer, p)| <= MAX_LIVE_TOKENS_PER_PEER;
    }
  }

  /** A peer without a list has nothing to prune. */
  lemma UnknownLists(byPeer: map<string, seq<Token>>, now: int)
    ensures forall p :: p !in byPeer.Keys ==>
              ListOf(byPeer, p) == ListOf(byPeer, p)[ExpiredCount(ListOf(byPeer, p), now)..]
  {
  }

  /** After every list lost its expired front, the map holds what has not expired. */
  lemma SweptTokens(tokens0: map<string, Token>, byPeer0: map<string, seq<Token>>,
                    tokens: map<string, Token>, byPeer: map<string, seq<Token>>, now: int)
    requires Agree(tokens0, byPeer0) && Agree(tokens, byPeer)
    requires forall p :: ListOf(byPeer, p) == ListOf(byPeer0, p)[ExpiredCount(ListOf(byPeer0, p), now)..]
    ensures forall v :: v in tokens <==> v in tokens0 && !Expired(tokens0[v], now)
  {
    forall v ensures v in tokens <==> v in tokens0 && !Expired(tokens0[v], now) {
      if v in tokens {
        SweptToken(tokens0, byPeer0, tokens, byPeer, tokens[v], now);
      }
      if v in tokens0 {
        SweptToken(tokens0, byPeer0, tokens, byPeer, tokens0[v], now);
      }
    }
  }

  lemma SweptToken(tokens0: map<string, Token>, byPeer0: map<string, seq<Token>>,
                   tokens: map<string, Token>, byPeer: map<string, seq<Token>>, t: Token, now: int)
    requires Agree(tokens0, byPeer0) && Agree(tokens, byPeer)
    requires ListOf(byPeer, t.peer) == ListOf(byPeer0, t.peer)[ExpiredCount(ListOf(byPeer0, t.peer), now)..]
    ensures (t.value in tokens && tokens[t.value] == t) <==>
            (t.value in tokens0 && tokens0[t.value] == t && !Expired(t, now))
  {
    var list := ListOf(byPeer0, t.peer);
    ExpiredCountMeaning(list, now);
    AgreeContains(tokens0, byPeer0, t);
    AgreeContains(tokens, byPeer, t);
  }

  lemma AgreeContains(tokens: map<string, Token>, byPeer: map<string, seq<Token>>, t: Token)
    requires Agree(tokens, byPeer)
    ensures (t.value in tokens && tokens[t.value] == t) <==> t in ListOf(byPeer, t.peer)
  {
  }

  /** The newest token is accepted until it expires. */
  lemma NewestAccepted(h: seq<Token>, ttl: int, clock: int, now: int)
    requires h != [] && WellFormed(h, ttl, clock)
    ensures Accepted(h, h[|h| - 1].value, now) <==> !Expired(h[|h| - 1], now)
  {
    var t := h[|h| - 1];
    NewestLatest(h);
    if Accepted(h, t.value, now) {
      var u :| u in h && u.value == t.value && u in LatestMints(h, u.peer) && !Expired(u, now);
      var i :| 0 <= i < |h| && h[i] == u;
      assert i == |h| - 1;
    }
  }

  lemma NewestLatest(h: seq<Token>)
    requires h != []
    ensures h[|h| - 1] in LatestMints(h, h[|h| - 1].peer)
  {
    var t := h[|h| - 1];
    var m := MintsOf(h, t.peer);
    assert m[|m| - 1] == t && Latest(m)[|Latest(m)| - 1] == t;
  }

  /** A token just minted is valid until it expires, whatever the ticker sweeps
      in between. */
  method MintThenValidate(s: TokenStore, who: string, now: int, random: Option<string>, swept: int, later: int)
    returns (r: MintResult, ok: bool)
    requires s.Valid() && s.clock <= now <= swept <= later
    requires random.Some? ==> forall t :: t in s.history ==> t.value != random.value
    modifies s
    ensures s.Valid() && s.clock <= later
    ensures r.Minted? ==> (ok <==> !Expired(r.token, later))
  {
    hide *;
    r := s.GenerateToken(who, now, random);
    s.DiscardExpired(swept);
    ok := false;
    if r.Minted? {
      ok := s.ValidateToken(r.token.value, later);
      s.Parts();
      NewestAccepted(s.history, s.tokenTTL, s.clock, later);
    }
  }
}
