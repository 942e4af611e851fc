/** Per-peer request rates and connection counts (internal/server/limit.go).
    The specification is the full history of admissions and the set of counted
    connections, neither of which the limiter keeps. */
module GuestLimiting {

  const LIMIT_WINDOW: int := 60_000_000_000  // nanoseconds
  const MAX_REQUESTS_PER_PEER: nat := 120
  const MAX_TOKEN_PUTS_PER_PEER: nat := 30
  const MAX_ENROLL_PER_PEER: nat := 6
  const MAX_CONNS_PER_PEER: nat := 16

  datatype Kind = Request | TokenPut | Enroll

  datatype LogKind = Rate(kind: Kind) | Connections

  datatype PeerBudget = PeerBudget(requests: seq<int>, tokens: seq<int>, enrolls: seq<int>, conns: nat,
                                   logged: map<LogKind, int>)

  datatype Conn = Conn(id: nat, peer: string)

  datatype ConnState = New | Active | Idle | Hijacked | Closed

  datatype Admission = Admission(peer: string, kind: Kind, at: int)

  function Limit(kind: Kind): nat {
    match kind
    case Request => MAX_REQUESTS_PER_PEER
    case TokenPut => MAX_TOKEN_PUTS_PER_PEER
    case Enroll => MAX_ENROLL_PER_PEER
  }

  // ----- the specification: histories of admissions

  /** How many of a peer's admissions of a kind lie in (after, upTo]. */
  function CountIn(h: seq<Admission>, peer: string, kind: Kind, after: int, upTo: int): nat {
    if h == [] then 0
    else
      var a := h[|h| - 1];
      CountIn(h[..|h| - 1], peer, kind, after, upTo)
      + if a.peer == peer && a.kind == kind && after < a.at <= upTo then 1 else 0
  }

  /** The test that decides about one more admission. */
  ghost predicate Admissible(h: seq<Admission>, peer: string, kind: Kind, now: int) {
    CountIn(h, peer, kind, now - LIMIT_WINDOW, now) < Limit(kind)
  }

  /** Every admission passed the test when it was made, and time moved forward. */
  ghost predicate Legit(h: seq<Admission>) {
    && (forall i :: 0 <= i < |h| ==> Admissible(h[..i], h[i].peer, h[i].kind, h[i].at))
    && (forall i, j :: 0 <= i <= j < |h| ==> h[i].at <= h[j].at)
  }

  lemma {:induction false} CountMonotone(h: seq<Admission>, peer: string, kind: Kind, a: int, b: int, c: int, d: int)
    requires c <= a
    requires b <= d || forall e :: e in h ==> e.at <= d
    ensures CountIn(h, peer, kind, a, b) <= CountIn(h, peer, kind, c, d)
  {
    if h != [] {
      var n := |h| - 1;
      assert forall e :: e in h[..n] ==> e in h;
      assert h[n] in h;
      CountMonotone(h[..n], peer, kind, a, b, c, d);
    }
  }

  lemma CountNone(peer: string, kind: Kind, after: int, upTo: int)
    ensures CountIn([], peer, kind, after, upTo) == 0
  {
  }

  lemma CountLast(h: seq<Admission>, peer: string, kind: Kind, after: int, upTo: int)
    requires h != []
    ensures var a := h[|h| - 1];
            CountIn(h, peer, kind, after, upTo)
              == CountIn(h[..|h| - 1], peer, kind, after, upTo)
                 + if a.peer == peer && a.kind == kind && after < a.at <= upTo then 1 else 0
  {
  }

  lemma LegitPrefix(h: seq<Admission>)
    requires Legit(h) && h != []
    ensures Legit(h[..|h| - 1])
    ensures CountIn(h[..|h| - 1], h[|h| - 1].peer, h[|h| - 1].kind, h[|h| - 1].at - LIMIT_WINDOW,
                    h[|h| - 1].at) < Limit(h[|h| - 1].kind)
    ensures forall e :: e in h[..|h| - 1] ==> e.at <= h[|h| - 1].at
  {
    hide CountIn, Admissible;
    LastAdmissible(h);
    var n := |h| - 1;
    forall i | 0 <= i < n ensures Admissible(h[..n][..i], h[..n][i].peer, h[..n][i].kind, h[..n][i].at) {
      assert h[..n][..i] == h[..i];
      assert Admissible(h[..i], h[i].peer, h[i].kind, h[i].at);
    }
  }

  lemma LastAdmissible(h: seq<Admission>)
    requires Legit(h) && h != []
    ensures CountIn(h[..|h| - 1], h[|h| - 1].peer, h[|h| - 1].kind, h[|h| - 1].at - LIMIT_WINDOW,
                    h[|h| - 1].at) < Limit(h[|h| - 1].kind)
  {
    hide CountIn;
    assert Admissible(h[..|h| - 1], h[|h| - 1].peer, h[|h| - 1].kind, h[|h| - 1].at);
  }

  /** No window of that length, wherever it starts, holds more than the limit. */
  lemma {:induction false} NoWindowExceeds(h: seq<Admission>, peer: string, kind: Kind, start: int)
    requires Legit(h)
    ensures CountIn(h, peer, kind, start, start + LIMIT_WINDOW) <= Limit(kind)
  {
    hide *;
    if h != [] {
      var n := |h| - 1;
      var a := h[n];
      LegitPrefix(h);
      CountLast(h, peer, kind, start, start + LIMIT_WINDOW);
      if a.peer == peer && a.kind == kind && start < a.at <= start + LIMIT_WINDOW {
        CountMonotone(h[..n], peer, kind, start, start + LIMIT_WINDOW, a.at - LIMIT_WINDOW, a.at);
      } else {
        NoWindowExceeds(h[..n], peer, kind, start);
      }
    } else {
      CountNone(peer, kind, start, start + LIMIT_WINDOW);
    }
  }

  // ----- pruned lists of times

  /** The times inside the window that ends now. */
  function Recent(times: seq<int>, now: int): seq<int> {
    if times == [] then []
    else
      var t := times[|times| - 1];
      Recent(times[..|times| - 1], now) + if t > now - LIMIT_WINDOW then [t] else []
  }

  lemma {:induction false} RecentTwice(times: seq<int>, earlier: int, now: int)
    requires earlier <= now
    ensures Recent(Recent(times, earlier), now) == Recent(times, now)
  {
    if times != [] {
      var n := |times| - 1;
      RecentTwice(times[..n], earlier, now);
      var kept := Recent(times[..n], earlier);
      if times[n] > earlier - LIMIT_WINDOW {
        assert (kept + [times[n]])[..|kept|] == kept;
      } else {
        assert Recent(times, earlier) == kept + [] == kept;
      }
    }
  }

  /** The times of a peer's admissions of a kind. */
  function Admitted(h: seq<Admission>, peer: string, kind: Kind): seq<int> {
    if h == [] then []
    else
      var a := h[|h| - 1];
      Admitted(h[..|h| - 1], peer, kind) + if a.peer == peer && a.kind == kind then [a.at] else []
  }

  lemma RecentAppend(times: seq<int>, t: int, now: int)
    ensures Recent(times + [t], now) == if t > now - LIMIT_WINDOW then Recent(times, now) + [t] else Recent(times, now)
  {
    assert (times + [t])[..|times|] == times;
  }

  lemma AdmittedAppend(h: seq<Admission>, a: Admission, peer: string, kind: Kind)
    ensures Admitted(h + [a], peer, kind)
            == if a.peer == peer && a.kind == kind then Admitted(h, peer, kind) + [a.at] else Admitted(h, peer, kind)
  {
    assert (h + [a])[..|h|] == h;
  }

  lemma {:induction false} RecentCount(h: seq<Admission>, peer: string, kind: Kind, now: int)
    requires forall a :: a in h ==> a.at <= now
    ensures |Recent(Admitted(h, peer, kind), now)| == CountIn(h, peer, kind, now - LIMIT_WINDOW, now)
  {
    if h != [] {
      hide Admitted;
      var n := |h| - 1;
      assert h == h[..n] + [h[n]];
      assert h[n] in h && forall e :: e in h[..n] ==> e in h;
      RecentCount(h[..n], peer, kind, now);
      AdmittedAppend(h[..n], h[n], peer, kind);
      RecentAppend(Admitted(h[..n], peer, kind), h[n].at, now);
    } else {
      assert Admitted(h, peer, kind) == [];
    }
  }

  function TimesOf(peers: map<string, PeerBudget>, peer: string, kind: Kind): seq<int> {
    if peer !in peers then []
    else match kind
      case Request => peers[peer].requests
      case TokenPut => peers[peer].tokens
      case Enroll => peers[peer].enrolls
  }

  function ConnsOf(peers: map<string, PeerBudget>, peer: string): nat {
    if peer in peers then peers[peer].conns else 0
  }

  /** From the clock on, the list and the history hold the same recent times. */
  ghost predicate Follows(times: seq<int>, h: seq<Admission>, peer: string, kind: Kind, clock: int) {
    Recent(times, clock) == Recent(Admitted(h, peer, kind), clock)
  }

  ghost predicate Sound(peers: map<string, PeerBudget>, h: seq<Admission>, clock: int) {
    && Legit(h)
    && (forall a :: a in h ==> a.at <= clock)
    && (forall p, k :: Follows(TimesOf(peers, p, k), h, p, k, clock))
  }

  /** The counted connections of a peer. */
  ghost function Of(counted: set<Conn>, peer: string): set<Conn> {
    set c | c in counted && c.peer == peer
  }

  ghost predicate Counts(peers: map<string, PeerBudget>, counted: set<Conn>) {
    forall p :: ConnsOf(peers, p) == |Of(counted, p)| <= MAX_CONNS_PER_PEER
  }

  lemma FollowsLater(times: seq<int>, h: seq<Admission>, peer: string, kind: Kind, clock: int, now: int)
    requires Follows(times, h, peer, kind, clock) && clock <= now
    ensures Follows(times, h, peer, kind, now)
    ensures Follows(Recent(times, now), h, peer, kind, now)
  {
    RecentTwice(times, clock, now);
    RecentTwice(times, now, now);
    RecentTwice(Admitted(h, peer, kind), clock, now);
  }

  /** Lists may be pruned at any time, and budgets without recent times dropped. */
  lemma PrunedSound(before: map<string, PeerBudget>, after: map<string, PeerBudget>, h: seq<Admission>, clock: int,
                    now: int)
    requires Sound(before, h, clock) && clock <= now
    requires forall p, k ::
               || TimesOf(after, p, k) == TimesOf(before, p, k)
               || TimesOf(after, p, k) == Recent(TimesOf(before, p, k), now)
    ensures Sound(after, h, now)
  {
    hide Legit, Follows, TimesOf;
    forall p, k ensures Follows(TimesOf(after, p, k), h, p, k, now) {
      assert Follows(TimesOf(before, p, k), h, p, k, clock);
      FollowsLater(TimesOf(before, p, k), h, p, k, clock, now);
    }
  }

  /** The list pruned now has as many times as the test counts. */
  lemma PrunedCount(peers: map<string, PeerBudget>, h: seq<Admission>, clock: int, peer: string, kind: Kind, now: int)
    requires Sound(peers, h, clock) && clock <= now
    ensures |Recent(TimesOf(peers, peer, kind), now)| < Limit(kind) <==> Admissible(h, peer, kind, now)
  {
    hide Legit, TimesOf, Recent, CountIn;
    assert Follows(TimesOf(peers, peer, kind), h, peer, kind, clock);
    FollowsLater(TimesOf(peers, peer, kind), h, peer, kind, clock, now);
    RecentCount(h, peer, kind, now);
  }

  lemma LegitMore(h: seq<Admission>, a: Admission)
    requires Legit(h) && Admissible(h, a.peer, a.kind, a.at)
    requires forall e :: e in h ==> e.at <= a.at
    ensures Legit(h + [a])
  {
    var g := h + [a];
    forall i | 0 <= i < |g| ensures Admissible(g[..i], g[i].peer, g[i].kind, g[i].at) {
      if i < |h| {
        assert g[..i] == h[..i] && Admissible(h[..i], h[i].peer, h[i].kind, h[i].at);
      } else {
        assert g[..i] == h;
      }
    }
    forall i, j | 0 <= i <= j < |g| ensures g[i].at <= g[j].at {
      assert i < |h| ==> h[i] in h;
    }
  }

  /** One admission, appended to the pruned list. */
  lemma AdmittedSound(before: map<string, PeerBudget>, after: map<string, PeerBudget>, h: seq<Admission>, clock: int,
                      a: Admission)
    requires Sound(before, h, clock) && clock <= a.at && Admissible(h, a.peer, a.kind, a.at)
    requires TimesOf(after, a.peer, a.kind) == Recent(TimesOf(before, a.peer, a.kind), a.at) + [a.at]
    requires forall p, k :: (p, k) != (a.peer, a.kind) ==> TimesOf(after, p, k) == TimesOf(before, p, k)
    ensures Sound(after, h + [a], a.at)
  {
    hide Legit, TimesOf, Recent, Admitted, Admissible;
    LegitMore(h, a);
    forall p, k ensures Follows(TimesOf(after, p, k), h + [a], p, k, a.at) {
      var times := TimesOf(before, p, k);
      assert Follows(times, h, p, k, clock);
      FollowsLater(times, h, p, k, clock, a.at);
      AdmittedAppend(h, a, p, k);
      RecentAppend(Recent(times, a.at), a.at, a.at);
      RecentAppend(Admitted(h, p, k), a.at, a.at);
      assert (p, k) != (a.peer, a.kind) || (p == a.peer && k == a.kind);
    }
  }

  // ----- counted connections

  lemma OneMoreConn(counted: set<Conn>, c: Conn)
    requires c !in counted
    ensures |Of(counted + {c}, c.peer)| == |Of(counted, c.peer)| + 1
    ensures forall p :: p != c.peer ==> Of(counted + {c}, p) == Of(counted, p)
  {
    assert Of(counted + {c}, c.peer) == Of(counted, c.peer) + {c};
  }

  lemma OneLessConn(counted: set<Conn>, c: Conn)
    requires c in counted
    ensures |Of(counted - {c}, c.peer)| == |Of(counted, c.peer)| - 1
    ensures forall p :: p != c.peer ==> Of(counted - {c}, p) == Of(counted, p)
  {
    assert Of(counted - {c}, c.peer) == Of(counted, c.peer) - {c};
    assert c in Of(counted, c.peer);
  }

  /** Nothing about rates or connections changed. */
  ghost predicate SameBudgets(before: map<string, PeerBudget>, after: map<string, PeerBudget>) {
    && (forall p, k :: TimesOf(after, p, k) == TimesOf(before, p, k))
    && (forall p :: ConnsOf(after, p) == ConnsOf(before, p))
  }

  lemma SameIsSound(before: map<string, PeerBudget>, after: map<string, PeerBudget>, h: seq<Admission>, clock: int,
                    counted: set<Conn>)
    requires SameBudgets(before, after)
    ensures Sound(before, h, clock) ==> Sound(after, h, clock)
    ensures Counts(before, counted) ==> Counts(after, counted)
  {
    hide TimesOf, ConnsOf, Legit, Follows, Of;
  }

  // ----- the limiter

  const EMPTY_BUDGET: PeerBudget := PeerBudget([], [], [], 0, map[])

  function BudgetOf(peers: map<string, PeerBudget>, peer: string): PeerBudget {
    if peer in peers then peers[peer] else EMPTY_BUDGET
  }

  /** A list moved into place within the slice still being read. */
  lemma MoveUp(list: seq<int>, times: seq<int>, kept: seq<int>, n: nat, i: nat)
    requires |list| == |times| && n <= i < |times|
    requires list[..n] == kept && list[i..] == times[i..]
    ensures list[n := times[i]][..n + 1] == kept + [times[i]] && list[n := times[i]][i + 1..] == times[i + 1..]
  {
    assert list[n := times[i]][i + 1..] == list[i..][1..];
    assert times[i + 1..] == times[i..][1..];
  }

  /** Keeps the times inside the window, in the slice it reads. */
  method Prune(times: seq<int>, now: int) returns (kept: seq<int>)
    ensures kept == Recent(times, now)
  {
    var cut := now - LIMIT_WINDOW;
    var list, n := times, 0;
    for i := 0 to |times|
      invariant |list| == |times| && n <= i
      invariant list[..n] == Recent(times[..i], now) && list[i..] == times[i..]
    {
      var t := list[i];
      assert t == list[i..][0] == times[i];
      assert times[..i + 1] == times[..i] + [t];
      RecentAppend(times[..i], t, now);
      if t > cut {
        MoveUp(list, times, list[..n], n, i);
        list := list[n := t];
        n := n + 1;
      } else {
        assert list[i + 1..] == list[i..][1..];
      }
    }
    assert times[..|times|] == times;
    kept := list[..n];
  }

  /** Whether a rate-limit line was logged inside the window. */
  method FreshLog(logged: map<LogKind, int>, cut: int) returns (found: bool)
    ensures found <==> exists k :: k in logged && logged[k] > cut
  {
    var kinds := logged.Keys;
    while kinds != {}
      invariant kinds <= logged.Keys
      invariant forall k :: k in logged && k !in kinds ==> logged[k] <= cut
    {
      var k :| k in kinds;
      if logged[k] > cut {
        return true;
      }
      kinds := kinds - {k};
    }
    return false;
  }

  /** After a call of one kind: the pruned list, with now appended if it was
      admitted. */
  ghost predicate Counted(before: map<string, PeerBudget>, after: map<string, PeerBudget>, peer: string, kind: Kind,
                          now: int, ok: bool)
  {
    && TimesOf(after, peer, kind) == Recent(TimesOf(before, peer, kind), now) + (if ok then [now] else [])
    && (forall p, k :: (p, k) != (peer, kind) ==> TimesOf(after, p, k) == TimesOf(before, p, k))
    && (forall p :: ConnsOf(after, p) == ConnsOf(before, p))
    && (ok <==> |Recent(TimesOf(before, peer, kind), now)| < Limit(kind))
  }

  lemma CountedSame(before: map<string, PeerBudget>, middle: map<string, PeerBudget>, after: map<string, PeerBudget>,
                    peer: string, kind: Kind, now: int, ok: bool)
    requires Counted(before, middle, peer, kind, now, ok) && SameBudgets(middle, after)
    ensures Counted(before, after, peer, kind, now, ok)
  {
    hide TimesOf, ConnsOf, Recent, Limit;
  }

  lemma CountedSound(before: map<string, PeerBudget>, after: map<string, PeerBudget>, h: seq<Admission>, clock: int,
                     counted: set<Conn>, peer: string, kind: Kind, now: int, ok: bool)
    requires Sound(before, h, clock) && clock <= now && Counts(before, counted)
    requires Counted(before, after, peer, kind, now, ok)
    ensures ok <==> Admissible(h, peer, kind, now)
    ensures Sound(after, if ok then h + [Admission(peer, kind, now)] else h, now)
    ensures Counts(after, counted)
  {
    hide TimesOf, ConnsOf, Recent, Limit, Of, Sound;
    PrunedCount(before, h, clock, peer, kind, now);
    if ok {
      AdmittedSound(before, after, h, clock, Admission(peer, kind, now));
    } else {
      assert forall p, k :: (p, k) == (peer, kind) ==> p == peer && k == kind;
      assert Recent(TimesOf(before, peer, kind), now) + [] == Recent(TimesOf(before, peer, kind), now);
      PrunedSound(before, after, h, clock, now);
    }
  }

  lemma RequestsCounted(before: map<string, PeerBudget>, after: map<string, PeerBudget>, peer: string, now: int,
                        kept: seq<int>, ok: bool)
    requires kept == Recent(BudgetOf(before, peer).requests, now) && (ok <==> |kept| < MAX_REQUESTS_PER_PEER)
    requires after == before[peer := BudgetOf(before, peer).(requests := if ok then kept + [now] else kept)]
    ensures Counted(before, after, peer, Request, now, ok)
  {
    hide Recent;
    RecentOfNone(now);
  }

  lemma TokensCounted(before: map<string, PeerBudget>, after: map<string, PeerBudget>, peer: string, now: int,
                      kept: seq<int>, ok: bool)
    requires kept == Recent(BudgetOf(before, peer).tokens, now) && (ok <==> |kept| < MAX_TOKEN_PUTS_PER_PEER)
    requires after == before[peer := BudgetOf(before, peer).(tokens := if ok then kept + [now] else kept)]
    ensures Counted(before, after, peer, TokenPut, now, ok)
  {
    hide Recent;
    RecentOfNone(now);
  }

  lemma EnrollsCounted(before: map<string, PeerBudget>, after: map<string, PeerBudget>, peer: string, now: int,
                       kept: seq<int>, ok: bool)
    requires kept == Recent(BudgetOf(before, peer).enrolls, now) && (ok <==> |kept| < MAX_ENROLL_PER_PEER)
    requires after == before[peer := BudgetOf(before, peer).(enrolls := if ok then kept + [now] else kept)]
    ensures Counted(before, after, peer, Enroll, now, ok)
  {
    hide Recent;
    RecentOfNone(now);
  }

  lemma RecentOfNone(now: int)
    ensures Recent([], now) == []
  {
  }

  // ----- scrubbing

  /** Nothing inside the window and no open connection: scrubbing drops it. */
  ghost predicate IdleBudget(p: PeerBudget, now: int) {
    && p.conns == 0 && Recent(p.requests, now) == [] && Recent(p.tokens, now) == [] && Recent(p.enrolls, now) == []
    && forall k :: k in p.logged ==> p.logged[k] <= now - LIMIT_WINDOW
  }

  ghost function PrunedBudget(p: PeerBudget, now: int): PeerBudget {
    p.(requests := Recent(p.requests, now), tokens := Recent(p.tokens, now), enrolls := Recent(p.enrolls, now))
  }

  /** Scrubbing has these keys to go. */
  ghost predicate Scrubbed(before: map<string, PeerBudget>, peers: map<string, PeerBudget>, keys: set<string>, now: int)
  {
    && (forall k :: k in keys ==> k in before && k in peers && peers[k] == before[k])
    && (forall k :: k in peers ==> k in before)
    && (forall k :: k in before && k !in keys ==>
          (k in peers <==> !IdleBudget(before[k], now)) && (k in peers ==> peers[k] == PrunedBudget(before[k], now)))
  }

  lemma NothingScrubbed(before: map<string, PeerBudget>, now: int)
    ensures Scrubbed(before, before, before.Keys, now)
  {
  }

  lemma ScrubbedKey(before: map<string, PeerBudget>, peers: map<string, PeerBudget>, keys: set<string>, now: int,
                    key: string)
    requires Scrubbed(before, peers, keys, now) && key in keys
    ensures key in before && key in peers && peers[key] == before[key]
  {
  }

  lemma ScrubbedOne(before: map<string, PeerBudget>, peers: map<string, PeerBudget>, keys: set<string>, now: int,
                    key: string, pruned: PeerBudget, idle: bool)
    requires Scrubbed(before, peers, keys, now) && key in keys && key in peers
    requires pruned == peers[key].(requests := Recent(peers[key].requests, now),
                                   tokens := Recent(peers[key].tokens, now),
                                   enrolls := Recent(peers[key].enrolls, now))
    requires idle <==> pruned.conns == 0 && |pruned.requests| == 0 && |pruned.tokens| == 0 && |pruned.enrolls| == 0
                       && !exists k :: k in pruned.logged && pruned.logged[k] > now - LIMIT_WINDOW
    ensures Scrubbed(before, if idle then peers[key := pruned] - {key} else peers[key := pruned], keys - {key}, now)
  {
    hide Recent;
    assert idle <==> IdleBudget(before[key], now);
  }

  lemma ScrubbedSound(before: map<string, PeerBudget>, after: map<string, PeerBudget>, h: seq<Admission>, clock: int,
                      now: int, counted: set<Conn>)
    requires Scrubbed(before, after, {}, now) && clock <= now
    requires Sound(before, h, clock) && Counts(before, counted)
    ensures Sound(after, h, now) && Counts(after, counted)
    ensures forall p :: ConnsOf(after, p) == ConnsOf(before, p)
    ensures forall p :: p in after <==> p in before && !IdleBudget(before[p], now)
  {
    hide Recent, Sound, Of;
    RecentOfNone(now);
    forall p, k
      ensures TimesOf(after, p, k) == TimesOf(before, p, k)
              || TimesOf(after, p, k) == Recent(TimesOf(before, p, k), now)
    {
    }
    PrunedSound(before, after, h, clock, now);
  }

  // ----- slots

  lemma CountsPeer(peers: map<string, PeerBudget>, counted: set<Conn>, peer: string)
    requires Counts(peers, counted) && peer in peers
    ensures peers[peer].conns == |Of(counted, peer)| <= MAX_CONNS_PER_PEER
  {
    assert ConnsOf(peers, peer) == |Of(counted, peer)|;
  }

  lemma ConnsOnly(before: map<string, PeerBudget>, peer: string, n: nat, h: seq<Admission>, clock: int)
    requires Sound(before, h, clock) && peer in before
    ensures Sound(before[peer := before[peer].(conns := n)], h, clock)
  {
    hide Legit, Follows;
    var after := before[peer := before[peer].(conns := n)];
    forall p, k ensures Follows(TimesOf(after, p, k), h, p, k, clock) {
      assert TimesOf(after, p, k) == TimesOf(before, p, k);
      assert Follows(TimesOf(before, p, k), h, p, k, clock);
    }
  }

  lemma ConnCounted(before: map<string, PeerBudget>, counted: set<Conn>, c: Conn, h: seq<Admission>, clock: int)
    requires Sound(before, h, clock) && Counts(before, counted) && c.peer in before && c !in counted
    requires before[c.peer].conns < MAX_CONNS_PER_PEER
    ensures var after := before[c.peer := before[c.peer].(conns := before[c.peer].conns + 1)];
            Sound(after, h, clock) && Counts(after, counted + {c})
  {
    hide Sound, Of;
    ConnsOnly(before, c.peer, before[c.peer].conns + 1, h, clock);
    OneMoreConn(counted, c);
  }

  lemma ConnReleased(before: map<string, PeerBudget>, counted: set<Conn>, c: Conn, h: seq<Admission>, clock: int)
    requires Sound(before, h, clock) && Counts(before, counted) && c.peer in before && c in counted
    ensures before[c.peer].conns > 0
    ensures var after := before[c.peer := before[c.peer].(conns := before[c.peer].conns - 1)];
            Sound(after, h, clock) && Counts(after, counted - {c})
  {
    hide Sound, Of;
    OneLessConn(counted, c);
    assert ConnsOf(before, c.peer) == |Of(counted, c.peer)|;
    ConnsOnly(before, c.peer, before[c.peer].conns - 1, h, clock);
  }

  class GuestLimiter {
    var peers: map<string, PeerBudget>
    var overCap: set<Conn>
    ghost var history: seq<Admission>  // every admission, oldest first
    ghost var clock: int               // the latest time passed in under the lock
    ghost var counted: set<Conn>       // connections that hold a slot

    ghost predicate Valid()
      reads this
    {
      && Sound(peers, history, clock)
      && Counts(peers, counted)
      && counted !! overCap
    }

    constructor (ghost now: int)
      ensures Valid() && history == [] && counted == {} && overCap == {} && clock == now
    {
      peers, overCap := map[], {};
      history, counted, clock := [], {}, now;
    }

    /** The budget of a peer, created when it is missing. */
    method Peer(key: string) returns (p: PeerBudget)
      modifies this`peers
      ensures key in peers && peers[key] == p == BudgetOf(old(peers), key) && peers == old(peers)[key := p]
      ensures SameBudgets(old(peers), peers)
    {
      if key !in peers {
        peers := peers[key := EMPTY_BUDGET];
      }
      p := peers[key];
    }

    /** Notes that a limit was hit, at most once per window. */
    method Trip(peer: string, kind: LogKind, wall: int)
      modifies this`peers
      ensures SameBudgets(old(peers), peers)
    {
      var p := Peer(peer);
      if kind in p.logged && wall - p.logged[kind] < LIMIT_WINDOW {
        return;
      }
      peers := peers[peer := p.(logged := p.logged[kind := wall])];
    }

    method AllowRequest(peer: string, now: int, wall: int) returns (ok: bool)
      requires Valid() && clock <= now
      modifies this`peers, this`history, this`clock
      ensures Valid() && clock == now
      ensures ok <==> Admissible(old(history), peer, Request, now)
      ensures history == if ok then old(history) + [Admission(peer, Request, now)] else old(history)
    {
      hide *;
      Parts();
      ghost var before := peers;
      var p := Peer(peer);
      var kept := Prune(p.requests, now);
      peers := peers[peer := p.(requests := kept)];
      ok := |kept| < MAX_REQUESTS_PER_PEER;
      if !ok {
        RequestsCounted(before, peers, peer, now, kept, false);
        ghost var middle := peers;
        Trip(peer, Rate(Request), wall);
        CountedSame(before, middle, peers, peer, Request, now, false);
        CountedSound(before, peers, history, clock, counted, peer, Request, now, false);
        clock := now;
        Whole();
        return;
      }
      peers := peers[peer := peers[peer].(requests := kept + [now])];
      RequestsCounted(before, peers, peer, now, kept, true);
      CountedSound(before, peers, history, clock, counted, peer, Request, now, true);
      history, clock := history + [Admission(peer, Request, now)], now;
      Whole();
    }

    method AllowToken(peer: string, now: int, wall: int) returns (ok: bool)
      requires Valid() && clock <= now
      modifies this`peers, this`history, this`clock
      ensures Valid() && clock == now
      ensures ok <==> Admissible(old(history), peer, TokenPut, now)
      ensures history == if ok then old(history) + [Admission(peer, TokenPut, now)] else old(history)
    {
      hide *;
      Parts();
      ghost var before := peers;
      var p := Peer(peer);
      var kept := Prune(p.tokens, now);
      peers := peers[peer := p.(tokens := kept)];
      ok := |kept| < MAX_TOKEN_PUTS_PER_PEER;
      if !ok {
        TokensCounted(before, peers, peer, now, kept, false);
        ghost var middle := peers;
        Trip(peer, Rate(TokenPut), wall);
        CountedSame(before, middle, peers, peer, TokenPut, now, false);
        CountedSound(before, peers, history, clock, counted, peer, TokenPut, now, false);
        clock := now;
        Whole();
        return;
      }
      peers := peers[peer := peers[peer].(tokens := kept + [now])];
      TokensCounted(before, peers, peer, now, kept, true);
      CountedSound(before, peers, history, clock, counted, peer, TokenPut, now, true);
      history, clock := history + [Admission(peer, TokenPut, now)], now;
      Whole();
    }

    method AllowEnroll(peer: string, now: int, wall: int) returns (ok: bool)
      requires Valid() && clock <= now
      modifies this`peers, this`history, this`clock
      ensures Valid() && clock == now
      ensures ok <==> Admissible(old(history), peer, Enroll, now)
      ensures history == if ok then old(history) + [Admission(peer, Enroll, now)] else old(history)
    {
      hide *;
      Parts();
      ghost var before := peers;
      var p := Peer(peer);
      var kept := Prune(p.enrolls, now);
      peers := peers[peer := p.(enrolls := kept)];
      ok := |kept| < MAX_ENROLL_PER_PEER;
      if !ok {
        EnrollsCounted(before, peers, peer, now, kept, false);
        ghost var middle := peers;
        Trip(peer, Rate(Enroll), wall);
        CountedSame(before, middle, peers, peer, Enroll, now, false);
        CountedSound(before, peers, history, clock, counted, peer, Enroll, now, false);
        clock := now;
        Whole();
        return;
      }
      peers := peers[peer := peers[peer].(enrolls := kept + [now])];
      EnrollsCounted(before, peers, peer, now, kept, true);
      CountedSound(before, peers, history, clock, counted, peer, Enroll, now, true);
      history, clock := history + [Admission(peer, Enroll, now)], now;
      Whole();
    }

    /** Drops the budgets of idle peers. */
    method ScrubIdlePeers(now: int)
      requires Valid() && clock <= now
      modifies this`peers, this`clock
      ensures Valid() && clock == now
      ensures forall p :: ConnsOf(peers, p) == ConnsOf(old(peers), p)
      ensures forall p :: p in peers <==> p in old(peers) && !IdleBudget(old(peers)[p], now)
    {
      hide *;
      Parts();
      ghost var before := peers;
      var keys := peers.Keys;
      NothingScrubbed(before, now);
      while keys != {}
        invariant Scrubbed(before, peers, keys, now) && clock == old(clock)
      {
        var key :| key in keys;
        ScrubbedKey(before, peers, keys, now, key);
        var p := peers[key];
        var requests := Prune(p.requests, now);
        var tokens := Prune(p.tokens, now);
        var enrolls := Prune(p.enrolls, now);
        var pruned := p.(requests := requests, tokens := tokens, enrolls := enrolls);
        var idle := false;
        if p.conns == 0 && |requests| == 0 && |tokens| == 0 && |enrolls| == 0 {
          var freshLog := FreshLog(p.logged, now - LIMIT_WINDOW);
          idle := !freshLog;
        }
        ScrubbedOne(before, peers, keys, now, key, pruned, idle);
        peers := if idle then peers[key := pruned] - {key} else peers[key := pruned];
        keys := keys - {key};
      }
      ScrubbedSound(before, peers, history, clock, now, counted);
      clock := now;
      Whole();
    }

    /** A connection changed state; closeOver says it is over the cap and closed.
        net/http reports New once, first, and one terminal state at most. */
    method TrackConnState(c: Conn, state: ConnState, wall: int) returns (closeOver: bool)
      requires Valid()
      requires state.New? ==> c !in counted && c !in overCap
      requires state.Closed? || state.Hijacked? ==> c in counted || c in overCap
      modifies this`peers, this`overCap, this`counted
      ensures Valid()
      ensures closeOver <==> state.New? && |Of(old(counted), c.peer)| == MAX_CONNS_PER_PEER
      ensures counted ==
                if state.New? && !closeOver then old(counted) + {c}
                else if state.Closed? || state.Hijacked? then old(counted) - {c}
                else old(counted)
      ensures overCap ==
                if closeOver then old(overCap) + {c}
                else if state.Closed? || state.Hijacked? then old(overCap) - {c}
                else old(overCap)
    {
      hide *;
      Parts();
      ghost var before := peers;
      var p := Peer(c.peer);
      SameIsSound(before, peers, history, clock, counted);
      Whole();
      CountsPeer(peers, counted, c.peer);
      closeOver := false;
      match state {
        case New =>
          if p.conns >= MAX_CONNS_PER_PEER {
            ghost var middle := peers;
            Trip(c.peer, Connections, wall);
            SameIsSound(middle, peers, history, clock, counted);
            overCap := overCap + {c};
            closeOver := true;
            Whole();
          } else {
            ConnCounted(peers, counted, c, history, clock);
            peers := peers[c.peer := p.(conns := p.conns + 1)];
            counted := counted + {c};
            Whole();
          }
        case Hijacked => Release(c);
        case Closed => Release(c);
        case Active =>
        case Idle =>
      }
    }

    /** The terminal state of a connection. */
    method Release(c: Conn)
      requires Valid() && c.peer in peers && (c in counted || c in overCap)
      modifies this`peers, this`overCap, this`counted
      ensures Valid() && counted == old(counted) - {c} && overCap == old(overCap) - {c}
    {
      hide *;
      Parts();
      if c in overCap {
        overCap := overCap - {c};
        assert counted - {c} == counted;
        Whole();
        return;
      }
      var p := peers[c.peer];
      ConnReleased(peers, counted, c, history, clock);
      if p.conns > 0 {
        peers := peers[c.peer := p.(conns := p.conns - 1)];
      }
      counted := counted - {c};
      assert overCap - {c} == overCap;
      Whole();
    }

    lemma Parts()
      requires Valid()
      ensures Sound(peers, history, clock) && Counts(peers, counted) && counted !! overCap
    {
    }

    lemma Whole()
      requires Sound(peers, history, clock) && Counts(peers, counted) && counted !! overCap
      ensures Valid()
    {
    }
  }
}
