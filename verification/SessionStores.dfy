/** The in-memory enroll sessions (internal/devid/session.go): put once, taken
    once, gone after their time. The specification is every session ever put. */
module SessionStores {
  import opened Options

  const DEFAULT_TTL: int := 300_000_000_000  // five minutes in nanoseconds

  datatype Session = Session(id: string, vmid: string, fp: string, nonce: string, created: int)

  predicate Expired(s: Session, ttl: int, now: int) {
    now - s.created > ttl
  }

  /** The sessions without those that have expired. */
  function Unexpired(sessions: map<string, Session>, ttl: int, now: int): map<string, Session> {
    map id | id in sessions && !Expired(sessions[id], ttl, now) :: sessions[id]
  }

  /** What may be taken: put, not taken before, and within its time. */
  ghost predicate Takeable(puts: map<string, Session>, taken: set<string>, ttl: int, id: string, now: int) {
    id in puts && id !in taken && !Expired(puts[id], ttl, now)
  }

  class SessionStore {
    const ttl: int
    var sessions: map<string, Session>
    ghost var puts: map<string, Session>  // every session ever put
    ghost var taken: set<string>          // the IDs handed out
    ghost var clock: int                  // the latest time read under the lock

    /** A session is in the store, was taken, or has expired. */
    ghost predicate Valid()
      reads this
    {
      && (forall id :: id in sessions ==> id in puts && sessions[id] == puts[id] && id !in taken)
      && (forall id :: id in puts && id !in sessions && id !in taken ==> Expired(puts[id], ttl, clock))
      && (forall id :: id in taken ==> id in puts)
      && (forall id :: id in puts ==> puts[id].id == id)
    }

    constructor (ttl: int, ghost now: int)
      ensures Valid() && puts == map[] && taken == {} && clock == now
      ensures this.ttl == if ttl <= 0 then DEFAULT_TTL else ttl
    {
      this.ttl := if ttl <= 0 then DEFAULT_TTL else ttl;
      sessions, puts, taken, clock := map[], map[], {}, now;
    }

    /** Stores a session; random is its fresh ID, None when there is none. */
    method Put(random: Option<string>, vmid: string, fp: string, nonce: string, now: int) returns (r: Option<string>)
      requires Valid() && clock <= now
      requires random.Some? ==> random.value !in puts
      modifies this
      ensures Valid() && r == random && taken == old(taken) && clock == if r.Some? then now else old(clock)
      ensures puts == if r.Some? then old(puts)[r.value := Session(r.value, vmid, fp, nonce, now)] else old(puts)
    {
      r := random;
      if random.None? {
        return;
      }
      Purge(now);
      var s := Session(random.value, vmid, fp, nonce, now);
      sessions := sessions[random.value := s];
      puts := puts[random.value := s];
    }

    /** Hands a session out, once: exactly if it was put, was not handed out
        before, and its time is not over. */
    method Take(id: string, now: int) returns (r: Option<Session>)
      requires Valid() && clock <= now
      modifies this
      ensures Valid() && puts == old(puts) && clock == now
      ensures r.Some? <==> Takeable(puts, old(taken), ttl, id, now)
      ensures r.Some? ==> r.value == puts[id]
      ensures taken == if r.Some? then old(taken) + {id} else old(taken)
    {
      Purge(now);
      if id !in sessions {
        return None;
      }
      r := Some(sessions[id]);
      sessions := sessions - {id};
      taken := taken + {id};
    }

    /** Drops the sessions whose time is over. */
    method Purge(now: int)
      requires Valid() && clock <= now
      modifies this`sessions, this`clock
      ensures Valid() && clock == now
      ensures sessions == Unexpired(old(sessions), ttl, now)
    {
      ghost var before := sessions;
      var ids := sessions.Keys;
      while ids != {}
        invariant ids <= before.Keys && ids <= sessions.Keys
        invariant forall id :: id in sessions <==> id in before && (id in ids || !Expired(before[id], ttl, now))
        invariant forall id :: id in sessions ==> sessions[id] == before[id]
        invariant clock == old(clock)
        decreases |ids|
      {
        var id :| id in ids;
        ids := ids - {id};
        if Expired(sessions[id], ttl, now) {
          sessions := sessions - {id};
        }
      }
      clock := now;
    }
  }

  /** A session that was handed out is not handed out again, then or later. */
  method TakeTwice(s: SessionStore, id: string, now: int, later: int)
    returns (first: Option<Session>, second: Option<Session>)
    requires s.Valid() && s.clock <= now <= later
    modifies s
    ensures s.Valid() && s.clock == later
    ensures second.None?
  {
    first := s.Take(id, now);
    second := s.Take(id, later);
  }
}
