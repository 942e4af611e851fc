/** Keys, signing requests and signatures (internal/devid: keys, csr, sign). */
module GuestKeys {
  import opened Options
  import opened GuestTpm

  function Handles(key: Option<Key>): set<nat> {
    if key.Some? && key.value.handle != 0 then {key.value.handle} else {}
  }

  /** Flushes a handle if it looks transient. */
  method FlushTransient(t: Tpm, h: nat)
    requires t.Valid() && (h == 0 || Transient(h))
    modifies t`held, t`stuck, t`resist
    ensures t.Valid()
    ensures if h in old(t.held) && h != 0 then Flushed(old(t.S()), t.S(), h) else t.S() == old(t.S())
  {
    if h == 0 {
      return;
    }
    if Persistent(h) {
      return;
    }
    t.FlushContext(h);
  }

  /** A primary key, derived afresh: the EK, or the storage root key. */
  method CreatePrimaryKey(t: Tpm) returns (key: Option<Key>)
    requires t.Valid()
    modifies t`held, t`stuck, t`resist, t`high, t`peak
    ensures t.Valid() && Over(old(t.S()), t.S(), Handles(key), 1)
    ensures key.Some? ==> Transient(key.value.handle) && t.stuck == old(t.stuck) && t.resist == old(t.resist)
    ensures old(t.Willing()) ==> key.Some?
  {
    ghost var s0 := t.S();
    OverNothing(s0);
    var ok, h, pubBlob := t.CreatePrimary();
    if !ok {
      OverMore(s0, t.S(), {}, 0, 1);
      return None;
    }
    ghost var s1 := t.S();
    ThenCame(s0, s0, s1, {}, 0, h);
    var pub := t.decode(pubBlob);
    if pub.None? {
      t.FlushContext(h);
      ThenFlushed(s0, s1, t.S(), {h}, 1, h);
      return None;
    }
    return Some(Key(h, pub.value, pubBlob, ""));
  }

  /** A loaded key whose blobs the TPM made. */
  ghost predicate IsOwn(pairs: set<(string, string)>, decode: string -> Option<Public>, key: Key) {
    Transient(key.handle) && (key.pubBlob, key.privBlob) in pairs && decode(key.pubBlob) == Some(key.pub)
  }

  /** A key created under a parent and loaded. */
  method CreateLoadedKey(t: Tpm, parent: nat) returns (key: Option<Key>)
    requires t.Valid() && parent in t.held
    modifies t`held, t`high, t`peak, t`pairs
    ensures t.Valid() && Over(old(t.S()), t.S(), Handles(key), 1) && old(t.pairs) <= t.pairs
    ensures key.Some? ==> IsOwn(t.pairs, t.decode, key.value)
    ensures old(t.Willing()) ==> key.Some?
  {
    ghost var s0 := t.S();
    OverNothing(s0);
    OverMore(s0, s0, {}, 0, 1);
    var ok, privBlob, pubBlob := t.CreateKey(parent);
    if !ok {
      return None;
    }
    var pub := t.decode(pubBlob);
    if pub.None? {
      return None;
    }
    var a := t.LoadPair(parent, pubBlob, privBlob);
    if !a.Answer? {
      return None;
    }
    ThenCame(s0, s0, t.S(), {}, 0, a.handle);
    return Some(Key(a.handle, pub.value, pubBlob, privBlob));
  }

  /** A child of a storage root key that is derived and flushed around it. */
  method CreateUnderSRK(t: Tpm) returns (key: Option<Key>)
    requires t.Valid()
    modifies t`held, t`stuck, t`resist, t`high, t`peak, t`pairs
    ensures t.Valid() && Over(old(t.S()), t.S(), Handles(key), 2) && old(t.pairs) <= t.pairs
    ensures key.Some? ==> IsOwn(t.pairs, t.decode, key.value) && t.peak >= |old(t.held)| + |old(t.stuck)| + 2
    ensures old(t.Roomy(2)) ==> key.Some? && Resisted(old(t.S()), t.S(), old(t.resist), t.resist)
  {
    hide Over, Flushed, Resisted, IsOwn;
    ghost var s0 := t.S();
    var srk := CreatePrimaryKey(t);
    if srk.None? {
      OverMore(s0, t.S(), {}, 1, 2);
      return None;
    }
    ghost var s1 := t.S();
    OneMore(s0, s1, srk.value.handle);
    ghost var resist := t.resist;
    key := CreateLoadedKey(t, srk.value.handle);
    ghost var s2 := t.S();
    if key.Some? {
      OwnIsTransient(t.pairs, t.decode, key.value);
      OneMore(s1, s2, key.value.handle);
    }
    ExtraHeld(s1, s2, Handles(key), 1);
    t.FlushContext(srk.value.handle);
    ParentFlushed(s0, s1, s2, t.S(), srk.value.handle, Handles(key));
    ResistedSince(s0, s2, t.S(), resist, t.resist);
    FlushedPeak(s2, t.S(), srk.value.handle);
  }

  /** A flush of what came in between. */
  lemma ResistedSince(s0: Slots, s: Slots, s': Slots, resist: nat, resist': nat)
    requires s.stuck == s0.stuck
    ensures Resisted(s, s', resist, resist') ==> Resisted(s0, s', resist, resist')
  {
  }

  lemma FlushedPeak(s: Slots, s': Slots, h: nat)
    requires Flushed(s, s', h)
    ensures s'.peak == s.peak
  {
  }

  /** One object more. */
  lemma OneMore(s0: Slots, s: Slots, h: nat)
    requires Over(s0, s, {h}, 1) && s.stuck == s0.stuck
    ensures h in s.held && |s.held| + |s.stuck| == |s0.held| + |s0.stuck| + 1 <= s.peak
  {
    assert |s0.held + {h}| == |s0.held| + 1;
  }

  /** A parent, a piece of work beside it, and the parent flushed. */
  lemma ParentFlushed(s0: Slots, s1: Slots, s2: Slots, s3: Slots, parent: nat, extra: set<nat>)
    requires Over(s0, s1, {parent}, 1) && Over(s1, s2, extra, 1)
    requires Flushed(s2, s3, parent)
    ensures Over(s0, s3, extra, 2)
  {
    hide Over, Flushed;
    Then(s0, s1, s2, {parent}, 1, extra, 1);
    ThenFlushed(s0, s2, s3, {parent} + extra, 2, parent);
    NotParent(s0, s1, s2, parent, extra);
  }

  lemma NotParent(s0: Slots, s1: Slots, s2: Slots, parent: nat, extra: set<nat>)
    requires Over(s0, s1, {parent}, 1) && Over(s1, s2, extra, 1)
    ensures {parent} + extra - {parent} == extra
  {
    hide SlotsOk;
  }

  lemma ExtraHeld(s0: Slots, s: Slots, extra: set<nat>, k: nat)
    requires Over(s0, s, extra, k)
    ensures extra <= s.held && s0.held <= s.held
  {
  }

  function LoadHandles(r: Load): set<nat> {
    if r.Loaded? then Handles(Some(r.key)) else {}
  }

  /** Loads an existing key: foreign when it is not this TPM's, and only then. */
  method LoadDevID(t: Tpm, pubBlob: string, privBlob: string) returns (r: Load)
    requires t.Valid()
    modifies t`held, t`stuck, t`resist, t`high, t`peak
    ensures t.Valid() && Over(old(t.S()), t.S(), LoadHandles(r), 2)
    ensures r.Loaded? ==> r.key.pubBlob == pubBlob && r.key.privBlob == privBlob && IsOwn(t.pairs, t.decode, r.key)
    ensures r.Foreign? ==> t.decode(pubBlob).None? || (pubBlob, privBlob) !in t.pairs
    ensures old(t.Roomy(2)) && pubBlob != "" && privBlob != "" && (pubBlob, privBlob) in t.pairs
            && t.decode(pubBlob).Some? ==>
              r.Loaded? && Resisted(old(t.S()), t.S(), old(t.resist), t.resist)
  {
    hide Over, Flushed, Came, Resisted;
    ghost var s0 := t.S();
    OverNothing(s0);
    OverMore(s0, s0, {}, 0, 2);
    if |pubBlob| == 0 || |privBlob| == 0 {
      return LoadFailed;
    }
    var pub := t.decode(pubBlob);
    if pub.None? {
      return Foreign;
    }
    var srk := CreatePrimaryKey(t);
    if srk.None? {
      OverMore(s0, t.S(), {}, 1, 2);
      return LoadFailed;
    }
    ghost var s1 := t.S();
    OneMore(s0, s1, srk.value.handle);
    ghost var resist := t.resist;
    r := LoadUnder(t, srk.value.handle, pub.value, pubBlob, privBlob);
    ghost var s2 := t.S();
    ExtraHeld(s1, s2, LoadHandles(r), 1);
    t.FlushContext(srk.value.handle);
    ParentFlushed(s0, s1, s2, t.S(), srk.value.handle, LoadHandles(r));
    ResistedSince(s0, s2, t.S(), resist, t.resist);
  }

  /** The load itself, under a parent. */
  method LoadUnder(t: Tpm, parent: nat, pub: Public, pubBlob: string, privBlob: string) returns (r: Load)
    requires t.Valid() && parent in t.held && t.decode(pubBlob) == Some(pub)
    modifies t`held, t`high, t`peak
    ensures t.Valid() && Over(old(t.S()), t.S(), LoadHandles(r), 1)
    ensures r.Loaded? ==> r.key.pubBlob == pubBlob && r.key.privBlob == privBlob && IsOwn(t.pairs, t.decode, r.key)
    ensures r.Foreign? ==> (pubBlob, privBlob) !in t.pairs
    ensures old(t.Willing()) && (pubBlob, privBlob) in t.pairs ==> r.Loaded?
  {
    hide Over;
    ghost var s0 := t.S();
    OverNothing(s0);
    OverMore(s0, s0, {}, 0, 1);
    var a := t.LoadPair(parent, pubBlob, privBlob);
    match a
    case Answer(h) =>
      ThenCame(s0, s0, t.S(), {}, 0, h);
      assert {} + {h} == {h};
      return Loaded(Key(h, pub, pubBlob, privBlob));
    case NotOurs => return Foreign;
    case Refused => return LoadFailed;
  }

  // ----- hashing and signing

  /** The digest of the data, in one command or as a sequence of chunks. */
  method TpmHash(t: Tpm, data: string) returns (ok: bool, out: string)
    requires t.Valid()
    modifies t`held, t`stuck, t`resist, t`high, t`peak, t`hashing
    ensures t.Valid() && Over(old(t.S()), t.S(), {}, 1)
    ensures ok ==> out == t.digest(data)
  {
    hide Over, Came, Flushed;
    ghost var s0 := t.S();
    OverNothing(s0);
    OverMore(s0, s0, {}, 0, 1);
    if |data| <= MAX_DIGEST_BUFFER {
      ok, out := t.Hash(data);
      return;
    }
    var started, h := t.HashSequenceStart();
    if !started {
      return false, "";
    }
    ghost var s1 := t.S();
    CameHeld(s0, s1, h);
    var rest;
    ok, rest := UpdateAll(t, h, data);
    if !ok {
      t.FlushContext(h);
      CameAndWent(s0, s1, t.S(), h);
      return false, "";
    }
    ok, out := t.SequenceComplete(h, rest);
    CompletedFlushed(s1, t.S(), h);
    t.FlushContext(h);
    CameAndWent(s0, s1, t.S(), h);
  }

  lemma CameHeld(s0: Slots, s1: Slots, h: nat)
    requires Came(s0, s1, h)
    ensures h in s1.held
  {
  }

  /** A sequence that completes is gone as if flushed. */
  lemma CompletedFlushed(s1: Slots, s2: Slots, h: nat)
    ensures s2 == s1.(held := s1.held - {h}) ==> Flushed(s1, s2, h)
  {
  }

  /** One object, for a while. */
  lemma CameAndWent(s0: Slots, s1: Slots, s2: Slots, h: nat)
    requires SlotsOk(s0) && Came(s0, s1, h) && Flushed(s1, s2, h)
    ensures Over(s0, s2, {}, 1)
  {
    hide Over, Came, Flushed, SlotsOk;
    OverNothing(s0);
    ThenCame(s0, s0, s1, {}, 0, h);
    ThenFlushed(s0, s1, s2, {} + {h}, 1, h);
    assert {} + {h} - {h} == {};
  }

  /** Feeds all but the last chunk. */
  method UpdateAll(t: Tpm, h: nat, data: string) returns (ok: bool, rest: string)
    requires t.Valid() && h in t.held && h in t.hashing && t.hashing[h] == ""
    modifies t`hashing
    ensures t.Valid() && h in t.hashing && |rest| <= MAX_DIGEST_BUFFER
    ensures ok ==> t.hashing[h] + rest == data
  {
    rest, ok := data, true;
    while |rest| > MAX_DIGEST_BUFFER
      invariant t.Valid() && h in t.hashing
      invariant ok && t.hashing[h] + rest == data
    {
      assert rest == rest[..MAX_DIGEST_BUFFER] + rest[MAX_DIGEST_BUFFER..];
      ok := t.SequenceUpdate(h, rest[..MAX_DIGEST_BUFFER]);
      if !ok {
        return false, "";
      }
      rest := rest[MAX_DIGEST_BUFFER..];
    }
  }

  /** Hashes the data in the TPM and signs the digest. */
  method HashAndSign(t: Tpm, key: nat, data: string) returns (ok: bool, sig: string)
    requires t.Valid() && key in t.held
    modifies t`held, t`stuck, t`resist, t`high, t`peak, t`hashing
    ensures t.Valid() && Over(old(t.S()), t.S(), {}, 1)
  {
    OverNothing(t.S());
    OverMore(t.S(), t.S(), {}, 0, 1);
    var readable, _ := t.Uses({key});
    if !readable {
      return false, "";
    }
    var hashed, out := TpmHash(t, data);
    if !hashed {
      return false, "";
    }
    ok, sig := t.Uses({key});
  }

  // ----- signing requests

  method GiveBack(t: Tpm, key: Key, ghost s0: Slots, ghost extra: set<nat>, ghost k: nat)
    requires t.Valid() && (key.handle == 0 || Transient(key.handle))
    requires Over(s0, t.S(), extra, k) && Handles(Some(key)) <= extra
    modifies t`held, t`stuck, t`resist
    ensures t.Valid() && Over(s0, t.S(), extra - Handles(Some(key)), k)
  {
    hide Over, Flushed;
    ghost var s := t.S();
    ExtraHeld(s0, s, extra, k);
    FlushTransient(t, key.handle);
    if key.handle != 0 {
      ThenFlushed(s0, s, t.S(), extra, k, key.handle);
    } else {
      assert extra - {} == extra;
    }
  }

  function Both(a: Option<Key>, b: Option<Key>): set<nat> {
    Handles(a) + Handles(b)
  }

  /** Keys with transient handles, or none, and not the same. */
  ghost predicate KeysDiffer(a: Option<Key>, b: Option<Key>) {
    && (a.Some? ==> a.value.handle == 0 || Transient(a.value.handle))
    && (b.Some? ==> b.value.handle == 0 || Transient(b.value.handle))
    && Handles(a) !! Handles(b)
  }

  lemma BothGiven(a: Option<Key>, b: Option<Key>)
    requires KeysDiffer(a, b)
    ensures Handles(a) <= Both(a, b) && Handles(b) <= Both(a, b) && Both(a, b) - Handles(a) == Handles(b)
            && Both(None, b) == Handles(b)
    ensures a.Some? ==> KeysDiffer(Some(a.value.(handle := 0)), b) && Both(Some(a.value.(handle := 0)), b) == Handles(b)
    ensures Handles(b) - Handles(b) == {}
  {
  }

  lemma NoHandles()
    ensures Handles(None) == {}
  {
  }

  /** Keys without handles. */
  lemma ZeroHandles(a: Option<Key>, b: Option<Key>)
    requires (a.Some? ==> a.value.handle == 0) && (b.Some? ==> b.value.handle == 0)
    ensures Both(a, b) == {}
  {
  }

  /** The keys a request holds. */
  class RequestResources {
    var attestation: Option<Key>
    var devID: Option<Key>

    constructor (devID: Option<Key>)
      ensures this.devID == devID && attestation == None
    {
      this.devID, attestation := devID, None;
    }

    ghost function Held(): set<nat>
      reads this
    {
      Both(attestation, devID)
    }

    ghost predicate Distinct()
      reads this
    {
      KeysDiffer(attestation, devID)
    }

    /** Gives the keys back; again does nothing. */
    method Flush(t: Tpm, ghost s0: Slots, ghost k: nat)
      requires t.Valid() && Distinct() && Over(s0, t.S(), Held(), k)
      modifies this, t`held, t`stuck, t`resist
      ensures t.Valid() && Over(s0, t.S(), {}, k) && Held() == {}
    {
      hide Over, Flushed, Handles, Both;
      BothGiven(attestation, devID);
      if attestation.Some? {
        GiveBack(t, attestation.value, s0, Held(), k);
        attestation := Some(attestation.value.(handle := 0));
      } else {
        NoHandles();
      }
      assert Held() == Handles(devID);
      if devID.Some? {
        GiveBack(t, devID.value, s0, Held(), k);
        devID := Some(devID.value.(handle := 0));
        ZeroHandles(attestation, devID);
      } else {
        NoHandles();
      }
    }

    /** Solves a challenge; the EK is derived for it and flushed. */
    method Activate(t: Tpm) returns (ok: bool, secret: string)
      requires t.Valid() && attestation.Some? && attestation.value.handle in t.held
      modifies t`held, t`stuck, t`resist, t`high, t`peak
      ensures t.Valid() && Over(old(t.S()), t.S(), {}, 1)
    {
      ghost var s0 := t.S();
      var ek := CreatePrimaryKey(t);
      if ek.None? {
        return false, "";
      }
      ghost var s1 := t.S();
      ok, secret := t.Uses({attestation.value.handle, ek.value.handle});
      t.FlushContext(ek.value.handle);
      ThenFlushed(s0, s1, t.S(), {ek.value.handle}, 1, ek.value.handle);
    }
  }

  /** Certifies the key; the TPM may ask to be asked again. */
  method CertifyWithRetry(t: Tpm, certified: nat, signer: nat) returns (ok: bool)
    requires t.Valid() && certified in t.held && signer in t.held
    ensures t.script.Some? ==> ok
  {
    for attempt := 1 to 6
      invariant attempt > 1 ==> t.script.None?
    {
      var data;
      ok, data := t.Uses({certified, signer});
      if ok {
        return;
      }
      var retry: bool := *;
      if !retry {
        return false;
      }
    }
    ok := false;
  }

  /** Reads the EK's public area: derived, and flushed before anything else is
      created. */
  method ReadEK(t: Tpm) returns (ok: bool)
    requires t.Valid()
    modifies t`held, t`stuck, t`resist, t`high, t`peak
    ensures t.Valid() && Over(old(t.S()), t.S(), {}, 1)
    ensures old(t.Willing()) ==> ok && Resisted(old(t.S()), t.S(), old(t.resist), t.resist)
  {
    hide Resisted;
    ghost var s0 := t.S();
    OverNothing(s0);
    OverMore(s0, s0, {}, 0, 1);
    var read, _ := t.Uses({});
    var parses: bool := *;
    if !read || (!parses && t.script.None?) {
      return false;
    }
    var ek := CreatePrimaryKey(t);
    if ek.None? {
      return false;
    }
    ghost var s1 := t.S();
    t.FlushContext(ek.value.handle);
    ThenFlushed(s0, s1, t.S(), {ek.value.handle}, 1, ek.value.handle);
    ResistedSince(s0, s1, t.S(), old(t.resist), t.resist);
    ok := true;
  }

  /** The attestation key, beside the DevID key if that is held already. */
  method AddAK(t: Tpm, res: RequestResources, ghost s0: Slots) returns (ok: bool)
    requires t.Valid() && res.attestation.None? && res.Distinct() && Over(s0, t.S(), Handles(res.devID), 2)
    modifies res`attestation, t`held, t`stuck, t`resist, t`high, t`peak, t`pairs
    ensures t.Valid() && res.Distinct() && Over(s0, t.S(), res.Held(), 3) && old(t.pairs) <= t.pairs
    ensures if ok then res.attestation.Some? && Transient(res.attestation.value.handle) else res.attestation.None?
    ensures ok ==> t.peak >= |old(t.held)| + |old(t.stuck)| + 2
    ensures old(t.Roomy(2)) ==> ok && Resisted(old(t.S()), t.S(), old(t.resist), t.resist)
  {
    hide Over, Handles, Both, KeysDiffer, IsOwn, Resisted;
    ghost var s := t.S();
    res.attestation := CreateUnderSRK(t);
    AkAdded(s0, s, t.S(), res.devID, res.attestation);
    if res.attestation.Some? {
      OwnIsTransient(t.pairs, t.decode, res.attestation.value);
    }
    AkDiffers(s0, s, t.S(), res.devID, res.attestation);
    ok := res.attestation.Some?;
  }

  lemma AkAdded(s0: Slots, s: Slots, s': Slots, devID: Option<Key>, ak: Option<Key>)
    requires Over(s0, s, Handles(devID), 2) && Over(s, s', Handles(ak), 2)
    ensures Over(s0, s', Both(ak, devID), 3)
  {
    hide Over, Handles;
    HandlesOne(devID);
    AddedTo(s0, s, s', Handles(devID), 2, Handles(ak), 2);
    assert Handles(devID) + Handles(ak) == Both(ak, devID);
  }

  lemma AkDiffers(s0: Slots, s: Slots, s': Slots, devID: Option<Key>, ak: Option<Key>)
    requires Over(s0, s, Handles(devID), 2) && Over(s, s', Handles(ak), 2) && KeysDiffer(None, devID)
    requires ak.Some? ==> Transient(ak.value.handle)
    ensures KeysDiffer(ak, devID)
  {
  }

  /** The DevID key, when none is held yet. */
  method AddDevID(t: Tpm, res: RequestResources, ghost s0: Slots) returns (ok: bool)
    requires t.Valid() && res.devID.None? && res.attestation.Some? && Transient(res.attestation.value.handle)
    requires Over(s0, t.S(), res.Held(), 3)
    modifies res`devID, t`held, t`stuck, t`resist, t`high, t`peak, t`pairs
    ensures t.Valid() && res.Distinct() && Over(s0, t.S(), res.Held(), 3) && old(t.pairs) <= t.pairs
    ensures if ok then res.devID.Some? && IsOwn(t.pairs, t.decode, res.devID.value) else res.devID.None?
  {
    hide Over, Handles, Both, KeysDiffer, IsOwn;
    ghost var s := t.S();
    res.devID := CreateUnderSRK(t);
    if res.devID.Some? {
      OwnIsTransient(t.pairs, t.decode, res.devID.value);
    }
    DevIDAdded(s0, s, t.S(), res.attestation, res.devID);
    ok := res.devID.Some?;
  }

  lemma DevIDAdded(s0: Slots, s: Slots, s': Slots, ak: Option<Key>, devID: Option<Key>)
    requires Over(s0, s, Both(ak, None), 3) && Over(s, s', Handles(devID), 2)
    requires ak.Some? && Transient(ak.value.handle) && (devID.Some? ==> Transient(devID.value.handle))
    ensures Over(s0, s', Both(ak, devID), 3) && KeysDiffer(ak, devID)
  {
    assert Both(ak, None) == Handles(ak);
    AddedTo(s0, s, s', Handles(ak), 3, Handles(devID), 2);
  }

  /** A new key is none of those held before. */
  lemma AddedTo(s0: Slots, s: Slots, s': Slots, extra: set<nat>, k: nat, added: set<nat>, k': nat)
    requires Over(s0, s, extra, k) && Over(s, s', added, k') && |extra| + k' <= 3 && k <= 3
    ensures Over(s0, s', extra + added, 3) && extra !! added
  {
    Then(s0, s, s', extra, k, added, k');
    OverMore(s0, s', extra + added, Max(k, |extra| + k'), 3);
  }

  lemma HandlesOne(key: Option<Key>)
    ensures |Handles(key)| <= 1
  {
  }

  lemma OwnIsTransient(pairs: set<(string, string)>, decode: string -> Option<Public>, key: Key)
    requires IsOwn(pairs, decode, key)
    ensures Transient(key.handle)
  {
  }

  lemma OwnStays(pairs: set<(string, string)>, pairs': set<(string, string)>, decode: string -> Option<Public>,
                 key: Key)
    requires IsOwn(pairs, decode, key) && pairs <= pairs'
    ensures IsOwn(pairs', decode, key)
  {
  }

  /** The request's keys are loaded, and the DevID key is this TPM's. */
  ghost predicate Ready(t: Tpm, res: RequestResources)
    reads t, res
  {
    && res.attestation.Some? && res.devID.Some?
    && res.attestation.value.handle in t.held && res.devID.value.handle in t.held
    && IsOwn(t.pairs, t.decode, res.devID.value)
  }

  /** Builds a signing request for the DevID key already loaded, or for a new
      one. The key is the request's from here on: it is flushed with the others
      on any error. */
  method CreateSigningRequest(t: Tpm, devID: Option<Key>, ghost s0: Slots) returns (ok: bool, res: RequestResources)
    requires t.Valid() && Over(s0, t.S(), Handles(devID), 2)
    requires devID.Some? ==> IsOwn(t.pairs, t.decode, devID.value)
    modifies t`held, t`stuck, t`resist, t`high, t`peak, t`pairs
    ensures t.Valid() && fresh(res) && old(t.pairs) <= t.pairs
    ensures Over(s0, t.S(), if ok then res.Held() else {}, 3)
    ensures ok ==> Ready(t, res) && res.Distinct() && (devID.Some? ==> res.devID == devID)
    ensures devID.Some? && old(t.Roomy(2)) && old(t.resist) == 0 ==>
              ok && t.stuck == old(t.stuck) && t.peak >= |old(t.held)| + |old(t.stuck)| + 2
  {
    hide Over, IsOwn, Handles, Both, KeysDiffer, Resisted;
    if devID.Some? {
      OwnIsTransient(t.pairs, t.decode, devID.value);
    }
    AloneDiffers(devID);
    res := new RequestResources(devID);
    ghost var s := t.S();
    ok := ReadEK(t);
    Yielded(s, t.S(), old(t.resist), t.resist);
    ghost var s' := t.S();
    EKRead(s0, s, s', devID);
    if ok {
      ghost var pairs, resist := t.pairs, t.resist;
      ok := AddAK(t, res, s0);
      Yielded(s', t.S(), resist, t.resist);
      if devID.Some? {
        OwnStays(pairs, t.pairs, t.decode, devID.value);
      }
    } else {
      OverMore(s0, t.S(), Handles(devID), 2, 3);
    }
    if ok && res.devID.None? {
      ok := AddDevID(t, res, s0);
    }
    if ok {
      OwnIsTransient(t.pairs, t.decode, res.devID.value);
      BothHeld(s0, t.S(), res.attestation.value, res.devID.value);
      ok := CertifyWithRetry(t, res.devID.value.handle, res.attestation.value.handle);
    }
    if !ok {
      res.Flush(t, s0, 3);
    }
  }

  lemma AloneDiffers(key: Option<Key>)
    requires key.Some? ==> Transient(key.value.handle)
    ensures KeysDiffer(None, key) && Both(None, key) == Handles(key)
  {
  }

  lemma BothHeld(s0: Slots, s: Slots, ak: Key, devID: Key)
    requires Over(s0, s, Both(Some(ak), Some(devID)), 3) && Transient(ak.handle) && Transient(devID.handle)
    ensures ak.handle in s.held && devID.handle in s.held
  {
  }

  /** A flush that does not fail leaves nothing. */
  lemma Yielded(s: Slots, s': Slots, resist: nat, resist': nat)
    ensures resist == 0 && Resisted(s, s', resist, resist') ==> s'.stuck == s.stuck && resist' == 0
  {
  }

  lemma EKRead(s0: Slots, s: Slots, s': Slots, devID: Option<Key>)
    requires Over(s0, s, Handles(devID), 2) && Over(s, s', {}, 1)
    ensures Over(s0, s', Handles(devID), 2) && s'.held == s.held
  {
    hide Handles;
    Then(s0, s, s', Handles(devID), 2, {}, 1);
    HandlesOne(devID);
    OverMore(s0, s', Handles(devID) + {}, Max(2, |Handles(devID)| + 1), 2);
    assert Handles(devID) + {} == Handles(devID);
  }

  // ----- a flush that fails

  lemma PeakBound(s0: Slots, s: Slots, extra: set<nat>, k: nat)
    requires Over(s0, s, extra, k)
    ensures s.held == s0.held + extra && s.peak <= Max(s0.peak, |s0.held| + |s.stuck| + k)
  {
  }

  /** Three objects are not the most there can be once a flush failed: this TPM
      fails the flush of the storage root key around which its DevID key is
      loaded, and nothing else, and then holds four while the attestation key is
      created. It is also no more than the bound: three, and one for that flush. */
  method FourLoaded() returns (t: Tpm)
    ensures t.Valid() && |t.stuck| == 1 && t.peak == 4
  {
    hide Over, Handles, Both, Resisted, IsOwn;
    var decode := (blob: string) => Some(Public(None));
    t := new Tpm.Scripted(decode, (data: string) => data, Script("public", "private"), 1);
    ghost var s0 := t.S();
    var r := LoadDevID(t, "public", "private");
    ghost var s1 := t.S();
    FirstStuck(s0, s1, 1, t.resist);
    LoadedOne(s0, s1, r.key, t.pairs, t.decode);
    var ok, res := CreateSigningRequest(t, Some(r.key), s0);
    PeakBound(s0, t.S(), res.Held(), 3);
  }

  lemma FirstStuck(s0: Slots, s: Slots, resist: nat, resist': nat)
    requires resist == 1 && Resisted(s0, s, resist, resist')
    ensures |s.stuck| == |s0.stuck| + 1 && resist' == 0
  {
  }

  lemma LoadedOne(s0: Slots, s: Slots, key: Key, pairs: set<(string, string)>, decode: string -> Option<Public>)
    requires Over(s0, s, LoadHandles(Loaded(key)), 2) && s0.held == {} && IsOwn(pairs, decode, key)
    ensures Over(s0, s, Handles(Some(key)), 2) && |s.held| == 1
  {
  }
}
