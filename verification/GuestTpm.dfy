/** The guest's enroll client (internal/devid: client, csr, keys, sign, renew):
    a TPM whose every command may fail, and files that are replaced one by one. */
module GuestTpm {
  import opened Options

  /** A public area: None when it holds no usable key. */
  datatype Public = Public(key: Option<string>)

  /** A key and its handle; 0 is no handle. */
  datatype Key = Key(handle: nat, pub: Public, pubBlob: string, privBlob: string)

  datatype Load = Loaded(key: Key) | Foreign | LoadFailed

  /** A TPM told how to answer: every command succeeds while there are handles,
      with these blobs in the answers, but as many of its next flushes fail as
      resist says. Without a script it answers as it likes. */
  datatype Script = Script(pubBlob: string, privBlob: string)

  /** What TPM2_Load answers. */
  datatype LoadAnswer = Answer(handle: nat) | NotOurs | Refused

  const MAX_DIGEST_BUFFER: nat := 1024

  predicate Transient(h: nat) {
    0x80000000 <= h < 0x81000000
  }

  predicate Persistent(h: nat) {
    0x81000000 <= h <= 0x81FFFFFF
  }

  // ----- accounting of loaded objects

  /** The objects loaded: those still to be flushed, and those whose flush
      failed; the most of the first kind there ever were at once, and the most
      of both. */
  datatype Slots = Slots(held: set<nat>, stuck: set<nat>, high: nat, peak: nat)

  ghost predicate SlotsOk(s: Slots) {
    s.stuck !! s.held && |s.held| <= s.high && |s.held| + |s.stuck| <= s.peak
      && forall h :: h in s.held ==> Transient(h)
  }

  /** Counting from here on. */
  ghost function Measured(s: Slots): Slots {
    s.(high := |s.held|, peak := |s.held| + |s.stuck|)
  }

  function Max(a: nat, b: nat): nat {
    if a < b then b else a
  }

  /** From s0 to s: extra is held in addition, never more than k objects were
      held above those of s0, and never more than k were loaded above those of
      s0 beside the ones whose flush has failed since. */
  ghost predicate Over(s0: Slots, s: Slots, extra: set<nat>, k: nat) {
    && SlotsOk(s0) && SlotsOk(s)
    && s.held == s0.held + extra && extra !! s0.held && s0.stuck <= s.stuck
    && |extra| <= k && s.high <= Max(s0.high, |s0.held| + k)
    && |s0.stuck| <= |s.stuck| && s.peak <= Max(s0.peak, |s0.held| + |s.stuck| + k)
  }

  /** FlushContext on a held object: gone, or stuck. */
  ghost predicate Flushed(s: Slots, s': Slots, h: nat) {
    s'.held == s.held - {h} && s'.high == s.high && s'.peak == s.peak
      && (s'.stuck == s.stuck || s'.stuck == s.stuck + {h})
  }

  /** A new object is loaded. */
  ghost predicate Came(s: Slots, s': Slots, h: nat) {
    h !in s.held && h !in s.stuck && Transient(h)
      && s' == Slots(s.held + {h}, s.stuck, Max(s.high, |s.held| + 1), Max(s.peak, |s.held| + |s.stuck| + 1))
  }

  lemma OverNothing(s: Slots)
    requires SlotsOk(s)
    ensures Over(s, s, {}, 0)
  {
  }

  lemma OverMore(s0: Slots, s: Slots, extra: set<nat>, k: nat, k': nat)
    requires Over(s0, s, extra, k) && k <= k'
    ensures Over(s0, s, extra, k')
  {
  }

  lemma JoinSize(a: set<nat>, b: set<nat>)
    requires a !! b
    ensures |a + b| == |a| + |b|
  {
  }

  lemma ThenSets(held: set<nat>, extra: set<nat>, extra': set<nat>)
    requires extra !! held && extra' !! held + extra
    ensures held + extra + extra' == held + (extra + extra') && extra + extra' !! held
    ensures |held + extra| == |held| + |extra| && |extra + extra'| == |extra| + |extra'|
  {
    JoinSize(held, extra);
    JoinSize(extra, extra');
  }

  lemma LessSets(held: set<nat>, extra: set<nat>, h: nat)
    requires extra !! held && h in extra
    ensures held + extra - {h} == held + (extra - {h}) && extra - {h} !! held && |extra - {h}| == |extra| - 1
  {
    JoinSize(extra - {h}, {h});
    assert extra - {h} + {h} == extra;
  }

  lemma CameOk(s: Slots, s': Slots, h: nat)
    requires SlotsOk(s) && Came(s, s', h)
    ensures SlotsOk(s') && h !in s.held && s'.held == s.held + {h} && s'.stuck == s.stuck
    ensures s'.high == Max(s.high, |s.held| + 1) && s'.peak == Max(s.peak, |s.held| + |s.stuck| + 1)
  {
    JoinSize(s.held, {h});
  }

  lemma FlushedOk(s: Slots, s': Slots, h: nat)
    requires SlotsOk(s) && Flushed(s, s', h) && h in s.held
    ensures SlotsOk(s') && s'.held == s.held - {h} && s.stuck <= s'.stuck && |s.stuck| <= |s'.stuck|
    ensures s'.high == s.high && s'.peak == s.peak
  {
    JoinSize(s.held - {h}, {h});
    JoinSize(s.stuck, {h});
    assert s.held - {h} + {h} == s.held;
  }

  lemma ThenCame(s0: Slots, s: Slots, s': Slots, extra: set<nat>, k: nat, h: nat)
    requires Over(s0, s, extra, k) && Came(s, s', h)
    ensures Over(s0, s', extra + {h}, Max(k, |extra| + 1)) && SlotsOk(s')
  {
    hide SlotsOk, Came;
    CameOk(s, s', h);
    ThenSets(s0.held, extra, {h});
  }

  lemma ThenFlushed(s0: Slots, s: Slots, s': Slots, extra: set<nat>, k: nat, h: nat)
    requires Over(s0, s, extra, k) && h in extra && Flushed(s, s', h)
    ensures Over(s0, s', extra - {h}, k) && SlotsOk(s')
  {
    hide SlotsOk, Flushed;
    FlushedOk(s, s', h);
    LessSets(s0.held, extra, h);
  }

  lemma StuckDiffers(held: set<nat>, stuck: set<nat>, stuck0: set<nat>)
    requires held !! stuck && stuck0 <= stuck
    ensures held + stuck == held + stuck0 <==> stuck == stuck0
    ensures |stuck - stuck0| == |stuck| - |stuck0| && |held + stuck0| == |held| + |stuck0|
  {
    if held + stuck == held + stuck0 {
      forall h ensures h in stuck <==> h in stuck0 {
        assert h in held + stuck <==> h in held + stuck0;
      }
    }
    assert stuck == stuck0 + (stuck - stuck0);
    JoinSize(stuck0, stuck - stuck0);
    JoinSize(held, stuck0);
  }

  /** After work that keeps nothing, what is loaded is what was loaded, exactly
      if no flush failed. There were never more objects loaded than before the
      work, or than at its start, k, and one for each flush that failed in it;
      so k at most beside those of the start, if none did. Counting from the
      start of the work leaves out what was before. */
  lemma OnlyFailedFlushesStay(s0: Slots, s: Slots, k: nat)
    requires Over(s0, s, {}, k)
    ensures s.held + s.stuck == s0.held + s0.stuck <==> s.stuck == s0.stuck
    ensures |s.stuck - s0.stuck| == |s.stuck| - |s0.stuck|
    ensures s.peak <= Max(s0.peak, |s0.held + s0.stuck| + k + |s.stuck - s0.stuck|)
    ensures s.stuck == s0.stuck ==> s.peak <= Max(s0.peak, |s0.held + s0.stuck| + k)
    ensures s0 == Measured(s0) ==> s.peak <= |s0.held + s0.stuck| + k + |s.stuck - s0.stuck|
    ensures s0.held == {} ==> s.held == {} && s.high <= Max(s0.high, k)
  {
    hide *;
    Apart(s0, s, k);
    StuckDiffers(s.held, s.stuck, s0.stuck);
    BoundOf(s0, s, k, |s.stuck - s0.stuck|);
  }

  lemma BoundOf(s0: Slots, s: Slots, k: nat, failed: nat)
    requires Over(s0, s, {}, k) && |s.stuck| == |s0.stuck| + failed
    requires |s0.held + s0.stuck| == |s0.held| + |s0.stuck|
    ensures s.peak <= Max(s0.peak, |s0.held + s0.stuck| + k + failed)
    ensures s0 == Measured(s0) ==> s.peak <= |s0.held + s0.stuck| + k + failed
    ensures s0.held == {} ==> s.held == {} && s.high <= Max(s0.high, k)
  {
    hide SlotsOk;
  }

  lemma Apart(s0: Slots, s: Slots, k: nat)
    requires Over(s0, s, {}, k)
    ensures s.held == s0.held && s.held !! s.stuck && s0.stuck <= s.stuck
  {
  }

  /** One piece of work after another. */
  lemma Then(s0: Slots, s: Slots, s': Slots, extra: set<nat>, k: nat, extra': set<nat>, k': nat)
    requires Over(s0, s, extra, k) && Over(s, s', extra', k')
    ensures Over(s0, s', extra + extra', Max(k, |extra| + k'))
  {
    hide SlotsOk;
    ThenSets(s0.held, extra, extra');
  }

  /** With a script a flush fails while the TPM is to resist. */
  ghost predicate Resisted(s: Slots, s': Slots, resist: nat, resist': nat) {
    if resist == 0 then s'.stuck == s.stuck && resist' == 0
    else resist' == resist - 1 && |s'.stuck| == |s.stuck| + 1
  }

  // ----- handles

  const HANDLES: nat := 0x01000000

  predicate HasHandle(used: set<nat>, h: nat) {
    Transient(h) && h !in used
  }

  /** Of n handles in a row fewer than n cannot be all. */
  lemma {:induction false} OneLeft(used: set<nat>, n: nat) returns (h: nat)
    requires |used| < n
    ensures 0x80000000 <= h < 0x80000000 + n && h !in used
  {
    h := 0x80000000 + n - 1;
    if h in used {
      h := OneLeft(used - {h}, n - 1);
    }
  }

  lemma HandlesLeft(used: set<nat>)
    requires |used| < HANDLES
    ensures exists h :: HasHandle(used, h)
  {
    var h := OneLeft(used, HANDLES);
    assert HasHandle(used, h);
  }

  // ----- the device

  /** A TPM. Commands that fail load nothing. */
  class Tpm {
    const decode: string -> Option<Public>   // DecodePublic
    const digest: string -> string           // the hash function
    var held: set<nat>
    var stuck: set<nat>
    const script: Option<Script>
    var resist: nat                          // with a script: how many of the next flushes fail
    var pairs: set<(string, string)>         // the (public, private) blobs it made
    var hashing: map<nat, string>            // data fed to the open hash sequences
    ghost var high: nat
    ghost var peak: nat

    ghost function S(): Slots
      reads this
    {
      Slots(held, stuck, high, peak)
    }

    ghost predicate Valid()
      reads this
    {
      SlotsOk(S()) && (script.Some? ==> decode(script.value.pubBlob).Some?)
    }

    /** It follows a script, and has handles left. */
    ghost predicate Willing()
      reads this
    {
      Roomy(1)
    }

    ghost predicate Roomy(n: nat)
      reads this
    {
      script.Some? && |held| + |stuck| + n <= HANDLES
    }

    constructor (decode: string -> Option<Public>, digest: string -> string)
      ensures Valid() && held == stuck == {} && this.decode == decode && this.digest == digest && script.None?
    {
      this.decode, this.digest, script := decode, digest, None;
      held, stuck, high, peak, pairs, hashing, resist := {}, {}, 0, 0, {}, map[], 0;
    }

    /** A TPM that follows a script, with the key of the script made already. */
    constructor Scripted(decode: string -> Option<Public>, digest: string -> string, script: Script, resist: nat)
      requires decode(script.pubBlob).Some?
      ensures Valid() && held == stuck == {} && this.decode == decode && this.digest == digest
      ensures this.script == Some(script) && this.resist == resist && peak == 0
      ensures (script.pubBlob, script.privBlob) in pairs
    {
      this.decode, this.digest, this.script, this.resist := decode, digest, Some(script), resist;
      held, stuck, high, peak, pairs, hashing := {}, {}, 0, 0, {(script.pubBlob, script.privBlob)}, map[];
    }

    /** Starts counting anew. */
    ghost method Measure()
      requires Valid()
      modifies this`high, this`peak
      ensures Valid() && S() == Measured(old(S()))
    {
      high, peak := |held|, |held| + |stuck|;
    }

    /** A handle no object has, if the TPM answers at all. */
    method NewHandle() returns (ok: bool, h: nat)
      requires Valid()
      modifies this`held, this`high, this`peak
      ensures Valid()
      ensures if ok then Came(old(S()), S(), h) else S() == old(S())
      ensures old(Willing()) ==> ok
    {
      h := *;
      ok := *;
      if script.Some? && |held| + |stuck| < HANDLES {
        HandlesLeft(held + stuck);
        h :| HasHandle(held + stuck, h);
        ok := true;
      }
      ok := ok && h !in held && h !in stuck && Transient(h);
      if ok {
        ghost var s := S();
        high, peak := Max(high, |held| + 1), Max(peak, |held| + |stuck| + 1);
        held := held + {h};
        OverNothing(s);
        ThenCame(s, s, S(), {}, 0, h);
      }
    }

    method CreatePrimary() returns (ok: bool, h: nat, pubBlob: string)
      requires Valid()
      modifies this`held, this`high, this`peak
      ensures Valid()
      ensures if ok then Came(old(S()), S(), h) else S() == old(S())
      ensures old(Willing()) ==> ok && decode(pubBlob).Some?
    {
      pubBlob := *;
      if script.Some? {
        pubBlob := script.value.pubBlob;
      }
      ok, h := NewHandle();
    }

    method CreateKey(parent: nat) returns (ok: bool, privBlob: string, pubBlob: string)
      requires Valid() && parent in held
      modifies this`pairs
      ensures Valid() && old(pairs) <= pairs
      ensures ok ==> (pubBlob, privBlob) in pairs
      ensures script.Some? ==> ok && decode(pubBlob).Some?
    {
      ok := *;
      privBlob := *;
      pubBlob := *;
      if script.Some? {
        ok, pubBlob, privBlob := true, script.value.pubBlob, script.value.privBlob;
      }
      if ok {
        pairs := pairs + {(pubBlob, privBlob)};
      }
    }

    /** Loads a pair it made; only of a pair it did not make it says so. */
    method LoadPair(parent: nat, pubBlob: string, privBlob: string) returns (a: LoadAnswer)
      requires Valid() && parent in held
      modifies this`held, this`high, this`peak
      ensures Valid()
      ensures if a.Answer? then Came(old(S()), S(), a.handle) else S() == old(S())
      ensures a.Answer? ==> (pubBlob, privBlob) in pairs
      ensures a.NotOurs? ==> (pubBlob, privBlob) !in pairs
      ensures old(Willing()) && (pubBlob, privBlob) in pairs ==> a.Answer?
    {
      var answers: bool := *;
      if !answers && script.None? {
        return Refused;
      }
      if (pubBlob, privBlob) !in pairs {
        return NotOurs;
      }
      var ok, h := NewHandle();
      return if ok then Answer(h) else Refused;
    }

    /** An object that is not loaded cannot be flushed; one that is may resist. */
    method FlushContext(h: nat)
      requires Valid()
      modifies this`held, this`stuck, this`resist
      ensures Valid()
      ensures if h in old(held) then Flushed(old(S()), S(), h) else S() == old(S()) && resist == old(resist)
      ensures script.Some? && h in old(held) ==> Resisted(old(S()), S(), old(resist), resist)
    {
      if h in held {
        var ok: bool := *;
        if script.Some? {
          ok := resist == 0;
          resist := if resist == 0 then 0 else resist - 1;
        }
        assert |held - {h}| == |held| - 1 && h !in stuck;
        if !ok {
          stuck := stuck + {h};
        }
        held := held - {h};
      }
    }

    /** Any command that only uses loaded keys. */
    method Uses(handles: set<nat>) returns (ok: bool, answer: string)
      requires Valid() && handles <= held
      ensures script.Some? ==> ok
    {
      ok := *;
      answer := *;
      ok := ok || script.Some?;
    }

    method Hash(data: string) returns (ok: bool, out: string)
      requires Valid() && |data| <= MAX_DIGEST_BUFFER
      ensures ok ==> out == digest(data)
    {
      ok := *;
      out := digest(data);
    }

    method HashSequenceStart() returns (ok: bool, h: nat)
      requires Valid()
      modifies this`held, this`high, this`peak, this`hashing
      ensures Valid()
      ensures if ok then Came(old(S()), S(), h) && h in hashing && hashing[h] == "" else S() == old(S())
    {
      ok, h := NewHandle();
      if ok {
        hashing := hashing[h := ""];
      }
    }

    method SequenceUpdate(h: nat, chunk: string) returns (ok: bool)
      requires Valid() && h in held && h in hashing && |chunk| <= MAX_DIGEST_BUFFER
      modifies this`hashing
      ensures Valid() && h in hashing
      ensures ok ==> hashing[h] == old(hashing[h]) + chunk
    {
      ok := *;
      if ok {
        hashing := hashing[h := hashing[h] + chunk];
      }
    }

    /** A sequence that completes is gone. */
    method SequenceComplete(h: nat, chunk: string) returns (ok: bool, out: string)
      requires Valid() && h in held && h in hashing && |chunk| <= MAX_DIGEST_BUFFER
      modifies this`held
      ensures Valid()
      ensures if ok then held == old(held) - {h} && out == digest(hashing[h] + chunk) else held == old(held)
    {
      ok := *;
      out := digest(hashing[h] + chunk);
      if ok {
        assert |held - {h}| <= |held|;
        held := held - {h};
      }
    }
  }
}
