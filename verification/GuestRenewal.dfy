/** The renewal run: what decides it, what it writes, and in which order
    (internal/devid: client, renew). */
module GuestRenewal {
  import opened Options
  import opened GuestTpm
  import opened GuestKeys

  datatype Cert = Cert(cn: string, key: string, notBefore: int, notAfter: int)

  /** The certificate file as it is read; Unreadable for any error. */
  datatype CertRead = Missing | Unreadable | Parsed(cert: Cert)

  datatype Reason = NoReason | UnreadableCertificate | NoCertificate | Due | OtherVM | MissingBlob | KeyMismatch
    | ForeignKey

  datatype File = CertFile | PrivFile | PubFile | AgentData | AgentSvid

  /** One change on disk; each is atomic. */
  datatype Write = Removed(file: File) | Wrote(file: File, data: string)

  /** What the run saw. */
  datatype Seen = Seen(cert: CertRead, vmid: string, pub: string, priv: string, foreign: bool)

  datatype Decision = Stop | Keep(key: Key) | Renew(reason: Reason, devID: Option<Key>, existing: bool)

  datatype Outcome = Untouched | GaveUp | Failed(reason: Reason) | Renewed(reason: Reason)

  // ----- when to renew

  /** Expired, or less than a third of the lifetime left. */
  predicate RenewDue(cert: Cert, now: int) {
    || cert.notAfter <= now
    || cert.notAfter - cert.notBefore <= 0
    || cert.notAfter - now < (cert.notAfter - cert.notBefore) / 3
  }

  /** A certificate that is due stays due; one with a lifetime that is not due
      has at least a third of it left, but for the rounding of the division. */
  lemma RenewDueMeaning(cert: Cert, now: int, later: int)
    requires now <= later
    ensures RenewDue(cert, now) ==> RenewDue(cert, later)
    ensures !RenewDue(cert, now) ==>
              now < cert.notAfter && 3 * (cert.notAfter - now) + 2 >= cert.notAfter - cert.notBefore > 0
  {
  }

  predicate HoldsKey(cert: Cert, pub: Public) {
    pub.key == Some(cert.key)
  }

  /** The first condition, cheapest first, that calls for a renewal. */
  function FirstReason(seen: Seen, decode: string -> Option<Public>, now: int): Reason {
    if seen.cert.Unreadable? then UnreadableCertificate
    else if seen.cert.Missing? then NoCertificate
    else if RenewDue(seen.cert.cert, now) then Due
    else if seen.cert.cert.cn != seen.vmid then OtherVM
    else if seen.pub == "" || seen.priv == "" then MissingBlob
    else if decode(seen.pub).Some? && !HoldsKey(seen.cert.cert, decode(seen.pub).value) then KeyMismatch
    else if seen.foreign then ForeignKey
    else NoReason
  }

  function Blob(disk: map<File, string>, f: File): string {
    if f in disk then disk[f] else ""
  }

  /** What was seen is what is there, except that reading may have failed. */
  ghost predicate Saw(seen: Seen, disk: map<File, string>, parse: string -> Option<Cert>,
                      decode: string -> Option<Public>, pairs: set<(string, string)>)
  {
    && (seen.cert.Missing? ==> CertFile !in disk)
    && (seen.cert.Parsed? ==> CertFile in disk && parse(disk[CertFile]) == Some(seen.cert.cert))
    && seen.pub == Blob(disk, PubFile) && seen.priv == Blob(disk, PrivFile)
    && (seen.pub != "" && seen.priv != "" ==>
          (seen.foreign <==> decode(seen.pub).None? || (seen.pub, seen.priv) !in pairs))
  }

  /** The materials fit: a readable certificate, not due, for this VM, over the
      key of the public blob, and blobs this TPM made. */
  ghost predicate Fits(disk: map<File, string>, parse: string -> Option<Cert>, decode: string -> Option<Public>,
                       pairs: set<(string, string)>, vmid: string, now: int)
  {
    && CertFile in disk && PubFile in disk && PrivFile in disk && disk[PubFile] != "" && disk[PrivFile] != ""
    && (disk[PubFile], disk[PrivFile]) in pairs
    && var cert, pub := parse(disk[CertFile]), decode(disk[PubFile]);
       cert.Some? && pub.Some? && !RenewDue(cert.value, now) && cert.value.cn == vmid
         && pub.value.key == Some(cert.value.key)
  }

  /** Without a reason the materials fit, and only then, if the certificate could
      be read. */
  lemma ReasonMeaning(seen: Seen, disk: map<File, string>, parse: string -> Option<Cert>,
                      decode: string -> Option<Public>, pairs: set<(string, string)>, now: int)
    requires Saw(seen, disk, parse, decode, pairs)
    ensures FirstReason(seen, decode, now) == NoReason ==> Fits(disk, parse, decode, pairs, seen.vmid, now)
    ensures Fits(disk, parse, decode, pairs, seen.vmid, now) ==>
              FirstReason(seen, decode, now) in {NoReason, UnreadableCertificate}
    ensures Fits(disk, parse, decode, pairs, seen.vmid, now) && !seen.cert.Unreadable? ==>
              FirstReason(seen, decode, now) == NoReason
  {
  }

  // ----- what is written

  function Apply(disk: map<File, string>, w: Write): map<File, string> {
    match w
    case Removed(f) => disk - {f}
    case Wrote(f, data) => disk[f := data]
  }

  function ApplyAll(disk: map<File, string>, writes: seq<Write>): map<File, string> {
    if writes == [] then disk
    else Apply(ApplyAll(disk, writes[..|writes| - 1]), writes[|writes| - 1])
  }

  lemma ApplyMore(disk: map<File, string>, writes: seq<Write>, w: Write)
    ensures ApplyAll(disk, writes + [w]) == Apply(ApplyAll(disk, writes), w)
  {
    assert (writes + [w])[..|writes|] == writes;
  }

  function Get(disk: map<File, string>, f: File): Option<string> {
    if f in disk then Some(disk[f]) else None
  }

  /** The certificate and the blobs of its key. */
  ghost predicate Stored(disk: map<File, string>, pem: string, priv: string, pub: string) {
    Get(disk, CertFile) == Some(pem) && Get(disk, PrivFile) == Some(priv) && Get(disk, PubFile) == Some(pub)
  }

  /** A certificate other than the one at the start is on disk only after the
      SVID cache was cleared, and only with its key's blobs. */
  ghost predicate SafeNow(disk0: map<File, string>, disk: map<File, string>, spire: bool, priv: string, pub: string) {
    Get(disk, CertFile) != Get(disk0, CertFile) ==>
      && (spire ==> AgentData !in disk && AgentSvid !in disk)
      && Get(disk, PrivFile) == Some(priv) && Get(disk, PubFile) == Some(pub)
  }

  /** A crash may stop the writes anywhere. */
  ghost predicate CrashSafe(disk0: map<File, string>, writes: seq<Write>, spire: bool, priv: string, pub: string) {
    forall n :: 0 <= n <= |writes| ==> SafeNow(disk0, ApplyAll(disk0, writes[..n]), spire, priv, pub)
  }

  lemma CrashSafeMore(disk0: map<File, string>, writes: seq<Write>, w: Write, spire: bool, priv: string, pub: string)
    requires CrashSafe(disk0, writes, spire, priv, pub)
    requires SafeNow(disk0, Apply(ApplyAll(disk0, writes), w), spire, priv, pub)
    ensures CrashSafe(disk0, writes + [w], spire, priv, pub)
  {
    hide SafeNow, ApplyAll, Apply;
    var more := writes + [w];
    forall n | 0 <= n <= |more| ensures SafeNow(disk0, ApplyAll(disk0, more[..n]), spire, priv, pub) {
      if n <= |writes| {
        assert more[..n] == writes[..n];
      } else {
        assert more[..n] == more;
        ApplyMore(disk0, writes, w);
      }
    }
  }

  function DecidedHandles(d: Decision): set<nat> {
    match d
    case Stop => {}
    case Keep(key) => Handles(Some(key))
    case Renew(reason, devID, existing) => Handles(devID)
  }

  class Client {
    const t: Tpm
    const parse: string -> Option<Cert>
    const spire: bool                  // a SPIRE data directory is set
    var disk: map<File, string>
    ghost var writes: seq<Write>       // of the latest run

    constructor (t: Tpm, parse: string -> Option<Cert>, spire: bool, disk: map<File, string>)
      ensures this.t == t && this.parse == parse && this.spire == spire && this.disk == disk && writes == []
    {
      this.t, this.parse, this.spire, this.disk, writes := t, parse, spire, disk, [];
    }

    /** LoadCertPEMFile. */
    method ReadCert() returns (c: CertRead)
      ensures c.Missing? ==> CertFile !in disk
      ensures c.Parsed? ==> CertFile in disk && parse(disk[CertFile]) == Some(c.cert)
    {
      if CertFile !in disk {
        return Missing;
      }
      var readable: bool := *;
      if !readable || disk[CertFile] == "" {
        return Unreadable;
      }
      var cert := parse(disk[CertFile]);
      return if cert.Some? then Parsed(cert.value) else Unreadable;
    }

    method ReadBlob(f: File) returns (ok: bool, data: string)
      ensures ok ==> data == Blob(disk, f)
    {
      ok := *;
      ok := ok || f !in disk;
      data := Blob(disk, f);
    }

    /** Whether to renew, why, and with which key. */
    method Decide(now: int) returns (d: Decision, ghost seen: Seen)
      requires t.Valid()
      modifies t`held, t`stuck, t`resist, t`high, t`peak
      ensures t.Valid() && Over(old(t.S()), t.S(), DecidedHandles(d), 2)
      ensures !d.Stop? ==> Saw(seen, disk, parse, t.decode, t.pairs)
      ensures d.Keep? ==> FirstReason(seen, t.decode, now) == NoReason && IsOwn(t.pairs, t.decode, d.key)
      ensures d.Renew? ==> d.reason == FirstReason(seen, t.decode, now) != NoReason
      ensures d.Renew? && d.devID.Some? ==>
                IsOwn(t.pairs, t.decode, d.devID.value) && d.devID.value.pubBlob == seen.pub
                  && d.devID.value.privBlob == seen.priv
      ensures d.Renew? && d.devID.None? ==> seen.pub == "" || seen.priv == "" || seen.foreign
    {
      hide Over, IsOwn, RenewDue;
      OverNothing(t.S());
      OverMore(t.S(), t.S(), {}, 0, 2);
      seen := Seen(Missing, "", "", "", false);
      var cert := ReadCert();
      var reason := match cert
        case Unreadable => UnreadableCertificate
        case Missing => NoCertificate
        case Parsed(c) => if RenewDue(c, now) then Due else NoReason;
      var vmid := "";
      if cert.Parsed? {
        var ok: bool := *;
        vmid := *;
        if !ok {
          return Stop, seen;
        }
        if reason == NoReason && cert.cert.cn != vmid {
          reason := OtherVM;
        }
      }
      var pubRead, pubBlob := ReadBlob(PubFile);
      if !pubRead {
        return Stop, seen;
      }
      var privRead, privBlob := ReadBlob(PrivFile);
      if !privRead {
        return Stop, seen;
      }
      seen := Seen(cert, vmid, pubBlob, privBlob, false);
      if |pubBlob| == 0 || |privBlob| == 0 {
        return Renew(if reason == NoReason then MissingBlob else reason, None, cert.Parsed?), seen;
      }
      if reason == NoReason {
        var pub := t.decode(pubBlob);
        if pub.Some? && !HoldsKey(cert.cert, pub.value) {
          reason := KeyMismatch;
        }
      }
      var load := LoadDevID(t, pubBlob, privBlob);
      match load
      case Foreign =>
        seen := seen.(foreign := true);
        return Renew(if reason == NoReason then ForeignKey else reason, None, cert.Parsed?), seen;
      case LoadFailed =>
        return Stop, seen;
      case Loaded(key) =>
        OwnPair(t.pairs, t.decode, key);
        return if reason == NoReason then Keep(key) else Renew(reason, Some(key), cert.Parsed?), seen;
    }

    /** writeFileAtomic: the file is replaced as a whole, or not at all. */
    method Replace(f: File, data: string, ghost disk0: map<File, string>, ghost priv: string, ghost pub: string)
      returns (ok: bool)
      requires disk == ApplyAll(disk0, writes) && CrashSafe(disk0, writes, spire, priv, pub)
      requires SafeNow(disk0, disk[f := data], spire, priv, pub)
      modifies this`disk, this`writes
      ensures disk == ApplyAll(disk0, writes) && CrashSafe(disk0, writes, spire, priv, pub)
      ensures disk == if ok then old(disk)[f := data] else old(disk)
    {
      hide SafeNow, CrashSafe, ApplyAll;
      ok := *;
      if ok {
        CrashSafeMore(disk0, writes, Wrote(f, data), spire, priv, pub);
        ApplyMore(disk0, writes, Wrote(f, data));
        disk := disk[f := data];
        writes := writes + [Wrote(f, data)];
      }
    }

    /** os.Remove, for which a missing file is no error. */
    method Remove(f: File, ghost disk0: map<File, string>, ghost priv: string, ghost pub: string) returns (ok: bool)
      requires disk == ApplyAll(disk0, writes) && CrashSafe(disk0, writes, spire, priv, pub)
      requires SafeNow(disk0, disk - {f}, spire, priv, pub)
      modifies this`disk, this`writes
      ensures disk == ApplyAll(disk0, writes) && CrashSafe(disk0, writes, spire, priv, pub)
      ensures disk == if ok then old(disk) - {f} else old(disk)
    {
      hide SafeNow, CrashSafe, ApplyAll;
      if f !in disk {
        assert disk - {f} == disk;
        return true;
      }
      ok := *;
      if ok {
        CrashSafeMore(disk0, writes, Removed(f), spire, priv, pub);
        ApplyMore(disk0, writes, Removed(f));
        disk := disk - {f};
        writes := writes + [Removed(f)];
      }
    }

    /** Clears the SVID cache. */
    method ClearCache(ghost disk0: map<File, string>, ghost priv: string, ghost pub: string) returns (ok: bool)
      requires disk == ApplyAll(disk0, writes) && CrashSafe(disk0, writes, spire, priv, pub)
      requires Get(disk, CertFile) == Get(disk0, CertFile)
      modifies this`disk, this`writes
      ensures disk == ApplyAll(disk0, writes) && CrashSafe(disk0, writes, spire, priv, pub)
      ensures Get(disk, CertFile) == Get(disk0, CertFile)
      ensures ok ==> AgentData !in disk && AgentSvid !in disk
    {
      hide CrashSafe, ApplyAll;
      ok := Remove(AgentData, disk0, priv, pub);
      if ok {
        ok := Remove(AgentSvid, disk0, priv, pub);
      }
    }

    /** The files of a new certificate: the SVID cache goes first, the
        certificate comes last. */
    method Store(oldPEM: string, newPEM: string, privBlob: string, pubBlob: string) returns (ok: bool)
      requires writes == []
      requires oldPEM == newPEM ==> Get(disk, CertFile) == Some(newPEM)
      modifies this`disk, this`writes
      ensures disk == ApplyAll(old(disk), writes) && CrashSafe(old(disk), writes, spire, privBlob, pubBlob)
      ensures ok ==> Stored(disk, newPEM, privBlob, pubBlob)
    {
      hide CrashSafe, ApplyAll;
      ghost var disk0 := disk;
      NothingWritten(disk0, spire, privBlob, pubBlob);
      if oldPEM != newPEM && spire {
        ok := ClearCache(disk0, privBlob, pubBlob);
        if !ok {
          return;
        }
      }
      ok := Replace(PrivFile, privBlob, disk0, privBlob, pubBlob);
      if !ok {
        return;
      }
      ok := Replace(PubFile, pubBlob, disk0, privBlob, pubBlob);
      if !ok {
        return;
      }
      ok := Replace(CertFile, newPEM, disk0, privBlob, pubBlob);
    }

    /** The enroll requests with the new keys: the certificate the service
        answers with, if every step succeeds. */
    method Enroll(res: RequestResources) returns (ok: bool, newPEM: string)
      requires t.Valid() && Ready(t, res)
      modifies t`held, t`stuck, t`resist, t`high, t`peak, t`hashing
      ensures t.Valid() && Over(old(t.S()), t.S(), {}, 1)
      ensures ok ==> newPEM != ""
    {
      hide Over, IsOwn;
      ghost var s0 := t.S();
      newPEM := "";
      var request: string := *;
      var sig;
      ok, sig := HashAndSign(t, res.devID.value.handle, request);
      ghost var s1 := t.S();
      if !ok {
        return;
      }
      ok := *;                       // enroll/start
      if !ok {
        return;
      }
      ExtraHeld(s0, s1, {}, 1);
      var secret;
      ok, secret := res.Activate(t);
      Then(s0, s1, t.S(), {}, 1, {}, 1);
      ghost var none: set<nat> := {};
      assert none + none == none;
      if !ok {
        return;
      }
      newPEM := *;                   // enroll/finish
      ok := newPEM != "";
    }

    /** Renews when the materials do not fit. */
    method EnrollOrRenew(now: int)
      returns (r: Outcome, ghost seen: Seen, ghost priv: string, ghost pub: string, ghost pem: string)
      requires t.Valid()
      modifies this`disk, this`writes, t
      ensures old(t.pairs) <= t.pairs
      ensures t.Valid() && Over(Measured(old(t.S())), t.S(), {}, 3)
      ensures !r.GaveUp? ==> Saw(seen, old(disk), parse, t.decode, old(t.pairs))
      ensures r.Untouched? ==> FirstReason(seen, t.decode, now) == NoReason
      ensures r.Failed? || r.Renewed? ==> r.reason == FirstReason(seen, t.decode, now) != NoReason
      ensures r.Untouched? || r.GaveUp? ==> disk == old(disk) && writes == []
      ensures disk == ApplyAll(old(disk), writes) && CrashSafe(old(disk), writes, spire, priv, pub)
      ensures r.Renewed? ==> Stored(disk, pem, priv, pub) && pem != "" && (pub, priv) in t.pairs
      ensures r.Renewed? && seen.pub != "" && seen.priv != "" && !seen.foreign ==> pub == seen.pub && priv == seen.priv
    {
      hide Over, IsOwn, Saw, FirstReason, CrashSafe, ApplyAll, Handles, Both;
      writes := [];
      t.Measure();
      ghost var s0 := t.S();
      priv, pub, pem := "", "", "";
      NothingWritten(disk, spire, priv, pub);
      var d;
      d, seen := Decide(now);
      ghost var s1 := t.S();
      match d
      case Stop =>
        OverMore(s0, s1, {}, 2, 3);
        return GaveUp, seen, priv, pub, pem;
      case Keep(key) =>
        KeepFlushed(s0, s1, key, t.pairs, t.decode);
        FlushTransient(t, key.handle);
        ThenFlushed(s0, s1, t.S(), Handles(Some(key)), 2, key.handle);
        OverMore(s0, t.S(), Handles(Some(key)) - {key.handle}, 2, 3);
        return Untouched, seen, priv, pub, pem;
      case Renew(reason, devID, existing) =>
        var ok;
        ok, priv, pub, pem := RenewWith(devID, existing, s0);
        r := if ok then Renewed(reason) else Failed(reason);
    }

    /** The renewal itself, with the loaded key or a new one. */
    method RenewWith(devID: Option<Key>, existing: bool, ghost s0: Slots)
      returns (ok: bool, ghost priv: string, ghost pub: string, ghost pem: string)
      requires t.Valid() && writes == [] && Over(s0, t.S(), Handles(devID), 2)
      requires devID.Some? ==> IsOwn(t.pairs, t.decode, devID.value)
      modifies this`disk, this`writes, t
      ensures t.Valid() && Over(s0, t.S(), {}, 3) && old(t.pairs) <= t.pairs
      ensures disk == ApplyAll(old(disk), writes) && CrashSafe(old(disk), writes, spire, priv, pub)
      ensures ok ==> Stored(disk, pem, priv, pub) && pem != "" && (pub, priv) in t.pairs
      ensures ok && devID.Some? ==> pub == devID.value.pubBlob && priv == devID.value.privBlob
    {
      hide Over, IsOwn, CrashSafe, ApplyAll, Handles, Both, KeysDiffer;
      priv, pub, pem := "", "", "";
      NothingWritten(disk, spire, priv, pub);
      var oldPEM := "";
      var readable: bool := *;
      if existing && CertFile in disk && readable {
        oldPEM := disk[CertFile];
      }
      var made, res := CreateSigningRequest(t, devID, s0);
      if !made {
        return false, priv, pub, pem;
      }
      OwnPair(t.pairs, t.decode, res.devID.value);
      var privBlob, pubBlob := res.devID.value.privBlob, res.devID.value.pubBlob;
      ghost var s1 := t.S();
      var newPEM;
      ok, newPEM := Enroll(res);
      Enrolled(s0, s1, t.S(), res.attestation, res.devID);
      if ok {
        ok := Store(oldPEM, newPEM, privBlob, pubBlob);
        priv, pub, pem := privBlob, pubBlob, newPEM;
      }
      res.Flush(t, s0, 3);
    }
  }

  lemma NothingWritten(disk: map<File, string>, spire: bool, priv: string, pub: string)
    ensures ApplyAll(disk, []) == disk && CrashSafe(disk, [], spire, priv, pub)
  {
  }

  lemma KeepFlushed(s0: Slots, s1: Slots, key: Key, pairs: set<(string, string)>, decode: string -> Option<Public>)
    requires Over(s0, s1, Handles(Some(key)), 2) && IsOwn(pairs, decode, key)
    ensures Transient(key.handle) && key.handle != 0 && key.handle in s1.held && key.handle in Handles(Some(key))
    ensures Handles(Some(key)) - {key.handle} == {}
  {
  }

  lemma Enrolled(s0: Slots, s1: Slots, s2: Slots, ak: Option<Key>, devID: Option<Key>)
    requires Over(s0, s1, Both(ak, devID), 3) && Over(s1, s2, {}, 1)
    ensures Over(s0, s2, Both(ak, devID), 3)
  {
    hide Over, Handles, Both;
    Then(s0, s1, s2, Both(ak, devID), 3, {}, 1);
    BothTwo(ak, devID);
    assert Both(ak, devID) + {} == Both(ak, devID);
  }

  lemma BothTwo(ak: Option<Key>, devID: Option<Key>)
    ensures |Both(ak, devID)| <= 2
  {
    HandlesOne(ak);
    HandlesOne(devID);
    assert |Handles(ak) + Handles(devID)| <= |Handles(ak)| + |Handles(devID)|;
  }

  lemma OwnPair(pairs: set<(string, string)>, decode: string -> Option<Public>, key: Key)
    requires IsOwn(pairs, decode, key)
    ensures (key.pubBlob, key.privBlob) in pairs && decode(key.pubBlob) == Some(key.pub)
  {
  }
}
