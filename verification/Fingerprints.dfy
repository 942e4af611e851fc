/** The digest of everything an inventory backend reads (internal/inventory:
    fingerprint). Strings are byte strings, one character a byte. */
module Fingerprints {

  const LENGTH_BYTES: nat := 8

  /** One input: its kind and its bytes. */
  datatype Field = Field(kind: char, data: string)

  function Pow256(k: nat): nat {
    if k == 0 then 1 else 256 * Pow256(k - 1)
  }

  /** n in k bytes, the most significant first. */
  function BigEndian(n: nat, k: nat): (s: string)
    ensures |s| == k
  {
    if k == 0 then "" else BigEndian(n / 256, k - 1) + [(n % 256) as char]
  }

  lemma {:induction false} BigEndianInjective(m: nat, n: nat, k: nat)
    requires m < Pow256(k) && n < Pow256(k)
    requires BigEndian(m, k) == BigEndian(n, k)
    ensures m == n
  {
    if k > 0 {
      var a, b := BigEndian(m, k), BigEndian(n, k);
      assert a[k - 1] == (m % 256) as char && b[k - 1] == (n % 256) as char;
      assert a[..k - 1] == BigEndian(m / 256, k - 1) && b[..k - 1] == BigEndian(n / 256, k - 1);
      BigEndianInjective(m / 256, n / 256, k - 1);
    }
  }

  /** A field as it is written: kind, length, bytes. */
  function EncodeField(f: Field): string {
    [f.kind] + BigEndian(|f.data|, LENGTH_BYTES) + f.data
  }

  function Encode(fields: seq<Field>): string {
    if fields == [] then "" else EncodeField(fields[0]) + Encode(fields[1..])
  }

  /** Every length fits its eight bytes. */
  ghost predicate Sized(fields: seq<Field>) {
    forall i :: 0 <= i < |fields| ==> |fields[i].data| < Pow256(LENGTH_BYTES)
  }

  /** The first field can be read off what follows it. */
  lemma FieldInjective(f: Field, rest: string, g: Field, rest': string)
    requires |f.data| < Pow256(LENGTH_BYTES) && |g.data| < Pow256(LENGTH_BYTES)
    requires EncodeField(f) + rest == EncodeField(g) + rest'
    ensures f == g && rest == rest'
  {
    hide Pow256, BigEndian;
    var n := LENGTH_BYTES + 1;
    var a, b := EncodeField(f) + rest, EncodeField(g) + rest';
    assert a[0] == f.kind && b[0] == g.kind;
    assert a[1..n] == BigEndian(|f.data|, LENGTH_BYTES) && b[1..n] == BigEndian(|g.data|, LENGTH_BYTES);
    BigEndianInjective(|f.data|, |g.data|, LENGTH_BYTES);
    var m := n + |f.data|;
    assert a[n..m] == f.data && b[n..m] == g.data;
    assert a[m..] == rest && b[m..] == rest';
  }

  /** No two sequences of inputs are written the same. */
  lemma {:induction false} EncodeInjective(fields: seq<Field>, fields': seq<Field>)
    requires Sized(fields) && Sized(fields')
    requires Encode(fields) == Encode(fields')
    ensures fields == fields'
  {
    hide Pow256, EncodeField;
    if fields == [] || fields' == [] {
      NotEmpty(fields);
      NotEmpty(fields');
    } else {
      FieldInjective(fields[0], Encode(fields[1..]), fields'[0], Encode(fields'[1..]));
      EncodeInjective(fields[1..], fields'[1..]);
      assert fields == [fields[0]] + fields[1..] && fields' == [fields'[0]] + fields'[1..];
    }
  }

  lemma NotEmpty(fields: seq<Field>)
    ensures Encode(fields) == "" <==> fields == []
  {
    hide BigEndian;
  }

  lemma {:induction false} EncodeAppend(fields: seq<Field>, f: Field)
    ensures Encode(fields + [f]) == Encode(fields) + EncodeField(f)
  {
    hide EncodeField;
    if fields == [] {
      assert [f][1..] == [];
      assert EncodeField(f) + "" == EncodeField(f);
    } else {
      EncodeAppend(fields[1..], f);
      assert (fields + [f])[1..] == fields[1..] + [f];
    }
  }

  /** What reading a file gives. */
  datatype FileState = Content(data: string) | Absent | Broken(message: string)

  /** The marker of a file's state. */
  function StateField(state: FileState): Field {
    match state
    case Content(data) => Field('c', data)
    case Absent => Field('m', "")
    case Broken(message) => Field('e', message)
  }

  function FileFields(path: string, state: FileState): seq<Field> {
    [Field('p', path), StateField(state)]
  }

  lemma StateInjective(s: FileState, s': FileState)
    requires StateField(s) == StateField(s')
    ensures s == s'
  {
  }

  /** Accumulates inputs; written is what the hash has been fed. */
  class FingerprintBuilder {
    var written: string
    ghost var fields: seq<Field>

    ghost predicate Valid()
      reads this
    {
      written == Encode(fields)
    }

    constructor ()
      ensures Valid() && fields == []
    {
      written, fields := "", [];
    }

    method AddField(kind: char, data: string)
      requires Valid()
      modifies this
      ensures Valid() && fields == old(fields) + [Field(kind, data)]
    {
      hide Encode, BigEndian;
      EncodeAppend(fields, Field(kind, data));
      ghost var before := written;
      written := written + [kind];
      written := written + BigEndian(|data|, LENGTH_BYTES);
      written := written + data;
      fields := fields + [Field(kind, data)];
      assert written == before + EncodeField(Field(kind, data));
    }

    method AddString(s: string)
      requires Valid()
      modifies this
      ensures Valid() && fields == old(fields) + [Field('s', s)]
    {
      AddField('s', s);
    }

    method AddFile(path: string, state: FileState)
      requires Valid()
      modifies this
      ensures Valid() && fields == old(fields) + FileFields(path, state)
    {
      AddField('p', path);
      match state
      case Content(data) => AddField('c', data);
      case Absent => AddField('m', "");
      case Broken(message) => AddField('e', message);
    }
  }
}
