/** The canonical encoding of a command: every field carries its kind and its length. */
module Fingerprints {
  import opened ExternalProfiles
  import opened ExternalBudgets
  import opened Varints

  const FIELD_STRING: byte := 0x73
  const FIELD_INT: byte := 0x69

  /** What the digest of a canonical encoding returns: 32 bytes. */
  type Digest = d: seq<byte> | |d| == 32 witness seq(32, _ => 0)

  datatype Field = Text(text: Bytes) | Number(number: int64)

  function Kind(f: Field): byte {
    if f.Text? then FIELD_STRING else FIELD_INT
  }

  function Payload(f: Field): Bytes {
    match f
    case Text(text) => text
    case Number(number) => Varint(number)
  }

  function EncodeField(f: Field): seq<byte> {
    [Kind(f)] + (Uvarint(|Payload(f)|) + Payload(f))
  }

  function EncodeFields(fields: seq<Field>): seq<byte> {
    if fields == [] then [] else EncodeField(fields[0]) + EncodeFields(fields[1..])
  }

  class Fingerprint {
    var canonical: seq<byte>
    ghost var fields: seq<Field>

    ghost predicate Valid()
      reads this
    {
      canonical == EncodeFields(fields)
    }

    constructor Empty()
      ensures Valid() && fields == []
    {
      canonical := [];
      fields := [];
    }

    constructor (operation: Bytes)
      ensures Valid() && fields == [Text(operation)]
    {
      canonical := [];
      fields := [];
      new;
      String(operation);
    }

    method String(value: Bytes)
      requires Valid()
      modifies this
      ensures Valid() && fields == old(fields) + [Text(value)]
    {
      Append(FIELD_STRING, value);
      EncodeFieldsSnoc(fields, Text(value));
      fields := fields + [Text(value)];
    }

    method Int(value: int64)
      requires Valid()
      modifies this
      ensures Valid() && fields == old(fields) + [Number(value)]
    {
      var data := AppendVarint([], value);
      assert data == Varint(value);
      Append(FIELD_INT, data);
      EncodeFieldsSnoc(fields, Number(value));
      fields := fields + [Number(value)];
    }

    /** The bytes the digest reads: the registered operation leads. */
    method Under(operation: Bytes) returns (bytes: seq<byte>)
      requires Valid()
      ensures bytes == EncodeFields([Text(operation)] + fields)
    {
      var scoped := new Fingerprint(operation);
      EncodeFieldsCons(Text(operation), []);
      EncodeFieldsCons(Text(operation), fields);
      assert scoped.fields == [Text(operation)] + [];
      return scoped.canonical + canonical;
    }

    method Append(kind: byte, data: Bytes)
      modifies this`canonical
      ensures canonical == old(canonical) + ([kind] + (Uvarint(|data|) + data))
    {
      canonical := canonical + [kind];
      canonical := AppendUvarint(canonical, |data|);
      canonical := canonical + data;
    }
  }

  lemma EncodeFieldsCons(f: Field, fields: seq<Field>)
    ensures EncodeFields([f] + fields) == EncodeField(f) + EncodeFields(fields)
  {
    assert ([f] + fields)[1..] == fields;
  }

  lemma {:induction false} EncodeFieldsSnoc(fields: seq<Field>, f: Field)
    ensures EncodeFields(fields + [f]) == EncodeFields(fields) + EncodeField(f)
  {
    if fields == [] {
      assert EncodeFields([f]) == EncodeField(f) + EncodeFields([]);
    } else {
      assert (fields + [f])[1..] == fields[1..] + [f];
      EncodeFieldsSnoc(fields[1..], f);
    }
  }

  /** A field is read back from the front of any bytes that follow it. */
  lemma FieldPrefixFree(f: Field, s: seq<byte>, g: Field, t: seq<byte>)
    requires EncodeField(f) + s == EncodeField(g) + t
    ensures f == g && s == t
  {
    var p, q := Payload(f), Payload(g);
    assert Kind(f) == (EncodeField(f) + s)[0] == Kind(g);
    assert Uvarint(|p|) + (p + s) == (EncodeField(f) + s)[1..];
    assert Uvarint(|q|) + (q + t) == (EncodeField(g) + t)[1..];
    UvarintPrefixFree(|p|, p + s, |q|, q + t);
    assert p == (p + s)[..|p|] == q;
    assert s == (p + s)[|p|..] == t;
    if f.Number? {
      UvarintPrefixFree(Zigzag(f.number), [], Zigzag(g.number), []);
      UnzigzagZigzag(f.number);
      UnzigzagZigzag(g.number);
    }
  }

  /** The bytes determine every typed field, in order and in number. */
  lemma {:induction false} FieldsInjective(fs: seq<Field>, gs: seq<Field>)
    requires EncodeFields(fs) == EncodeFields(gs)
    ensures fs == gs
    decreases |fs|
  {
    if fs != [] && gs != [] {
      FieldPrefixFree(fs[0], EncodeFields(fs[1..]), gs[0], EncodeFields(gs[1..]));
      FieldsInjective(fs[1..], gs[1..]);
      assert fs == [fs[0]] + fs[1..] && gs == [gs[0]] + gs[1..];
    }
  }

  /** What the inbox compares names the operation and the fields: distinct commands
      never share their canonical bytes, whatever their operations and fields hold. */
  lemma UnderInjective(op1: Bytes, fields1: seq<Field>, op2: Bytes, fields2: seq<Field>)
    requires EncodeFields([Text(op1)] + fields1) == EncodeFields([Text(op2)] + fields2)
    ensures op1 == op2 && fields1 == fields2
  {
    var a, b := [Text(op1)] + fields1, [Text(op2)] + fields2;
    FieldsInjective(a, b);
    assert a[0] == b[0] && fields1 == a[1..] && fields2 == b[1..];
  }
}
