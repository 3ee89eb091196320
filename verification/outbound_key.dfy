/** The partner-facing key of an intent: its digest, cut into symbols of the
    partner's alphabet, first bit of the first byte first. */
module OutboundKeys {
  import opened Ports
  import opened ExternalBudgets
  import opened ExternalProfiles
  import opened Fingerprints
  import opened Varints

  const DIGEST_BITS := 256

  type Bit = b: int | 0 <= b < 2

  /** "dmpf.outbound-key", as bytes. */
  const OUTBOUND_KEY_DOMAIN: Bytes :=
    [0x64, 0x6D, 0x70, 0x66, 0x2E, 0x6F, 0x75, 0x74, 0x62, 0x6F, 0x75, 0x6E, 0x64, 0x2D, 0x6B, 0x65, 0x79]

  datatype Intent = Intent(tenant: Bytes, destination: Bytes, operation: Bytes, intentID: Bytes, generation: int64)

  datatype KeyError = IncompleteIntent | IncompletePolicy | InvalidProfile

  predicate CompleteIntent(i: Intent) {
    i.intentID != [] && i.destination != [] && i.operation != [] && i.generation >= 0
  }

  function IntentFields(i: Intent): seq<Field> {
    [Text(OUTBOUND_KEY_DOMAIN), Text(i.tenant), Text(i.destination), Text(i.operation), Text(i.intentID), Number(i.generation)]
  }

  /** Bit `i` of a digest, the highest of each byte first. */
  function BitAt(d: Digest, i: nat): Bit
    requires i < DIGEST_BITS
  {
    d[i / 8] / Pow2(7 - i % 8) % 2
  }

  /** The number the `width` bits from `offset` spell. */
  function BitsValue(d: Digest, offset: nat, width: nat): (v: nat)
    requires offset + width <= DIGEST_BITS
    ensures v < Pow2(width)
  {
    if width == 0 then 0 else 2 * BitsValue(d, offset, width - 1) + BitAt(d, offset + width - 1)
  }

  /** The number symbol `i` of `bits` bits spells. */
  function Symbol(d: Digest, bits: nat, i: nat): (v: nat)
    requires i * bits + bits <= DIGEST_BITS
    ensures v < Pow2(bits)
  {
    BitsValue(d, i * bits, bits)
  }

  function KeyLength(p: Profile): (n: int)
    requires ValidProfile(p)
    ensures n >= 1 && n * BitsOf(|p.keyAlphabet|) <= DIGEST_BITS
  {
    AlphabetBits(p.keyAlphabet);
    var bits := BitsOf(|p.keyAlphabet|);
    KeyLengthBounds(p.keyMaxLength, bits);
    if p.keyMaxLength <= DIGEST_BITS / bits then p.keyMaxLength else DIGEST_BITS / bits
  }

  /** Symbol `i` stands at the index its own bits spell. */
  function SymbolIndex(p: Profile, d: Digest, i: nat): (index: nat)
    requires ValidProfile(p) && i < KeyLength(p)
    ensures index < |p.keyAlphabet|
  {
    var bits := BitsOf(|p.keyAlphabet|);
    SymbolFits(i, KeyLength(p), bits);
    Symbol(d, bits, i)
  }

  function KeyOf(p: Profile, d: Digest): (key: seq<byte>)
    requires ValidProfile(p)
    ensures |key| == KeyLength(p)
  {
    seq(KeyLength(p), i requires 0 <= i < KeyLength(p) => p.keyAlphabet[SymbolIndex(p, d, i)])
  }

  method ReadBits(d: Digest, offset: nat, width: nat) returns (value: nat)
    requires offset + width <= DIGEST_BITS
    ensures value == BitsValue(d, offset, width)
  {
    value := 0;
    for bit := offset to offset + width
      invariant value == BitsValue(d, offset, bit - offset)
    {
      value := value * 2 + d[bit / 8] / Pow2(7 - bit % 8) % 2;
    }
  }

  method Canonical(intent: Intent) returns (bytes: seq<byte>)
    ensures bytes == EncodeFields(IntentFields(intent))
  {
    var f := new Fingerprint(OUTBOUND_KEY_DOMAIN);
    f.String(intent.tenant);
    f.String(intent.destination);
    f.String(intent.operation);
    f.String(intent.intentID);
    f.Int(intent.generation);
    assert f.fields == IntentFields(intent);
    return f.canonical;
  }

  method ReadSymbol(p: Profile, d: Digest, bits: nat, i: nat) returns (symbol: byte)
    requires ValidProfile(p) && bits == BitsOf(|p.keyAlphabet|) && i < KeyLength(p)
    ensures symbol == KeyOf(p, d)[i]
  {
    KeyAt(p, d, i);
    var index := ReadBits(d, i * bits, bits);
    return p.keyAlphabet[index];
  }

  method FillKey(p: Profile, d: Digest) returns (key: seq<byte>)
    requires ValidProfile(p)
    ensures key == KeyOf(p, d)
  {
    var bits := SymbolBits(p.keyAlphabet);
    AlphabetBits(p.keyAlphabet);
    var length := if p.keyMaxLength <= DIGEST_BITS / bits then p.keyMaxLength else DIGEST_BITS / bits;
    assert length == KeyLength(p);
    key := [];
    for i := 0 to length
      invariant key == KeyOf(p, d)[..i]
    {
      var symbol := ReadSymbol(p, d, bits, i);
      key := key + [symbol];
    }
  }

  /** Refusals in order; then the key, filled symbol by symbol. */
  method DeriveOutboundKey(digest: Option<seq<byte> -> Digest>, p: Profile, intent: Intent) returns (key: Result<seq<byte>, KeyError>)
    ensures key == Err(IncompleteIntent) <==> !CompleteIntent(intent)
    ensures key == Err(IncompletePolicy) <==> CompleteIntent(intent) && digest.None?
    ensures key == Err(InvalidProfile) <==> CompleteIntent(intent) && digest.Some? && !ValidProfile(p)
    ensures key.Ok? ==> key.value == KeyOf(p, digest.value(EncodeFields(IntentFields(intent))))
  {
    if intent.intentID == [] || intent.destination == [] || intent.operation == [] || intent.generation < 0 {
      return Err(IncompleteIntent);
    }
    if digest.None? {
      return Err(IncompletePolicy);
    }
    var valid := ValidateExternalProfile(p);
    if !valid {
      return Err(InvalidProfile);
    }
    var canonical := Canonical(intent);
    var filled := FillKey(p, digest.value(canonical));
    return Ok(filled);
  }

  lemma KeyLengthBounds(maxLength: int, bits: int)
    requires 1 <= bits <= 6 && maxLength * bits >= MIN_KEY_BITS
    ensures var n := if maxLength <= DIGEST_BITS / bits then maxLength else DIGEST_BITS / bits;
      n >= 1 && MIN_KEY_BITS <= n * bits <= DIGEST_BITS
  {
    assert DIGEST_BITS / bits * bits + DIGEST_BITS % bits == DIGEST_BITS;
    if maxLength <= DIGEST_BITS / bits {
      assert maxLength * bits <= DIGEST_BITS / bits * bits;
      assert maxLength > 0;
    }
  }

  lemma SymbolFits(i: nat, length: nat, bits: nat)
    requires i < length
    ensures 0 <= i * bits && i * bits + bits <= length * bits
  {
    assert (i + 1) * bits <= length * bits;
  }

  lemma KeyAt(p: Profile, d: Digest, i: nat)
    requires ValidProfile(p) && i < KeyLength(p)
    ensures var bits := BitsOf(|p.keyAlphabet|);
      && 0 <= i * bits && i * bits + bits <= DIGEST_BITS
      && BitsValue(d, i * bits, bits) < |p.keyAlphabet|
      && KeyOf(p, d)[i] == p.keyAlphabet[BitsValue(d, i * bits, bits)]
  {
    SymbolFits(i, KeyLength(p), BitsOf(|p.keyAlphabet|));
    assert KeyOf(p, d)[i] == p.keyAlphabet[SymbolIndex(p, d, i)];
  }

  /** Never below the 128 bits a drawn idempotency key has, and every symbol is
      among the first 2^bits of the alphabet. */
  lemma KeyStrength(p: Profile, d: Digest, i: nat)
    requires ValidProfile(p) && i < KeyLength(p)
    ensures KeyLength(p) * BitsOf(|p.keyAlphabet|) >= MIN_KEY_BITS
    ensures SymbolIndex(p, d, i) < Pow2(BitsOf(|p.keyAlphabet|)) <= |p.keyAlphabet|
    ensures KeyOf(p, d)[i] == p.keyAlphabet[SymbolIndex(p, d, i)]
  {
    AlphabetBits(p.keyAlphabet);
    KeyLengthBounds(p.keyMaxLength, BitsOf(|p.keyAlphabet|));
  }

  ghost predicate AgreeOn(d: Digest, e: Digest, offset: nat, end: nat)
    requires end <= DIGEST_BITS
  {
    forall i :: offset <= i < end ==> BitAt(d, i) == BitAt(e, i)
  }

  lemma {:induction false} SameValueSameBits(d: Digest, e: Digest, offset: nat, width: nat)
    requires offset + width <= DIGEST_BITS
    ensures BitsValue(d, offset, width) == BitsValue(e, offset, width) <==> AgreeOn(d, e, offset, offset + width)
  {
    if width > 0 {
      SameValueSameBits(d, e, offset, width - 1);
    }
  }

  ghost predicate SymbolsEqual(d: Digest, e: Digest, bits: nat, n: nat)
    requires n * bits <= DIGEST_BITS
  {
    forall i :: 0 <= i < n ==> SymbolEqual(d, e, bits, n, i)
  }

  ghost predicate SymbolEqual(d: Digest, e: Digest, bits: nat, n: nat, i: nat)
    requires i < n && n * bits <= DIGEST_BITS
  {
    SymbolFits(i, n, bits);
    Symbol(d, bits, i) == Symbol(e, bits, i)
  }

  lemma LastSymbol(d: Digest, e: Digest, bits: nat, n: nat)
    requires n > 0 && n * bits <= DIGEST_BITS && (n - 1) * bits + bits == n * bits
    ensures SymbolsEqual(d, e, bits, n)
       <==> SymbolsEqual(d, e, bits, n - 1) && Symbol(d, bits, n - 1) == Symbol(e, bits, n - 1)
  {
    assert SymbolEqual(d, e, bits, n, n - 1) == (Symbol(d, bits, n - 1) == Symbol(e, bits, n - 1));
    var m := n - 1;
    if SymbolsEqual(d, e, bits, n) {
      forall i | 0 <= i < m ensures SymbolEqual(d, e, bits, m, i) {
        assert SymbolEqual(d, e, bits, n, i);
      }
    }
    if SymbolsEqual(d, e, bits, n - 1) && Symbol(d, bits, n - 1) == Symbol(e, bits, n - 1) {
      forall i | 0 <= i < n ensures SymbolEqual(d, e, bits, n, i) {
        if i < m {
          assert SymbolEqual(d, e, bits, m, i);
        }
      }
    }
  }

  lemma AgreeJoins(d: Digest, e: Digest, mid: nat, end: nat)
    requires mid <= end <= DIGEST_BITS
    ensures AgreeOn(d, e, 0, end) <==> AgreeOn(d, e, 0, mid) && AgreeOn(d, e, mid, end)
  {
  }

  /** The first `n` symbols agree exactly when the bits they were cut from do. */
  lemma {:induction false} SymbolsAgree(d: Digest, e: Digest, bits: nat, n: nat)
    requires n * bits <= DIGEST_BITS
    ensures SymbolsEqual(d, e, bits, n) <==> AgreeOn(d, e, 0, n * bits)
  {
    if n > 0 {
      var mid: nat := (n - 1) * bits;
      assert mid + bits == n * bits;
      SymbolsAgree(d, e, bits, n - 1);
      LastSymbol(d, e, bits, n);
      SameValueSameBits(d, e, mid, bits);
      AgreeJoins(d, e, mid, mid + bits);
    }
  }

  /** Two digests give the same key exactly when they agree on its bits: nothing of
      those bits is lost in the alphabet, and nothing past them shows. */
  lemma KeysAgreeExactlyWhen(p: Profile, d: Digest, e: Digest)
    requires ValidProfile(p)
    ensures KeyOf(p, d) == KeyOf(p, e) <==> AgreeOn(d, e, 0, KeyLength(p) * BitsOf(|p.keyAlphabet|))
  {
    var n, bits := KeyLength(p), BitsOf(|p.keyAlphabet|);
    SymbolsAgree(d, e, bits, n);
    var k, l := KeyOf(p, d), KeyOf(p, e);
    forall i | 0 <= i < n ensures k[i] == l[i] <==> SymbolEqual(d, e, bits, n, i) {
      DistinctSymbols(p.keyAlphabet, SymbolIndex(p, d, i), SymbolIndex(p, e, i));
    }
    assert k == l <==> forall i :: 0 <= i < n ==> k[i] == l[i];
  }

  lemma DistinctSymbols(alphabet: seq<byte>, i: nat, j: nat)
    requires ValidAlphabet(alphabet) && i < |alphabet| && j < |alphabet|
    ensures alphabet[i] == alphabet[j] <==> i == j
  {
  }

  /** Distinct intents are digested from distinct bytes: tenant, destination,
      operation, intent and generation are each read back. */
  lemma IntentsAreSingledOut(a: Intent, b: Intent)
    requires EncodeFields(IntentFields(a)) == EncodeFields(IntentFields(b))
    ensures a == b
  {
    FieldsInjective(IntentFields(a), IntentFields(b));
    var f, g := IntentFields(a), IntentFields(b);
    assert f[1] == g[1] && f[2] == g[2] && f[3] == g[3] && f[4] == g[4] && f[5] == g[5];
  }
}
