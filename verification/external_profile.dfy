/** The partner's declaration: what makes a profile valid, and the key bits it carries. */
module ExternalProfiles {

  type byte = x: int | 0 <= x < 256

  datatype KeySemantics = KeyUndeclared | KeyNative | KeyHeader | KeyNone

  datatype Efficacy = EfficacyUndeclared | EfficacyOnSubmit | EfficacyByObservation

  /** The alphabet is a byte string. */
  datatype Profile = Profile(
    keySemantics: KeySemantics,
    efficacy: Efficacy,
    quiescence: int,
    authoritativeAbsence: bool,
    maxQueries: int,
    keyAlphabet: seq<byte>,
    keyMaxLength: int)

  const MIN_KEY_BITS := 128
  const FIRST_KEY_SYMBOL := 0x21
  const LAST_KEY_SYMBOL := 0x7E

  function Pow2(n: nat): (p: nat)
    ensures p >= 1
  {
    if n == 0 then 1 else 2 * Pow2(n - 1)
  }

  /** Whole bits one symbol of an alphabet of `n` symbols carries. */
  function BitsOf(n: nat): (bits: nat)
    ensures n >= 1 ==> Pow2(bits) <= n < Pow2(bits + 1)
    ensures bits == 0 <==> n <= 1
  {
    if n <= 1 then 0 else 1 + BitsOf(n / 2)
  }

  ghost predicate ValidAlphabet(alphabet: seq<byte>) {
    && (forall i :: 0 <= i < |alphabet| ==> FIRST_KEY_SYMBOL <= alphabet[i] <= LAST_KEY_SYMBOL)
    && (forall i, j :: 0 <= i < j < |alphabet| ==> alphabet[i] != alphabet[j])
    && |alphabet| >= 2
  }

  /** A key of the declared length reaches 128 bits in the declared alphabet. */
  ghost predicate ValidProfile(p: Profile) {
    && !p.keySemantics.KeyUndeclared?
    && !p.efficacy.EfficacyUndeclared?
    && p.quiescence >= 0
    && p.maxQueries > 0
    && ValidAlphabet(p.keyAlphabet)
    && p.keyMaxLength * BitsOf(|p.keyAlphabet|) >= MIN_KEY_BITS
  }

  method SymbolBits(alphabet: seq<byte>) returns (bits: nat)
    ensures bits == BitsOf(|alphabet|)
  {
    bits := 0;
    var n := |alphabet|;
    while n > 1
      invariant n >= 0
      invariant bits + BitsOf(n) == BitsOf(|alphabet|)
    {
      n := n / 2;
      bits := bits + 1;
    }
  }

  method ValidateKeyAlphabet(alphabet: seq<byte>) returns (ok: bool)
    ensures ok <==> ValidAlphabet(alphabet)
  {
    var seen := new bool[LAST_KEY_SYMBOL + 1](_ => false);
    for i := 0 to |alphabet|
      invariant forall k :: 0 <= k < i ==> FIRST_KEY_SYMBOL <= alphabet[k] <= LAST_KEY_SYMBOL
      invariant forall k, l :: 0 <= k < l < i ==> alphabet[k] != alphabet[l]
      invariant forall b :: 0 <= b <= LAST_KEY_SYMBOL ==> (seen[b] <==> exists k :: 0 <= k < i && alphabet[k] == b)
    {
      var b := alphabet[i];
      if b < FIRST_KEY_SYMBOL || b > LAST_KEY_SYMBOL || seen[b] {
        return false;
      }
      seen[b] := true;
    }
    var bits := SymbolBits(alphabet);
    return bits != 0;
  }

  method ValidateExternalProfile(p: Profile) returns (ok: bool)
    ensures ok <==> ValidProfile(p)
  {
    if p.keySemantics.KeyUndeclared? || p.efficacy.EfficacyUndeclared? || p.quiescence < 0 || p.maxQueries <= 0 {
      return false;
    }
    var alphabet := ValidateKeyAlphabet(p.keyAlphabet);
    if !alphabet {
      return false;
    }
    var bits := SymbolBits(p.keyAlphabet);
    var minLength := (MIN_KEY_BITS + bits - 1) / bits;
    CeilingMeansAtLeast(p.keyMaxLength, bits);
    return p.keyMaxLength >= minLength;
  }

  lemma CeilingMeansAtLeast(length: int, bits: nat)
    requires bits > 0
    ensures length >= (MIN_KEY_BITS + bits - 1) / bits <==> length * bits >= MIN_KEY_BITS
  {
    var q, r := (MIN_KEY_BITS + bits - 1) / bits, (MIN_KEY_BITS + bits - 1) % bits;
    assert q * bits + r == MIN_KEY_BITS + bits - 1;
    if length >= q {
      assert length * bits >= q * bits;
    } else {
      assert length * bits <= (q - 1) * bits;
    }
  }

  /** Six bits at most: the visible ASCII bytes are 94. */
  lemma AlphabetBits(alphabet: seq<byte>)
    requires ValidAlphabet(alphabet)
    ensures 1 <= BitsOf(|alphabet|) <= 6
  {
    AlphabetSize(alphabet, LAST_KEY_SYMBOL);
    assert Pow2(7) == 128;
    if BitsOf(|alphabet|) >= 7 {
      Pow2Monotone(7, BitsOf(|alphabet|));
    }
  }

  lemma {:induction false} Pow2Monotone(a: nat, b: nat)
    requires a <= b
    ensures Pow2(a) <= Pow2(b)
    decreases b
  {
    if a < b {
      Pow2Monotone(a, b - 1);
    }
  }

  /** Distinct bytes up to `top` from the first symbol are no more than the range. */
  lemma {:induction false} AlphabetSize(alphabet: seq<byte>, top: int)
    requires FIRST_KEY_SYMBOL - 1 <= top <= LAST_KEY_SYMBOL
    requires forall i :: 0 <= i < |alphabet| ==> FIRST_KEY_SYMBOL <= alphabet[i] <= top
    requires forall i, j :: 0 <= i < j < |alphabet| ==> alphabet[i] != alphabet[j]
    ensures |alphabet| <= top - FIRST_KEY_SYMBOL + 1
    decreases top
  {
    if |alphabet| > 0 {
      if top in alphabet {
        var i :| 0 <= i < |alphabet| && alphabet[i] == top;
        AlphabetSize(alphabet[..i] + alphabet[i + 1..], top - 1);
      } else {
        AlphabetSize(alphabet, top - 1);
      }
    }
  }
}
