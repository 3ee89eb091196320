/** The varint layout, on integers with the wrap of their 64 bits written out:
    a shift left is a product, a mask a remainder, a complement a subtraction. */
module Varints {
  import opened ExternalProfiles
  import opened ExternalBudgets

  type uint64 = x: int | 0 <= x < 0x1_0000_0000_0000_0000

  const MAX_VARINT_LEN := 10

  /** A string whose length a 64-bit prefix holds. */
  type Bytes = s: seq<byte> | |s| < 0x1_0000_0000_0000_0000

  function Pow128(i: nat): (p: nat)
    ensures p >= 1
  {
    if i == 0 then 1 else 128 * Pow128(i - 1)
  }

  function Uvarint(v: nat): (s: seq<byte>)
    ensures |s| >= 1 && (v >= 1 ==> |s| <= v)
  {
    if v < 0x80 then [v] else [v % 0x80 + 0x80] + Uvarint(v / 0x80)
  }

  /** Signed values alternate: 0, -1, 1, -2, ... */
  function Zigzag(v: int64): (z: uint64)
    ensures z % 2 == 0 <==> v >= 0
  {
    if v >= 0 then 2 * v else -2 * v - 1
  }

  function Unzigzag(z: uint64): (v: int64)
  {
    if z % 2 == 0 then z / 2 else -(z / 2) - 1
  }

  function Varint(v: int64): seq<byte> {
    Uvarint(Zigzag(v))
  }

  /** The read from position `i`, with what the bytes before it contributed. A
      negative count reports an overlong value, zero a cut one. */
  function ReadFrom(buf: seq<byte>, i: nat, value: nat): (r: (nat, int))
    decreases |buf| - i
  {
    if i >= |buf| then (0, 0)
    else if i == MAX_VARINT_LEN || (i == MAX_VARINT_LEN - 1 && buf[i] > 1) then (0, -(i + 1))
    else if buf[i] < 0x80 then (value + buf[i] * Pow128(i), i + 1)
    else ReadFrom(buf, i + 1, value + (buf[i] - 0x80) * Pow128(i))
  }

  function ReadUvarint(buf: seq<byte>): (nat, int) {
    ReadFrom(buf, 0, 0)
  }

  method AppendUvarint(buf: seq<byte>, value: uint64) returns (out: seq<byte>)
    ensures out == buf + Uvarint(value)
  {
    out := buf;
    var rest := value;
    while rest >= 0x80
      invariant rest >= 0
      invariant out + Uvarint(rest) == buf + Uvarint(value)
    {
      assert out + Uvarint(rest) == out + [rest % 0x80 + 0x80] + Uvarint(rest / 0x80);
      out := out + [rest % 0x80 + 0x80];
      rest := rest / 0x80;
    }
    out := out + [rest];
  }

  method AppendVarint(buf: seq<byte>, value: int64) returns (out: seq<byte>)
    ensures out == buf + Varint(value)
  {
    var zigzag: uint64 := (if value < 0 then value + TWO_64 else value) * 2 % TWO_64;
    if value < 0 {
      zigzag := TWO_64 - 1 - zigzag;
    }
    assert zigzag == Zigzag(value);
    out := AppendUvarint(buf, zigzag);
  }

  method ReadUvarintLoop(buf: seq<byte>) returns (value: uint64, n: int)
    ensures (value, n) == ReadUvarint(buf)
  {
    var sum: nat, scale: nat := 0, 1;
    for i := 0 to |buf|
      invariant i <= MAX_VARINT_LEN
      invariant scale == Pow128(i)
      invariant sum < Pow128(i)
      invariant ReadFrom(buf, i, sum) == ReadFrom(buf, 0, 0)
    {
      var b: int := buf[i];
      if i == MAX_VARINT_LEN || (i == MAX_VARINT_LEN - 1 && b > 1) {
        return 0, -(i + 1);
      }
      NextFits(sum, b % 0x80, i);
      if b < 0x80 {
        return sum + b * scale, i + 1;
      }
      sum := sum + (b - 0x80) * scale;
      scale := 128 * scale;
    }
    return 0, 0;
  }

  method ReadVarint(buf: seq<byte>) returns (value: int64, n: int)
    ensures var (z, m) := ReadUvarint(buf); 0 <= z < TWO_64 && value == Unzigzag(z) && n == m
  {
    var zigzag, m := ReadUvarintLoop(buf);
    value := zigzag / 2;
    if zigzag % 2 != 0 {
      value := -1 - value;
    }
    n := m;
  }

  lemma Powers()
    ensures Pow128(1) == 0x80 && Pow128(9) == 0x8000_0000_0000_0000 && Pow128(10) == 64 * TWO_64
    ensures forall i: nat :: i <= 9 ==> Pow128(i) <= Pow128(9)
  {
    assert Pow128(2) == 0x4000;
    assert Pow128(3) == 0x20_0000;
    assert Pow128(4) == 0x1000_0000;
    assert Pow128(5) == 0x8_0000_0000;
    assert Pow128(6) == 0x400_0000_0000;
    assert Pow128(7) == 0x2_0000_0000_0000;
    assert Pow128(8) == 0x100_0000_0000_0000;
    assert Pow128(9) == 0x8000_0000_0000_0000;
    forall i: nat | i <= 9 ensures Pow128(i) <= Pow128(9) {
      PowMonotone(i, 9);
    }
  }

  lemma {:induction false} PowMonotone(a: nat, b: nat)
    requires a <= b
    ensures Pow128(a) <= Pow128(b)
    decreases b
  {
    if a < b {
      PowMonotone(a, b - 1);
    }
  }

  /** One more group of seven bits keeps the sum below the next power, and below
      2^64 when the tenth group has one bit. */
  lemma NextFits(sum: nat, digit: nat, i: nat)
    requires sum < Pow128(i) && digit < 128
    requires i <= 9 && (i == 9 ==> digit <= 1)
    ensures sum + digit * Pow128(i) < Pow128(i + 1)
    ensures sum + digit * Pow128(i) < TWO_64
  {
    assert digit * Pow128(i) <= 127 * Pow128(i);
    Powers();
    if i < 9 {
      PowMonotone(i + 1, 9);
    }
  }

  lemma UnzigzagZigzag(v: int64)
    ensures Unzigzag(Zigzag(v)) == v
  {
  }

  /** The low group and the rest, each at its weight. */
  lemma SplitGroup(v: nat, i: nat)
    ensures v * Pow128(i) == v / 0x80 * Pow128(i + 1) + v % 0x80 * Pow128(i)
  {
    var p := Pow128(i);
    assert v == v / 0x80 * 0x80 + v % 0x80;
    assert v * p == v / 0x80 * 0x80 * p + v % 0x80 * p;
    assert v / 0x80 * 0x80 * p == v / 0x80 * (0x80 * p);
  }

  /** A 64-bit value has a tenth group of one bit at most, and no eleventh. */
  lemma GroupsOf64Bits(v: nat, i: nat)
    requires v >= 1 && v * Pow128(i) < TWO_64
    ensures i <= 9 && (i == 9 ==> v <= 1)
  {
    Powers();
    if i >= 10 {
      PowMonotone(10, i);
    }
    assert v * Pow128(i) >= Pow128(i);
  }

  /** Reading in the middle of a buffer, after `i` groups were consumed. */
  lemma {:induction false} ReadInverts(buf: seq<byte>, i: nat, value: nat, v: nat, suffix: seq<byte>)
    requires i <= |buf| && buf[i..] == Uvarint(v) + suffix
    requires v * Pow128(i) < TWO_64 && (i == 0 || v >= 1)
    ensures ReadFrom(buf, i, value) == (value + v * Pow128(i), i + |Uvarint(v)|)
    decreases v
  {
    assert buf[i] == buf[i..][0];
    if v >= 1 {
      GroupsOf64Bits(v, i);
    }
    if v >= 0x80 {
      assert buf[i + 1..] == buf[i..][1..] == Uvarint(v / 0x80) + suffix;
      SplitGroup(v, i);
      ReadInverts(buf, i + 1, value + v % 0x80 * Pow128(i), v / 0x80, suffix);
    }
  }

  /** Reads invert writes on every 64-bit value, whatever follows. */
  lemma UvarintRoundTrip(v: uint64, suffix: seq<byte>)
    ensures ReadUvarint(Uvarint(v) + suffix) == (v, |Uvarint(v)|)
  {
    var buf := Uvarint(v) + suffix;
    assert buf[0..] == buf;
    ReadInverts(buf, 0, 0, v, suffix);
  }

  /** No encoding is a prefix of another: what was written is what is read back. */
  lemma UvarintPrefixFree(v: uint64, s: seq<byte>, w: uint64, t: seq<byte>)
    requires Uvarint(v) + s == Uvarint(w) + t
    ensures v == w && s == t
  {
    UvarintRoundTrip(v, s);
    UvarintRoundTrip(w, t);
    assert s == (Uvarint(v) + s)[|Uvarint(v)|..];
    assert t == (Uvarint(w) + t)[|Uvarint(w)|..];
  }
}
