/**
  CAN signals, and how a signal is written into and read from a payload. The
  bit layout, two's complement and the truncating physical-to-raw conversion
  are the behaviour assumed of the DBC library.
 */
module Codec {
  import opened Basics
  import opened Bits

  datatype ByteOrder = LittleEndian | BigEndian

  datatype Multiplexing = Plain | Switch | Multiplexed(switchValue: nat)

  /** An integer signal of a DBC message. */
  datatype Signal = Signal(name: string, unit: string, startBit: nat, size: nat, order: ByteOrder, signed: bool,
                           factor: real, offset: real, min: real, max: real, mux: Multiplexing)

  predicate ValidSignal(s: Signal) {
    1 <= s.size <= 64 && s.factor != 0.0
  }

  // ----- Bit positions -----

  /** Exchanges the numbering of bits inside a byte: most significant first or last. */
  function Mirror(pos: nat): nat {
    8 * (pos / 8) + 7 - pos % 8
  }

  /** The payload bit that holds bit `k` of the signal, `k == 0` being the least significant. */
  function Pos(s: Signal, k: nat): nat
    requires k < s.size
  {
    match s.order
    case LittleEndian => s.startBit + k
    case BigEndian => Mirror(Mirror(s.startBit) + (s.size - 1 - k))
  }

  /** A little-endian signal starts at its lowest bit and goes up, byte after byte. */
  lemma LittleEndianWalk(s: Signal, k: nat)
    requires s.order == LittleEndian && k < s.size
    ensures k == 0 ==> Pos(s, k) == s.startBit
    ensures k > 0 ==> Pos(s, k) == Pos(s, k - 1) + 1
  {
  }

  /** A big-endian signal starts at its top bit and walks down in a sawtooth over the bytes. */
  lemma SawtoothWalk(s: Signal, k: nat)
    requires s.order == BigEndian && k < s.size
    ensures k == s.size - 1 ==> Pos(s, k) == s.startBit
    ensures k > 0 ==> Pos(s, k - 1) == if Pos(s, k) % 8 == 0 then Pos(s, k) + 15 else Pos(s, k) - 1
  {
    var m := Mirror(s.startBit) + (s.size - 1 - k);
    assert Pos(s, k) / 8 == m / 8 && Pos(s, k) % 8 == 7 - m % 8;
    if k > 0 {
      assert Pos(s, k - 1) == Mirror(m + 1);
    }
  }

  lemma MirrorInvolution(pos: nat)
    ensures Mirror(Mirror(pos)) == pos
  {
    var m := Mirror(pos);
    assert m / 8 == pos / 8 && m % 8 == 7 - pos % 8;
  }

  lemma PosInjective(s: Signal, j: nat, k: nat)
    requires j < s.size && k < s.size && Pos(s, j) == Pos(s, k)
    ensures j == k
  {
    if s.order == BigEndian {
      MirrorInvolution(Mirror(s.startBit) + (s.size - 1 - j));
      MirrorInvolution(Mirror(s.startBit) + (s.size - 1 - k));
    }
  }

  predicate Owns(s: Signal, pos: nat) {
    exists k: nat :: k < s.size && Pos(s, k) == pos
  }

  ghost predicate Disjoint(s: Signal, t: Signal) {
    forall pos: nat :: !(Owns(s, pos) && Owns(t, pos))
  }

  predicate Fits(s: Signal, length: nat) {
    forall k: nat | k < s.size :: Pos(s, k) < 8 * length
  }

  // ----- Writing and reading -----

  /** Writes the lowest `k` bits of the signal. */
  function PutBits(data: seq<bv8>, s: Signal, bits: seq<bool>, k: nat): (r: seq<bv8>)
    requires |bits| == s.size && k <= s.size && Fits(s, |data|)
    ensures |r| == |data|
  {
    if k == 0 then data else SetBit(PutBits(data, s, bits, k - 1), Pos(s, k - 1), bits[k - 1])
  }

  function EncodeRaw(data: seq<bv8>, s: Signal, raw: int): (r: seq<bv8>)
    requires Fits(s, |data|)
    ensures |r| == |data|
  {
    PutBits(data, s, ToBits(raw, s.size), s.size)
  }

  function TakeBits(data: seq<bv8>, s: Signal): seq<bool>
    requires Fits(s, |data|)
  {
    seq(s.size, k requires 0 <= k < s.size => GetBit(data, Pos(s, k)))
  }

  /** The raw value, sign-extended for a signed signal. */
  function DecodeRaw(data: seq<bv8>, s: Signal): int
    requires Fits(s, |data|) && s.size > 0
  {
    var u := Unsigned(TakeBits(data, s));
    if s.signed && u >= Pow2(s.size - 1) then u - Pow2(s.size) else u
  }

  predicate RawInRange(s: Signal, raw: int)
    requires s.size > 0
  {
    if s.signed then -(Pow2(s.size - 1) as int) <= raw < Pow2(s.size - 1) else 0 <= raw < Pow2(s.size)
  }

  /** Two signals are disjoint if and only if none of their bits share a place. */
  lemma DisjointMeans(s: Signal, t: Signal)
    ensures Disjoint(s, t) <==> forall j: nat, k: nat | j < s.size && k < t.size :: Pos(s, j) != Pos(t, k)
  {
    if Disjoint(s, t) {
      forall j: nat, k: nat | j < s.size && k < t.size ensures Pos(s, j) != Pos(t, k) {
        assert Owns(s, Pos(s, j)) && Owns(t, Pos(t, k));
      }
    }
  }

  /** Whatever a payload holds, it decodes to a raw value in range. */
  lemma DecodedInRange(data: seq<bv8>, s: Signal)
    requires ValidSignal(s) && Fits(s, |data|)
    ensures RawInRange(s, DecodeRaw(data, s))
  {
    UnsignedBelow(TakeBits(data, s));
    assert Pow2(s.size) == 2 * Pow2(s.size - 1);
  }

  lemma {:induction false} PutBitsOwned(data: seq<bv8>, s: Signal, bits: seq<bool>, n: nat, k: nat)
    requires |bits| == s.size && k < n <= s.size && Fits(s, |data|)
    ensures GetBit(PutBits(data, s, bits, n), Pos(s, k)) == bits[k]
  {
    var before := PutBits(data, s, bits, n - 1);
    GetSetBit(before, Pos(s, n - 1), bits[n - 1], Pos(s, k));
    if k < n - 1 {
      PutBitsOwned(data, s, bits, n - 1, k);
      if Pos(s, k) == Pos(s, n - 1) {
        PosInjective(s, k, n - 1);
      }
    }
  }

  lemma {:induction false} PutBitsElsewhere(data: seq<bv8>, s: Signal, bits: seq<bool>, n: nat, pos: nat)
    requires |bits| == s.size && n <= s.size && Fits(s, |data|)
    requires pos < 8 * |data| && !Owns(s, pos)
    ensures GetBit(PutBits(data, s, bits, n), pos) == GetBit(data, pos)
  {
    if n > 0 {
      PutBitsElsewhere(data, s, bits, n - 1, pos);
      GetSetBit(PutBits(data, s, bits, n - 1), Pos(s, n - 1), bits[n - 1], pos);
    }
  }

  /** Encoding one signal writes the binary digits of the raw value into its own bits. */
  lemma EncodeRawDigits(data: seq<bv8>, s: Signal, raw: int)
    requires Fits(s, |data|)
    ensures forall k: nat | k < s.size :: GetBit(EncodeRaw(data, s, raw), Pos(s, k)) <==> (raw / Pow2(k)) % 2 == 1
  {
    EncodeRawBits(data, s, raw);
    forall k: nat | k < s.size ensures ToBits(raw, s.size)[k] <==> (raw / Pow2(k)) % 2 == 1 {
      BitOfRaw(raw, s.size, k);
    }
  }

  /** Encoding one signal sets exactly its own bits and leaves every other bit alone. */
  lemma EncodeRawBits(data: seq<bv8>, s: Signal, raw: int)
    requires Fits(s, |data|)
    ensures forall k: nat | k < s.size :: GetBit(EncodeRaw(data, s, raw), Pos(s, k)) == ToBits(raw, s.size)[k]
    ensures forall pos: nat | pos < 8 * |data| && !Owns(s, pos) ::
              GetBit(EncodeRaw(data, s, raw), pos) == GetBit(data, pos)
  {
    forall k: nat | k < s.size
      ensures GetBit(EncodeRaw(data, s, raw), Pos(s, k)) == ToBits(raw, s.size)[k]
    {
      PutBitsOwned(data, s, ToBits(raw, s.size), s.size, k);
    }
    forall pos: nat | pos < 8 * |data| && !Owns(s, pos)
      ensures GetBit(EncodeRaw(data, s, raw), pos) == GetBit(data, pos)
    {
      PutBitsElsewhere(data, s, ToBits(raw, s.size), s.size, pos);
    }
  }

  /** Reading depends only on the signal's own bits. */
  lemma DecodeRawFrame(a: seq<bv8>, b: seq<bv8>, s: Signal)
    requires Fits(s, |a|) && Fits(s, |b|) && s.size > 0
    requires forall k: nat | k < s.size :: GetBit(a, Pos(s, k)) == GetBit(b, Pos(s, k))
    ensures DecodeRaw(a, s) == DecodeRaw(b, s)
  {
    assert TakeBits(a, s) == TakeBits(b, s);
  }

  /** A payload whose signal bits spell `raw` decodes to `raw`, for every width up to 64. */
  lemma DecodeRawBits(data: seq<bv8>, s: Signal, raw: int)
    requires ValidSignal(s) && Fits(s, |data|) && RawInRange(s, raw)
    requires forall k: nat | k < s.size :: GetBit(data, Pos(s, k)) == ToBits(raw, s.size)[k]
    ensures DecodeRaw(data, s) == raw
  {
    var n := s.size;
    assert TakeBits(data, s) == ToBits(raw, n);
    UnsignedOfBits(raw, n);
    if raw >= 0 {
      ModUnique(raw, Pow2(n), 0, raw);
    } else {
      ModUnique(raw, Pow2(n), -1, raw + Pow2(n));
    }
  }

  // ----- Physical values -----

  function PhysToRaw(s: Signal, phys: real): int
    requires s.factor != 0.0
  {
    Truncate((phys - s.offset) / s.factor)
  }

  function RawToPhys(s: Signal, raw: int): real {
    raw as real * s.factor + s.offset
  }

  function Abs(x: real): real {
    if x >= 0.0 then x else -x
  }

  /** The quantisation error of a physical value is below one step of the signal. */
  lemma QuantisationError(s: Signal, phys: real)
    requires s.factor != 0.0
    ensures Abs(RawToPhys(s, PhysToRaw(s, phys)) - phys) < Abs(s.factor)
  {
    var q := (phys - s.offset) / s.factor;
    assert q * s.factor == phys - s.offset;
    var d := PhysToRaw(s, phys) as real - q;
    assert -1.0 < d < 1.0;
    assert RawToPhys(s, PhysToRaw(s, phys)) - phys == d * s.factor;
    ProductBound(d, s.factor);
  }

  /** The conversion to raw goes towards zero: it never exceeds the value in magnitude. */
  lemma PhysToRawTowardsZero(s: Signal, phys: real)
    requires s.factor != 0.0
    ensures Abs(RawToPhys(s, PhysToRaw(s, phys)) - s.offset) <= Abs(phys - s.offset)
  {
    var q := (phys - s.offset) / s.factor;
    var raw := PhysToRaw(s, phys);
    assert q * s.factor == phys - s.offset;
    assert RawToPhys(s, raw) - s.offset == raw as real * s.factor;
    SmallerProduct(raw as real, q, s.factor);
  }

  lemma SmallerProduct(a: real, b: real, f: real)
    requires Abs(a) <= Abs(b) && f != 0.0
    ensures Abs(a * f) <= Abs(b * f)
  {
    calc {
      Abs(a * f);
      { AbsProduct(a, f); }
      Abs(a) * Abs(f);
    <=  { Monotone(Abs(a), Abs(b), Abs(f)); }
      Abs(b) * Abs(f);
      { AbsProduct(b, f); }
      Abs(b * f);
    }
  }

  lemma Monotone(a: real, b: real, f: real)
    requires a <= b && f > 0.0
    ensures a * f <= b * f
  {
    if a < b {
      PositiveProduct(b - a, f);
      assert (b - a) * f == b * f - a * f;
    }
  }

  lemma AbsProduct(a: real, f: real)
    ensures Abs(a * f) == Abs(a) * Abs(f)
  {
    if a != 0.0 && f != 0.0 {
      PositiveProduct(Abs(a), Abs(f));
    }
  }

  lemma PositiveProduct(a: real, b: real)
    requires a > 0.0 && b > 0.0
    ensures a * b > 0.0
  {
  }

  lemma ProductBound(d: real, f: real)
    requires -1.0 < d < 1.0 && f != 0.0
    ensures Abs(d * f) < Abs(f)
    decreases f < 0.0
  {
    if f > 0.0 {
      PositiveProduct(1.0 - d, f);
      PositiveProduct(1.0 + d, f);
      assert (1.0 - d) * f == f - d * f;
      assert (1.0 + d) * f == f + d * f;
    } else {
      ProductBound(-d, -f);
      assert (-d) * (-f) == d * f;
    }
  }

  // ----- The decoder's view of a raw value -----

  /** A declared range of [0|0] stands for [0|2^size]. */
  function EffectiveMax(s: Signal): real {
    if s.min == 0.0 && s.max == 0.0 then Pow2(s.size) as real else s.max
  }

  /** The guard of the decoder's re-interpretation branch. */
  predicate ContradictsRange(s: Signal, raw: int) {
    RawToPhys(s, raw) < s.min && s.min >= 0.0 && EffectiveMax(s) > s.min
  }

  /** The bits of a sign-extended 64-bit word under a mask of the signal's width. */
  function MaskedWord(s: Signal, raw: int): int {
    var word := raw % Pow2(64);
    if s.size < 64 then word % Pow2(s.size) else word
  }

  function DecodedValue(s: Signal, raw: int): real {
    if ContradictsRange(s, raw) then RawToPhys(s, MaskedWord(s, raw)) else RawToPhys(s, raw)
  }

  lemma Pow2Splits(a: nat, b: nat)
    requires a <= b
    ensures Pow2(b) == Pow2(a) * Pow2(b - a)
    decreases b - a
  {
    if a < b {
      Pow2Splits(a + 1, b);
      Regroup(Pow2(a), Pow2(b - a - 1));
    }
  }

  lemma Regroup(x: int, y: int)
    ensures (2 * x) * y == x * (2 * y)
  {
  }

  lemma ReduceTwice(raw: int, p: nat, c: nat)
    requires 0 <= raw + p && raw < p && 1 <= c
    ensures raw >= 0 ==> raw % (p * c) == raw && raw % p == raw
    ensures raw < 0 ==> raw % (p * c) == raw + p * c && (raw + p * c) % p == raw + p
  {
    MultipleBound(p, c);
    if raw >= 0 {
      ModUnique(raw, p * c, 0, raw);
      ModUnique(raw, p, 0, raw);
    } else {
      ModUnique(raw, p * c, -1, raw + p * c);
      assert raw + p * c == p * (c - 1) + (raw + p);
      ModUnique(raw + p * c, p, c - 1, raw + p);
    }
  }

  /** The mask turns a sign-extended value into its unsigned reading, for every width up to 64. */
  lemma {:induction false} MaskIsUnsigned(s: Signal, raw: int)
    requires ValidSignal(s) && RawInRange(s, raw)
    ensures MaskedWord(s, raw) == if raw < 0 then raw + Pow2(s.size) else raw
  {
    var p, c, w := Pow2(s.size), Pow2(64 - s.size), Pow2(64);
    assert w == p * c by { Pow2Splits(s.size, 64); }
    assert p == 2 * Pow2(s.size - 1);
    ReduceTwice(raw, p, c);
    assert raw % w == raw % (p * c);
    if s.size == 64 {
      assert c == 1;
    }
  }

  /**
    A raw value in range is shown as its physical value, unless it is negative
    and that is below a minimum that is not negative, with a maximum above the
    minimum or both bounds zero; then it is shown as the value of `raw + 2^size`.
   */
  lemma {:induction false} DecodedValueExact(s: Signal, raw: int)
    requires ValidSignal(s) && RawInRange(s, raw)
    ensures raw < 0 && RawToPhys(s, raw) < s.min && s.min >= 0.0 && (s.max > s.min || (s.min == 0.0 && s.max == 0.0)) ==>
              DecodedValue(s, raw) == RawToPhys(s, raw + Pow2(s.size))
    ensures raw >= 0 || RawToPhys(s, raw) >= s.min || s.min < 0.0 || (s.min >= s.max && !(s.min == 0.0 && s.max == 0.0)) ==>
              DecodedValue(s, raw) == RawToPhys(s, raw)
  {
    MaskIsUnsigned(s, raw);
  }

  /** The value of a whole turn more is `2^size * factor` higher, and so never the same. */
  lemma FullTurn(s: Signal, raw: int)
    requires s.factor != 0.0
    ensures RawToPhys(s, raw + Pow2(s.size)) == RawToPhys(s, raw) + Pow2(s.size) as real * s.factor
    ensures RawToPhys(s, raw + Pow2(s.size)) != RawToPhys(s, raw)
  {
    ShiftedPhys(s, raw, Pow2(s.size));
  }

  /** The physical value starts at the offset and grows by the factor with every step of the raw value. */
  lemma PhysicalValue(s: Signal, raw: int)
    ensures RawToPhys(s, 0) == s.offset && RawToPhys(s, raw + 1) == RawToPhys(s, raw) + s.factor
  {
    assert (raw + 1) as real * s.factor == raw as real * s.factor + s.factor;
  }

  /** The shown maximum is the declared one, unless both bounds are zero. */
  lemma ShownMaximum(s: Signal)
    ensures !(s.min == 0.0 && s.max == 0.0) ==> EffectiveMax(s) == s.max
    ensures s.min == 0.0 && s.max == 0.0 ==> EffectiveMax(s) == Pow2(s.size) as real
  {
  }

  lemma ShiftedPhys(s: Signal, raw: int, p: nat)
    requires p >= 1 && s.factor != 0.0
    ensures RawToPhys(s, raw + p) == RawToPhys(s, raw) + p as real * s.factor
    ensures p as real * s.factor != 0.0
  {
    assert (raw + p) as real == raw as real + p as real;
    assert (raw as real + p as real) * s.factor == raw as real * s.factor + p as real * s.factor;
  }
}
