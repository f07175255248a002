/** Bits inside a byte buffer, and integers as little-endian bit strings. */
module Bits {

  /** The byte with only bit `k` set. */
  function Mask(k: nat): bv8
    requires k < 8
  {
    if k == 0 then 1 else if k == 1 then 2 else if k == 2 then 4 else if k == 3 then 8
    else if k == 4 then 16 else if k == 5 then 32 else if k == 6 then 64 else 128
  }

  predicate ByteBit(b: bv8, k: nat)
    requires k < 8
  {
    b & Mask(k) != 0
  }

  function WithBit(b: bv8, k: nat, v: bool): bv8
    requires k < 8
  {
    if v then b | Mask(k) else b & !Mask(k)
  }

  predicate GetBit(data: seq<bv8>, pos: nat)
    requires pos < 8 * |data|
  {
    ByteBit(data[pos / 8], pos % 8)
  }

  function SetBit(data: seq<bv8>, pos: nat, v: bool): (r: seq<bv8>)
    requires pos < 8 * |data|
    ensures |r| == |data|
  {
    data[pos / 8 := WithBit(data[pos / 8], pos % 8, v)]
  }

  lemma BitOfWithBit(b: bv8, k: nat, v: bool, j: nat)
    requires k < 8 && j < 8
    ensures ByteBit(WithBit(b, k, v), j) == if j == k then v else ByteBit(b, j)
  {
  }

  lemma GetSetBit(data: seq<bv8>, pos: nat, v: bool, q: nat)
    requires pos < 8 * |data| && q < 8 * |data|
    ensures GetBit(SetBit(data, pos, v), q) == if q == pos then v else GetBit(data, q)
  {
    var i, k, j := pos / 8, pos % 8, q % 8;
    if q / 8 == i {
      BitOfWithBit(data[i], k, v, j);
    }
  }

  lemma ByteByBits(a: bv8, b: bv8)
    requires forall k: nat | k < 8 :: ByteBit(a, k) == ByteBit(b, k)
    ensures a == b
  {
    assert ByteBit(a, 0) == ByteBit(b, 0);
    assert ByteBit(a, 1) == ByteBit(b, 1);
    assert ByteBit(a, 2) == ByteBit(b, 2);
    assert ByteBit(a, 3) == ByteBit(b, 3);
    assert ByteBit(a, 4) == ByteBit(b, 4);
    assert ByteBit(a, 5) == ByteBit(b, 5);
    assert ByteBit(a, 6) == ByteBit(b, 6);
    assert ByteBit(a, 7) == ByteBit(b, 7);
  }

  /** Bit `k` of a byte is the lowest bit after shifting it right by `k`. */
  lemma ByteBitMeans(b: bv8, k: nat)
    requires k < 8
    ensures ByteBit(b, k) <==> (b >> k) & 1 == 1
  {
    if k == 0 {
    } else if k == 1 {
    } else if k == 2 {
    } else if k == 3 {
    } else if k == 4 {
    } else if k == 5 {
    } else if k == 6 {
    } else {
    }
  }

  /** A buffer is determined by its bits. */
  lemma SameBits(a: seq<bv8>, b: seq<bv8>)
    requires |a| == |b|
    requires forall pos: nat | pos < 8 * |a| :: GetBit(a, pos) == GetBit(b, pos)
    ensures a == b
  {
    forall i | 0 <= i < |a| ensures a[i] == b[i] {
      forall k: nat | k < 8 ensures ByteBit(a[i], k) == ByteBit(b[i], k) {
        var pos := 8 * i + k;
        assert GetBit(a, pos) == GetBit(b, pos);
        assert pos / 8 == i && pos % 8 == k;
      }
      ByteByBits(a[i], b[i]);
    }
  }

  function Pow2(n: nat): (p: nat)
    ensures p >= 1
  {
    if n == 0 then 1 else 2 * Pow2(n - 1)
  }

  /** The low `n` bits of `raw` in two's complement, least significant first. */
  function ToBits(raw: int, n: nat): (bits: seq<bool>)
    ensures |bits| == n
    decreases n
  {
    if n == 0 then [] else [raw % 2 == 1] + ToBits(raw / 2, n - 1)
  }

  function Unsigned(bits: seq<bool>): nat {
    if bits == [] then 0 else (if bits[0] then 1 else 0) + 2 * Unsigned(bits[1..])
  }

  lemma MultipleBound(m: int, t: int)
    requires m > 0
    ensures t >= 1 ==> m * t >= m
    ensures t <= -1 ==> m * t <= -m
  {
    if t >= 1 {
      assert m * t == m * (t - 1) + m;
    } else if t <= -1 {
      assert m * t == m * (t + 1) - m;
    }
  }

  lemma ModUnique(x: int, m: int, d: int, e: int)
    requires 0 <= e < m && x == m * d + e
    ensures x % m == e && x / m == d
  {
    var t := x / m - d;
    assert m * t == m * (x / m) - m * d;
    assert m * t == e - x % m;
    MultipleBound(m, t);
  }

  /** The remainder by an even modulus, from that of the half. */
  lemma HalfModulus(raw: int, m: int)
    requires m > 0
    ensures raw % (2 * m) == 2 * ((raw / 2) % m) + raw % 2 && raw / (2 * m) == (raw / 2) / m
  {
    var half := raw / 2;
    var d, e := half / m, 2 * (half % m) + raw % 2;
    assert half == m * d + half % m;
    Doubled(m, d);
    ModUnique(raw, 2 * m, d, e);
  }

  lemma Doubled(m: int, d: int)
    ensures (2 * m) * d == 2 * (m * d)
  {
  }

  lemma {:induction false} UnsignedOfBits(raw: int, n: nat)
    ensures Unsigned(ToBits(raw, n)) == raw % Pow2(n)
    decreases n
  {
    if n > 0 {
      UnsignedOfBits(raw / 2, n - 1);
      HalfModulus(raw, Pow2(n - 1));
      assert ToBits(raw, n)[1..] == ToBits(raw / 2, n - 1);
    }
  }

  /** Bit `k` of the low bits of a raw value is its k-th binary digit, in two's complement. */
  lemma {:induction false} BitOfRaw(raw: int, n: nat, k: nat)
    requires k < n
    ensures ToBits(raw, n)[k] <==> (raw / Pow2(k)) % 2 == 1
    decreases n
  {
    if k > 0 {
      BitOfRaw(raw / 2, n - 1, k - 1);
      HalfModulus(raw, Pow2(k - 1));
    }
  }

  lemma {:induction false} UnsignedBelow(bits: seq<bool>)
    ensures Unsigned(bits) < Pow2(|bits|)
  {
    if bits != [] {
      UnsignedBelow(bits[1..]);
    }
  }
}
