/** Little-endian integers and the 32-bit multiplicative checksum of platform_ipc.rs. */
module Checksum {
  type byte = x: int | 0 <= x < 256

  const U32: nat := 0x1_0000_0000
  const U64: nat := 0x1_0000_0000_0000_0000
  const SEED: nat := 0x811c_9dc5

  // ------------------------------------------------------- little endian

  function Pow256(k: nat): (p: nat)
    ensures p > 0
  {
    if k == 0 then 1 else 256 * Pow256(k - 1)
  }

  function Encode(n: nat, k: nat): (s: seq<byte>)
    ensures |s| == k
  {
    if k == 0 then [] else [n % 256] + Encode(n / 256, k - 1)
  }

  function Decode(s: seq<byte>): nat {
    if s == [] then 0 else s[0] + 256 * Decode(s[1..])
  }

  lemma {:induction false} DecodeEncode(n: nat, k: nat)
    requires n < Pow256(k)
    ensures Decode(Encode(n, k)) == n
  {
    if k > 0 {
      DecodeEncode(n / 256, k - 1);
      assert Encode(n, k)[1..] == Encode(n / 256, k - 1);
    }
  }

  lemma {:induction false} EncodeDecode(s: seq<byte>)
    ensures Decode(s) < Pow256(|s|) && Encode(Decode(s), |s|) == s
  {
    if s != [] {
      EncodeDecode(s[1..]);
      assert Decode(s) % 256 == s[0] && Decode(s) / 256 == Decode(s[1..]);
    }
  }

  /** u32 and u64 values survive the round trip. */
  lemma Widths()
    ensures Pow256(4) == U32 && Pow256(8) == U64
  {
    assert Pow256(1) == 256 && Pow256(2) == 0x1_0000 && Pow256(3) == 0x100_0000;
    assert Pow256(5) == 0x100_0000_0000 && Pow256(6) == 0x1_0000_0000_0000 && Pow256(7) == 0x100_0000_0000_0000;
  }

  // ------------------------------------------------------------- checksum

  /** Exclusive-or of the low k bits. */
  function XorBits(a: nat, b: nat, k: nat): (r: nat)
    ensures r < Pow2(k)
    decreases k
  {
    if k == 0 then 0 else (a + b) % 2 + 2 * XorBits(a / 2, b / 2, k - 1)
  }

  function Xor(a: byte, b: byte): byte {
    assert Pow2(4) == 16 && Pow2(8) == 256;
    XorBits(a, b, 8)
  }

  /** The exclusive-or with a byte only reaches the low eight bits. */
  function MixLow(x: nat, b: byte): nat { High(x) + Xor(Low(x), b) }

  function Low(x: nat): byte { x % 256 }

  function High(x: nat): nat { 256 * (x / 256) }

  /** hash.wrapping_mul(0x01000193) ^ byte. */
  function Mix(hash: nat, b: byte): nat { MixLow(hash * 0x0100_0193 % 0x1_0000_0000, b) }

  function Fold(hash: nat, s: seq<byte>): nat
    decreases |s|
  {
    if s == [] then hash else Fold(Mix(hash, s[0]), s[1..])
  }

  function Sum(s: seq<byte>): nat { Fold(SEED, s) }

  function Pow2(k: nat): (p: nat)
    ensures p > 0
  {
    if k == 0 then 1 else 2 * Pow2(k - 1)
  }

  lemma {:induction false} XorBitsInjective(a: nat, b: nat, c: nat, k: nat)
    requires a < Pow2(k) && b < Pow2(k)
    ensures XorBits(a, c, k) == XorBits(b, c, k) ==> a == b
    ensures XorBits(c, a, k) == XorBits(c, b, k) ==> a == b
    decreases k
  {
    if k > 0 {
      XorBitsInjective(a / 2, b / 2, c / 2, k - 1);
    }
  }

  lemma XorInjective(a: byte, b: byte, c: byte)
    ensures Xor(a, c) == Xor(b, c) ==> a == b
    ensures Xor(c, a) == Xor(c, b) ==> a == b
  {
    assert Pow2(4) == 16 && Pow2(8) == 256;
    XorBitsInjective(a, b, c, 8);
  }

  lemma MixRange(hash: nat, b: byte)
    ensures Mix(hash, b) < U32
  {
    hide Xor;
    HighRange(hash * 0x0100_0193 % 0x1_0000_0000);
  }

  lemma HighRange(x: nat)
    requires x < 0x1_0000_0000
    ensures 256 * (x / 256) + 255 < 0x1_0000_0000
  {
  }

  lemma SplitBytes(p: nat, u: byte, q: nat, v: byte)
    requires 256 * p + u == 256 * q + v
    ensures p == q && u == v
  {
  }

  /** 0x01000193 * 0x359c449b == 1 modulo 2^32, so one multiplication loses nothing. */
  lemma InverseUndoes(x: nat)
    requires x < 0x1_0000_0000
    ensures (x * 0x0100_0193 % 0x1_0000_0000) * 0x359c_449b % 0x1_0000_0000 == x
  {
    var q := x * 0x0100_0193 / 0x1_0000_0000;
    var r := x * 0x0100_0193 % 0x1_0000_0000;
    assert r == x * 0x0100_0193 - q * 0x1_0000_0000;
    var k := x * 0x359c99 - q * 0x359c_449b;
    assert r * 0x359c_449b == x + 0x1_0000_0000 * k;
    Residue(x, k);
  }

  lemma Residue(x: nat, k: int)
    requires x < 0x1_0000_0000
    ensures (x + 0x1_0000_0000 * k) % 0x1_0000_0000 == x
  {
  }

  lemma MultiplyInjective(x: nat, y: nat)
    requires x < U32 && y < U32 && x * 0x0100_0193 % 0x1_0000_0000 == y * 0x0100_0193 % 0x1_0000_0000
    ensures x == y
  {
    InverseUndoes(x);
    InverseUndoes(y);
  }

  lemma MixInjective(g: nat, h: nat, a: byte, b: byte)
    requires g < U32 && h < U32
    ensures Mix(g, a) == Mix(h, a) ==> g == h
    ensures Mix(g, a) == Mix(g, b) ==> a == b
  {
    hide Xor;
    var x, y := g * 0x0100_0193 % 0x1_0000_0000, h * 0x0100_0193 % 0x1_0000_0000;
    if Mix(g, a) == Mix(h, a) {
      SplitBytes(x / 256, Xor(Low(x), a), y / 256, Xor(Low(y), a));
      XorInjective(Low(x), Low(y), a);
      MultiplyInjective(g, h);
    }
    if Mix(g, a) == Mix(g, b) {
      SplitBytes(x / 256, Xor(Low(x), a), x / 256, Xor(Low(x), b));
      XorInjective(a, b, Low(x));
    }
  }

  lemma {:induction false} FoldInjective(g: nat, h: nat, s: seq<byte>)
    requires g < U32 && h < U32 && g != h
    ensures Fold(g, s) != Fold(h, s)
    decreases |s|
  {
    if s != [] {
      MixInjective(g, h, s[0], s[0]);
      MixRange(g, s[0]);
      MixRange(h, s[0]);
      FoldInjective(Mix(g, s[0]), Mix(h, s[0]), s[1..]);
    }
  }

  lemma {:induction false} FoldRange(hash: nat, s: seq<byte>)
    requires hash < U32
    ensures Fold(hash, s) < U32
    decreases |s|
  {
    if s != [] {
      MixRange(hash, s[0]);
      FoldRange(Mix(hash, s[0]), s[1..]);
    }
  }

  lemma SumRange(s: seq<byte>)
    ensures Sum(s) < U32
  {
    FoldRange(SEED, s);
  }

  /** The two sequences differ at i and nowhere else. */
  predicate DifferOnlyAt(s: seq<byte>, t: seq<byte>, i: nat) {
    && |s| == |t| && i < |s| && s[i] != t[i]
    && forall k :: 0 <= k < |s| && k != i ==> s[k] == t[k]
  }

  lemma {:induction false} FoldDetects(hash: nat, s: seq<byte>, t: seq<byte>, i: nat)
    requires hash < U32 && DifferOnlyAt(s, t, i)
    ensures Fold(hash, s) != Fold(hash, t)
    decreases i
  {
    MixRange(hash, s[0]);
    MixRange(hash, t[0]);
    if i == 0 {
      assert s[1..] == t[1..];
      MixInjective(hash, hash, s[0], t[0]);
      FoldInjective(Mix(hash, s[0]), Mix(hash, t[0]), s[1..]);
    } else {
      FoldDetects(Mix(hash, s[0]), s[1..], t[1..], i - 1);
    }
  }

  /** Whatever its position, one changed byte changes the checksum. */
  lemma OneByteChangesSum(s: seq<byte>, t: seq<byte>, i: nat)
    requires DifferOnlyAt(s, t, i)
    ensures Sum(s) != Sum(t)
  {
    FoldDetects(SEED, s, t, i);
  }

  /** The checksum loop over a buffer. */
  method ComputeSum(s: seq<byte>) returns (hash: nat)
    ensures hash == Sum(s)
  {
    hash := SEED;
    for i := 0 to |s|
      invariant Fold(hash, s[i..]) == Sum(s)
    {
      assert s[i..][1..] == s[i + 1..];
      hash := Mix(hash, s[i]);
    }
  }

  // -------------------------------------------------------- bit by bit

  function Bit(n: nat, i: nat): nat { if i == 0 then n % 2 else Bit(n / 2, i - 1) }

  lemma {:induction false} XorBitsLaw(a: nat, b: nat, k: nat, i: nat)
    requires i < k
    ensures Bit(XorBits(a, b, k), i) == (Bit(a, i) + Bit(b, i)) % 2
    decreases k
  {
    LastBit(a, b, XorBits(a / 2, b / 2, k - 1));
    if i > 0 {
      XorBitsLaw(a / 2, b / 2, k - 1, i - 1);
    }
  }

  lemma LastBit(a: nat, b: nat, rest: nat)
    ensures ((a + b) % 2 + 2 * rest) / 2 == rest && ((a + b) % 2 + 2 * rest) % 2 == (a % 2 + b % 2) % 2
  {
  }

  lemma Halves(p: nat, h: nat, l: nat)
    ensures (2 * p * h + l) / 2 == p * h + l / 2 && (2 * p * h + l) % 2 == l % 2
  {
    assert 2 * p * h == 2 * (p * h);
  }

  /** The bits of l, then those of h. */
  lemma {:induction false} BitsSplit(h: nat, l: nat, k: nat, i: nat)
    requires l < Pow2(k)
    ensures Bit(Pow2(k) * h + l, i) == if i < k then Bit(l, i) else Bit(h, i - k)
    decreases k
  {
    if k > 0 {
      Halves(Pow2(k - 1), h, l);
      if i > 0 {
        BitsSplit(h, l / 2, k - 1, i - 1);
      }
    }
  }

  lemma {:induction false} FoldLast(hash: nat, s: seq<byte>, b: byte)
    ensures Fold(hash, s + [b]) == Mix(Fold(hash, s), b)
    decreases |s|
  {
    if s == [] {
      assert ([] + [b])[1..] == [];
    } else {
      assert (s + [b])[1..] == s[1..] + [b];
      FoldLast(Mix(hash, s[0]), s[1..], b);
    }
  }

  lemma ByteSplit(h: nat, l: byte, i: nat)
    ensures Bit(256 * h + l, i) == if i < 8 then Bit(l, i) else Bit(h, i - 8)
  {
    assert Pow2(4) == 16 && Pow2(8) == 256;
    BitsSplit(h, l, 8, i);
  }

  lemma XorLaw(a: byte, b: byte, i: nat)
    requires i < 8
    ensures Bit(Xor(a, b), i) == (Bit(a, i) + Bit(b, i)) % 2
  {
    XorBitsLaw(a, b, 8, i);
    hide Bit, XorBits;
  }

  lemma MixLowLaw(x: nat, b: byte, i: nat)
    ensures Bit(MixLow(x, b), i) == if i < 8 then (Bit(x, i) + Bit(b, i)) % 2 else Bit(x, i)
  {
    hide Bit, Xor;
    ByteSplit(x / 256, Low(x), i);
    ByteSplit(x / 256, Xor(Low(x), b), i);
    if i < 8 {
      XorLaw(Low(x), b, i);
    }
  }

  lemma OneMoreByte(s: seq<byte>, b: byte)
    ensures Sum(s + [b]) == MixLow(Sum(s) * 16777619 % 0x1_0000_0000, b)
  {
    FoldLast(SEED, s, b);
    hide MixLow, Fold;
  }

  /** One more byte: the sum times 16777619, in 32 bits, and then its low eight bits flipped where the byte has ones. */
  lemma SumLaw(s: seq<byte>, b: byte, i: nat)
    ensures Sum([]) == 2166136261
    ensures var product := Sum(s) * 16777619 % 0x1_0000_0000;
            Bit(Sum(s + [b]), i) == if i < 8 then (Bit(product, i) + Bit(b, i)) % 2 else Bit(product, i)
  {
    assert Sum([]) == SEED;
    hide Bit, MixLow, Sum;
    OneMoreByte(s, b);
    MixLowLaw(Sum(s) * 16777619 % 0x1_0000_0000, b, i);
  }
}
