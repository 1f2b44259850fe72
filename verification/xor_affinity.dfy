/** Closeness in the Kademlia key space (`xorAffinity` in kademlia.go): the number of leading bits
    that two keys share, and what it says about the XOR distance. */
module XorAffinity {
  const KEY_BYTES := 32
  const KEY_BITS := 256

  type Key = k: seq<bv8> | |k| == KEY_BYTES witness seq(KEY_BYTES, _ => 0)

  /** `bits.LeadingZeros8`. */
  function LeadingZeros8(b: bv8): (n: nat)
    ensures n <= 8
  {
    if b >= 0x80 then 0 else if b >= 0x40 then 1 else if b >= 0x20 then 2 else if b >= 0x10 then 3
    else if b >= 0x08 then 4 else if b >= 0x04 then 5 else if b >= 0x02 then 6 else if b >= 0x01 then 7
    else 8
  }

  function Mask(j: nat): (m: bv8)
    requires j < 8
    ensures m != 0 && m & (m - 1) == 0
  {
    match j
    case 0 => 0x80
    case 1 => 0x40
    case 2 => 0x20
    case 3 => 0x10
    case 4 => 0x08
    case 5 => 0x04
    case 6 => 0x02
    case 7 => 0x01
  }

  predicate BitOfByte(b: bv8, j: nat)
    requires j < 8
  {
    b & Mask(j) != 0
  }

  /** Bit `i` of a key, the most significant bit of the first byte being bit 0. */
  function Bit(x: seq<bv8>, i: nat): bool
    requires i < 8 * |x|
  {
    BitOfByte(x[i / 8], i % 8)
  }

  lemma XorMasked(a: bv8, b: bv8, m: bv8)
    requires m != 0 && m & (m - 1) == 0
    ensures (a ^ b) & m != 0 <==> (a & m != 0) != (b & m != 0)
  {
  }

  lemma XorBits(a: bv8, b: bv8, j: nat)
    requires j < 8
    ensures BitOfByte(a ^ b, j) <==> BitOfByte(a, j) != BitOfByte(b, j)
  {
    XorMasked(a, b, Mask(j));
  }

  lemma LeadingZerosOfByte(b: bv8, j: nat)
    requires j < 8
    ensures j < LeadingZeros8(b) ==> !BitOfByte(b, j)
    ensures j == LeadingZeros8(b) ==> BitOfByte(b, j)
  {
  }

  /** The number of bytes that take part: keys shorter than 32 bytes end the comparison. */
  function ComparedBytes(x: seq<bv8>, y: seq<bv8>): (n: nat)
    ensures n <= KEY_BYTES && n <= |x| && n <= |y|
  {
    if |x| <= |y| && |x| <= KEY_BYTES then |x| else if |y| <= KEY_BYTES then |y| else KEY_BYTES
  }

  /** `n` leading bits agree, and either no bit is left or the next one differs. */
  ghost predicate SharesExactly(x: seq<bv8>, y: seq<bv8>, n: nat) {
    && n <= 8 * ComparedBytes(x, y)
    && (forall i :: 0 <= i < n ==> Bit(x, i) == Bit(y, i))
    && (n < 8 * ComparedBytes(x, y) ==> Bit(x, n) != Bit(y, n))
  }

  function AffinityFrom(x: seq<bv8>, y: seq<bv8>, i: nat): (n: nat)
    requires i <= ComparedBytes(x, y)
    decreases ComparedBytes(x, y) - i
  {
    if i == ComparedBytes(x, y) then 0
    else
      var k := x[i] ^ y[i];
      LeadingZeros8(k) + if k != 0 then 0 else AffinityFrom(x, y, i + 1)
  }

  /** The affinity as a value. */
  function Affinity(x: seq<bv8>, y: seq<bv8>): (n: nat) {
    AffinityFrom(x, y, 0)
  }

  /** Leading bits of one byte pair, as bits of the keys. */
  lemma BytePair(x: seq<bv8>, y: seq<bv8>, i: nat)
    requires i < |x| && i < |y|
    ensures var n := LeadingZeros8(x[i] ^ y[i]);
            && (forall b :: 8 * i <= b < 8 * i + n ==> Bit(x, b) == Bit(y, b))
            && (n < 8 ==> Bit(x, 8 * i + n) != Bit(y, 8 * i + n))
  {
    var n := LeadingZeros8(x[i] ^ y[i]);
    forall b | 8 * i <= b < 8 * i + n
      ensures Bit(x, b) == Bit(y, b)
    {
      XorBits(x[i], y[i], b - 8 * i);
      LeadingZerosOfByte(x[i] ^ y[i], b - 8 * i);
    }
    if n < 8 {
      XorBits(x[i], y[i], n);
      LeadingZerosOfByte(x[i] ^ y[i], n);
    }
  }

  lemma {:induction false} AffinityFromShares(x: seq<bv8>, y: seq<bv8>, i: nat)
    requires i <= ComparedBytes(x, y)
    requires forall b :: 0 <= b < 8 * i ==> Bit(x, b) == Bit(y, b)
    ensures SharesExactly(x, y, 8 * i + AffinityFrom(x, y, i))
    decreases ComparedBytes(x, y) - i
  {
    if i < ComparedBytes(x, y) {
      BytePair(x, y, i);
      if x[i] ^ y[i] == 0 {
        AffinityFromShares(x, y, i + 1);
      }
    }
  }

  /** The affinity is the number of leading equal bits, for keys of any length. */
  lemma AffinityIsSharedPrefix(x: seq<bv8>, y: seq<bv8>)
    ensures SharesExactly(x, y, Affinity(x, y))
  {
    AffinityFromShares(x, y, 0);
  }

  /** The loop of the source. */
  method ComputeXorAffinity(x: seq<bv8>, y: seq<bv8>) returns (result: nat)
    ensures result == Affinity(x, y)
    ensures SharesExactly(x, y, result)
  {
    result := 0;
    var i := 0;
    while i < 32 && i < |x| && i < |y|
      invariant 0 <= i <= ComparedBytes(x, y)
      invariant Affinity(x, y) == result + AffinityFrom(x, y, i)
    {
      var k := x[i] ^ y[i];
      result := result + LeadingZeros8(k);
      if k != 0 {
        break;
      }
      i := i + 1;
    }
    AffinityIsSharedPrefix(x, y);
  }

  lemma AffinitySymmetric(x: seq<bv8>, y: seq<bv8>)
    ensures Affinity(x, y) == Affinity(y, x)
  {
    AffinityIsSharedPrefix(x, y);
    AffinityIsSharedPrefix(y, x);
  }

  /** No key is closer to `z` through `y` than directly: the prefix metric is an ultrametric. */
  lemma AffinityUltrametric(x: Key, y: Key, z: Key)
    ensures Affinity(x, z) >= Affinity(x, y) || Affinity(x, z) >= Affinity(y, z)
  {
    AffinityIsSharedPrefix(x, y);
    AffinityIsSharedPrefix(y, z);
    AffinityIsSharedPrefix(x, z);
    var m := if Affinity(x, y) <= Affinity(y, z) then Affinity(x, y) else Affinity(y, z);
    forall i | 0 <= i < m
      ensures Bit(x, i) == Bit(z, i)
    {
      assert Bit(x, i) == Bit(y, i);
    }
  }

  lemma BitsDetermineByte(a: bv8, b: bv8)
    requires forall j :: 0 <= j < 8 ==> BitOfByte(a, j) == BitOfByte(b, j)
    ensures a == b
  {
    var k := a ^ b;
    forall j | 0 <= j < 8
      ensures !BitOfByte(k, j)
    {
      XorBits(a, b, j);
    }
    if k != 0 {
      LeadingZerosOfByte(k, LeadingZeros8(k));
    }
  }

  /** Only a key itself has full affinity. */
  lemma FullAffinityIffEqual(x: Key, y: Key)
    ensures Affinity(x, y) == KEY_BITS <==> x == y
  {
    AffinityIsSharedPrefix(x, y);
    if Affinity(x, y) == KEY_BITS {
      forall i | 0 <= i < KEY_BYTES
        ensures x[i] == y[i]
      {
        forall j | 0 <= j < 8
          ensures BitOfByte(x[i], j) == BitOfByte(y[i], j)
        {
          assert Bit(x, 8 * i + j) == Bit(y, 8 * i + j);
        }
        BitsDetermineByte(x[i], y[i]);
      }
    }
  }

  // ---- the XOR distance as a 256-bit number ----

  function Pow2(n: nat): (p: nat)
    ensures p >= 1
  {
    if n == 0 then 1 else 2 * Pow2(n - 1)
  }

  lemma {:induction false} Pow2Monotone(m: nat, n: nat)
    requires m <= n
    ensures Pow2(m) <= Pow2(n)
  {
    if m < n {
      Pow2Monotone(m, n - 1);
    }
  }

  /** The number whose binary digits are the first `n` bits of the XOR of two keys. */
  function DistanceOfPrefix(x: Key, y: Key, n: nat): (d: nat)
    requires n <= KEY_BITS
  {
    if n == 0 then 0
    else 2 * DistanceOfPrefix(x, y, n - 1) + if Bit(x, n - 1) != Bit(y, n - 1) then 1 else 0
  }

  function Distance(x: Key, y: Key): (d: nat) {
    DistanceOfPrefix(x, y, 8 * |x|)
  }

  lemma {:induction false} SharedPrefixIsZero(x: Key, y: Key, n: nat)
    requires n <= Affinity(x, y) <= KEY_BITS
    ensures DistanceOfPrefix(x, y, n) == 0
  {
    AffinityIsSharedPrefix(x, y);
    if n > 0 {
      SharedPrefixIsZero(x, y, n - 1);
      assert Bit(x, n - 1) == Bit(y, n - 1);
    }
  }

  lemma {:induction false} DistanceBelow(x: Key, y: Key, n: nat)
    requires Affinity(x, y) <= n <= KEY_BITS
    ensures DistanceOfPrefix(x, y, n) < Pow2(n - Affinity(x, y))
    ensures Affinity(x, y) < n ==> DistanceOfPrefix(x, y, n) >= Pow2(n - 1 - Affinity(x, y))
  {
    AffinityIsSharedPrefix(x, y);
    if n == Affinity(x, y) {
      SharedPrefixIsZero(x, y, n);
    } else {
      DistanceBelow(x, y, n - 1);
    }
  }

  /** The affinity is 256 less the bit length of the distance. */
  lemma AffinityMeasuresDistance(x: Key, y: Key)
    ensures Affinity(x, y) <= KEY_BITS
    ensures Distance(x, y) < Pow2(8 * |x| - Affinity(x, y))
    ensures x != y ==> Affinity(x, y) < 8 * |x| && Distance(x, y) >= Pow2(8 * |x| - 1 - Affinity(x, y))
  {
    AffinityIsSharedPrefix(x, y);
    DistanceBelow(x, y, 8 * |x|);
    FullAffinityIffEqual(x, y);
  }

  lemma FewerBitsIsSmaller(small: nat, large: nat, smallBits: nat, largeBits: nat)
    requires small < Pow2(smallBits) && smallBits < largeBits && large >= Pow2(largeBits - 1)
    ensures small < large
  {
    Pow2Monotone(smallBits, largeBits - 1);
  }

  /** A key with strictly higher affinity to the target is strictly nearer to it. */
  lemma HigherAffinityIsNearer(target: Key, x: Key, y: Key)
    requires Affinity(x, target) > Affinity(y, target)
    ensures Distance(x, target) < Distance(y, target)
  {
    AffinityMeasuresDistance(x, target);
    AffinityMeasuresDistance(y, target);
    FullAffinityIffEqual(y, target);
    FewerBitsIsSmaller(Distance(x, target), Distance(y, target), 8 * |x| - Affinity(x, target), 8 * |y| - Affinity(y, target));
  }
}
