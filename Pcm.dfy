/**
 * The PCM chunk decoder shared by both screens (`decodePCMData` and its
 * twin `NativeRecordReceivePCM`): the byte string produced by base64
 * decoding is grouped into pairs, each pair becomes one sign-extended
 * little-endian 16-bit sample, and the absolute values are summed into a
 * loudness metric.
 */
module Pcm {

  /** One character code of a decoded binary string: always 0..255. */
  type Byte = x: int | 0 <= x < 0x100

  /** One element of an `Int16Array`. */
  type Int16 = x: int | -0x8000 <= x < 0x8000

  /** The unsigned value of a little-endian byte pair. */
  function Uint16LE(lo: Byte, hi: Byte): (v: int)
    ensures 0 <= v < 0x1_0000
    ensures v % 0x100 == lo && v / 0x100 == hi
  {
    lo + 0x100 * hi
  }

  /** Two's-complement reading of a 16-bit pattern: the unique Int16 congruent to `v` modulo 2^16. */
  function SignExtend16(v: int): (s: Int16)
    requires 0 <= v < 0x1_0000
    ensures (s as int) % 0x1_0000 == v
    ensures s < 0 <==> v >= 0x8000
  {
    if v < 0x8000 then v else v - 0x1_0000
  }

  // ---------------------------------------------------------------------
  // The JavaScript expression `((lo | (hi << 8)) << 16) >> 16`, spelled out
  // on 32-bit integers the way the language evaluates it: every bitwise
  // operator converts its operands with ToInt32.
  // ---------------------------------------------------------------------

  /** ECMAScript ToInt32: the signed 32-bit integer congruent to `x` modulo 2^32. */
  function ToInt32(x: int): (r: int)
    ensures -0x8000_0000 <= r < 0x8000_0000
    ensures (x - r) % 0x1_0000_0000 == 0
  {
    var m := x % 0x1_0000_0000;
    if m < 0x8000_0000 then m else m - 0x1_0000_0000
  }

  /** `x << 8`: both operand and result pass through ToInt32. */
  function ShiftLeft8(x: int): int
  {
    ToInt32(ToInt32(x) * 0x100)
  }

  /** `x << 16`: both operand and result pass through ToInt32. */
  function ShiftLeft16(x: int): int
  {
    ToInt32(ToInt32(x) * 0x1_0000)
  }

  /** `x >> 16`: arithmetic shift, i.e. floor division of ToInt32(x) by 2^16 (Dafny's `/` floors for a positive divisor). */
  function ShiftRight16(x: int): int
  {
    ToInt32(x) / 0x1_0000
  }

  function Pow2(k: nat): (p: nat)
    ensures p >= 1
  {
    if k == 0 then 1 else 2 * Pow2(k - 1)
  }

  /** Bitwise OR of two non-negative integers, taken bit by bit from the lowest. */
  function BitOr(a: nat, b: nat): nat
    decreases a + b
  {
    if a == 0 && b == 0 then 0
    else 2 * BitOr(a / 2, b / 2) + (if a % 2 == 1 || b % 2 == 1 then 1 else 0)
  }

  /** `x | y`: the OR of the two 32-bit patterns, read back as a signed 32-bit integer. */
  function BitOr32(x: int, y: int): int
  {
    ToInt32(BitOr(x % 0x1_0000_0000, y % 0x1_0000_0000))
  }

  /** The sample the decoder loop computes from one byte pair: `((lo | (hi << 8)) << 16) >> 16`. */
  function JsSample(lo: Byte, hi: Byte): int
  {
    ShiftRight16(ShiftLeft16(BitOr32(lo, ShiftLeft8(hi))))
  }

  lemma {:induction false} BitOrZero(b: nat)
    ensures BitOr(0, b) == b
    decreases b
  {
    if b != 0 {
      BitOrZero(b / 2);
    }
  }

  /** The OR of a value below 2^k with a multiple of 2^k is their sum: the bits do not overlap. */
  lemma {:induction false} BitOrDisjoint(a: nat, m: nat, k: nat)
    requires a < Pow2(k)
    ensures BitOr(a, m * Pow2(k)) == a + m * Pow2(k)
    decreases k
  {
    if k == 0 {
      BitOrZero(m);
    } else {
      var p := Pow2(k - 1);
      var b := m * Pow2(k);
      assert b == 2 * (m * p);
      assert b / 2 == m * p && b % 2 == 0;
      BitOrDisjoint(a / 2, m, k - 1);
      if a != 0 || b != 0 {
        assert BitOr(a, b) == 2 * BitOr(a / 2, m * p) + a % 2;
      }
    }
  }

  /** `hi << 8` of a byte cannot overflow. */
  lemma ShiftLeft8Byte(hi: Byte)
    ensures ShiftLeft8(hi) == hi * 0x100
  {
    assert ToInt32(hi) == hi;
    assert ToInt32(hi * 0x100) == hi * 0x100;
  }

  /** `lo | (hi << 8)` is the little-endian value of the byte pair: the two bit ranges are disjoint. */
  lemma JsPairIsUint16LE(lo: Byte, hi: Byte)
    ensures BitOr32(lo, ShiftLeft8(hi)) == Uint16LE(lo, hi)
  {
    var shifted := ShiftLeft8(hi);
    var v := Uint16LE(lo, hi);
    var a, b := lo % 0x1_0000_0000, shifted % 0x1_0000_0000;
    assert a == lo;
    assert b == hi * 0x100 by {
      ShiftLeft8Byte(hi);
    }
    assert BitOr(a, b) == v by {
      assert Pow2(8) == 0x100;
      BitOrDisjoint(lo, hi, 8);
    }
    assert BitOr32(lo, shifted) == ToInt32(BitOr(a, b));
  }

  /** Scaling by 2^16 and flooring back is the identity. */
  lemma ScaleDown16(q: int)
    ensures (q * 0x1_0000) / 0x1_0000 == q
  {
  }

  /** On a 16-bit pattern, `(v << 16) >> 16` is 16-bit sign extension. */
  lemma ShiftPairIsSignExtension(v: int)
    requires 0 <= v < 0x1_0000
    ensures ShiftRight16(ShiftLeft16(v)) == SignExtend16(v)
  {
    assert ToInt32(v) == v;
    var shifted := v * 0x1_0000;
    assert 0 <= shifted < 0x1_0000_0000;
    assert shifted % 0x1_0000_0000 == shifted;
    var s := SignExtend16(v);
    if v < 0x8000 {
      assert shifted < 0x8000_0000;
      assert ToInt32(shifted) == (s as int) * 0x1_0000;
    } else {
      assert shifted >= 0x8000_0000;
      assert ToInt32(shifted) == shifted - 0x1_0000_0000 == (s as int) * 0x1_0000;
    }
    ScaleDown16(s as int);
  }

  /** The whole expression of the source is exactly 16-bit sign extension of the little-endian pair. */
  lemma JsSampleIsSignExtension(lo: Byte, hi: Byte)
    ensures JsSample(lo, hi) == SignExtend16(Uint16LE(lo, hi))
  {
    JsPairIsUint16LE(lo, hi);
    ShiftPairIsSignExtension(Uint16LE(lo, hi));
  }

  // ---------------------------------------------------------------------
  // Specification of the decoder
  // ---------------------------------------------------------------------

  /**
   * The samples of a decoded byte string: one per complete byte pair, the
   * pair read low byte first; a trailing odd byte yields nothing.
   */
  function DecodeSamples(bytes: seq<Byte>): (pcm: seq<Int16>)
  {
    seq(|bytes| / 2, idx requires 0 <= idx < |bytes| / 2 =>
      SignExtend16(Uint16LE(bytes[2 * idx], bytes[2 * idx + 1])))
  }

  function Abs(x: int): nat
  {
    if x < 0 then -x else x
  }

  /** Sum of absolute values, accumulated front to back as the decoder loop does. */
  function AbsSum(s: seq<int>): nat
  {
    if s == [] then 0 else AbsSum(s[..|s| - 1]) + Abs(s[|s| - 1])
  }

  /** floor(n/2) samples for n bytes; sample idx is the signed little-endian value of bytes 2·idx and 2·idx+1. */
  lemma DecodedSamplesAt(bytes: seq<Byte>)
    ensures |DecodeSamples(bytes)| == |bytes| / 2
    ensures forall idx :: 0 <= idx < |bytes| / 2 ==>
      -0x8000 <= DecodeSamples(bytes)[idx] < 0x8000 &&
      (DecodeSamples(bytes)[idx] as int) % 0x1_0000 == Uint16LE(bytes[2 * idx], bytes[2 * idx + 1])
  {
  }

  /** An odd trailing byte is dropped silently: it changes nothing in the result. */
  lemma OddTrailingByteIgnored(bytes: seq<Byte>, extra: Byte)
    requires |bytes| % 2 == 0
    ensures DecodeSamples(bytes + [extra]) == DecodeSamples(bytes)
  {
    var a, b := DecodeSamples(bytes + [extra]), DecodeSamples(bytes);
    assert |a| == |b|;
    forall idx | 0 <= idx < |a| ensures a[idx] == b[idx] {
      assert (bytes + [extra])[2 * idx] == bytes[2 * idx];
      assert (bytes + [extra])[2 * idx + 1] == bytes[2 * idx + 1];
    }
  }

  /** Decoding an even-length prefix and the rest separately gives the same samples in the same order. */
  lemma DecodeSplits(front: seq<Byte>, back: seq<Byte>)
    requires |front| % 2 == 0
    ensures DecodeSamples(front + back) == DecodeSamples(front) + DecodeSamples(back)
  {
    var whole, a, b := DecodeSamples(front + back), DecodeSamples(front), DecodeSamples(back);
    assert |whole| == |a| + |b|;
    forall idx | 0 <= idx < |whole| ensures whole[idx] == (a + b)[idx] {
      if idx >= |a| {
        var k := idx - |a|;
        assert 2 * idx == |front| + 2 * k;
        assert (front + back)[2 * idx] == back[2 * k];
        assert (front + back)[2 * idx + 1] == back[2 * k + 1];
      } else {
        assert (front + back)[2 * idx] == front[2 * idx];
        assert (front + back)[2 * idx + 1] == front[2 * idx + 1];
      }
    }
  }

  /** The loudness metric lies in [0, 32768 · sample count]. */
  lemma {:induction false} AbsSumBounds(s: seq<Int16>)
    ensures 0 <= AbsSum(s) <= 0x8000 * |s|
  {
    if s != [] {
      AbsSumBounds(s[..|s| - 1]);
    }
  }

  /** The loudness metric is zero exactly when every sample is silent. */
  lemma {:induction false} AbsSumZeroIffSilent(s: seq<int>)
    ensures AbsSum(s) == 0 <==> forall i :: 0 <= i < |s| ==> s[i] == 0
  {
    if s != [] {
      var init := s[..|s| - 1];
      AbsSumZeroIffSilent(init);
      assert forall i :: 0 <= i < |init| ==> init[i] == s[i];
    }
  }

  /** The loudness of consecutive runs adds up. */
  lemma {:induction false} AbsSumAppend(s: seq<int>, t: seq<int>)
    ensures AbsSum(s + t) == AbsSum(s) + AbsSum(t)
  {
    if t != [] {
      var init := t[..|t| - 1];
      assert (s + t)[..|s + t| - 1] == s + init;
      AbsSumAppend(s, init);
    } else {
      assert s + t == s;
    }
  }

  // ---------------------------------------------------------------------
  // The decoder
  // ---------------------------------------------------------------------

  /**
   * `decodePCMData` / `NativeRecordReceivePCM` from the decoded byte string
   * on: fills a fresh Int16Array of floor(n/2) samples pair by pair and
   * returns it with the sum of absolute sample values.
   */
  method DecodePcm(bytes: seq<Byte>) returns (pcm: seq<Int16>, sum: nat)
    ensures pcm == DecodeSamples(bytes)
    ensures sum == AbsSum(pcm)
  {
    var n := |bytes|;
    var buffer := new Int16[n / 2];
    sum := 0;
    var i, idx := 0, 0;
    while i + 2 <= n
      invariant i == 2 * idx && i <= n && idx <= n / 2
      invariant forall k :: 0 <= k < idx ==>
        buffer[k] == SignExtend16(Uint16LE(bytes[2 * k], bytes[2 * k + 1]))
      invariant sum == AbsSum(buffer[..idx])
    {
      assert idx < n / 2;
      JsSampleIsSignExtension(bytes[i], bytes[i + 1]);
      var sample := JsSample(bytes[i], bytes[i + 1]);
      buffer[idx] := sample;
      assert buffer[..idx + 1][..idx] == buffer[..idx];
      sum := sum + Abs(sample);
      i, idx := i + 2, idx + 1;
    }
    assert idx == n / 2;
    assert buffer[..] == buffer[..idx];
    pcm := buffer[..];
    assert |pcm| == |DecodeSamples(bytes)|;
  }
}
