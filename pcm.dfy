/** Raw little-endian signed 16-bit PCM as the host scripts see it through
    numpy: bytes to samples and back, numpy's int16 `abs`, the sign-bit zero
    crossing count, the distinct-value count, and the clip-and-truncate gain
    stage of `apply_volume_gain`. */
module Pcm {

  /** One byte of the serial stream. */
  type Byte = x: int | 0 <= x < 256

  const INT16_MIN: int := -32768
  const INT16_MAX: int := 32767

  predicate IsInt16(x: int)
  {
    INT16_MIN <= x <= INT16_MAX
  }

  predicate AllInt16(s: seq<int>)
  {
    forall i :: 0 <= i < |s| ==> IsInt16(s[i])
  }

  // ---------------------------------------------------------------------
  // np.frombuffer(data, dtype=np.int16) and ndarray.tobytes()
  // ---------------------------------------------------------------------

  /** The sample stored little-endian in `lo`, `hi`, read as two's complement. */
  function SampleOf(lo: Byte, hi: Byte): (x: int)
    ensures IsInt16(x)
  {
    var u := lo + 256 * hi;
    if u >= 32768 then u - 65536 else u
  }

  /** The 16-bit pattern of an int16 sample. */
  function Unsigned(x: int): (u: int)
    requires IsInt16(x)
    ensures 0 <= u < 65536
  {
    if x < 0 then x + 65536 else x
  }

  function LowByte(x: int): Byte
    requires IsInt16(x)
  {
    Unsigned(x) % 256
  }

  function HighByte(x: int): Byte
    requires IsInt16(x)
  {
    Unsigned(x) / 256
  }

  /** Decoding an even number of bytes: two bytes per sample, in order.
      An odd count has no decoding (numpy raises); callers check for it. */
  function Decode(b: seq<Byte>): (s: seq<int>)
    requires |b| % 2 == 0
    ensures |s| == |b| / 2
    ensures AllInt16(s)
    decreases |b|
  {
    if |b| == 0 then [] else [SampleOf(b[0], b[1])] + Decode(b[2..])
  }

  function Encode(s: seq<int>): (b: seq<Byte>)
    requires AllInt16(s)
    ensures |b| == 2 * |s|
  {
    if s == [] then [] else [LowByte(s[0]), HighByte(s[0])] + Encode(s[1..])
  }

  lemma {:induction false} DecodeEncode(s: seq<int>)
    requires AllInt16(s)
    ensures Decode(Encode(s)) == s
  {
    if s != [] {
      var b := Encode(s);
      assert b[2..] == Encode(s[1..]);
      assert SampleOf(b[0], b[1]) == s[0];
      DecodeEncode(s[1..]);
    }
  }

  lemma {:induction false} EncodeDecode(b: seq<Byte>)
    requires |b| % 2 == 0
    ensures Encode(Decode(b)) == b
    decreases |b|
  {
    if |b| != 0 {
      var s := Decode(b);
      assert s[1..] == Decode(b[2..]);
      assert LowByte(s[0]) == b[0] && HighByte(s[0]) == b[1];
      EncodeDecode(b[2..]);
    }
  }

  /** The i-th decoded sample is built from bytes 2i and 2i+1. */
  lemma {:induction false} DecodeAt(b: seq<Byte>, i: nat)
    requires |b| % 2 == 0 && i < |b| / 2
    ensures Decode(b)[i] == SampleOf(b[2 * i], b[2 * i + 1])
    decreases |b|
  {
    if i > 0 {
      DecodeAt(b[2..], i - 1);
    }
  }

  // ---------------------------------------------------------------------
  // np.max(np.abs(x)) on an int16 array
  // ---------------------------------------------------------------------

  function Abs(x: int): nat
  {
    if x < 0 then -x else x
  }

  /** numpy's `abs` on int16: -32768 has no int16 negation and stays -32768. */
  function Abs16(x: int): int
    requires IsInt16(x)
  {
    if x == INT16_MIN then INT16_MIN else Abs(x)
  }

  function Max(s: seq<int>): (m: int)
    requires |s| > 0
    ensures forall i :: 0 <= i < |s| ==> s[i] <= m
    ensures exists i :: 0 <= i < |s| && s[i] == m
  {
    if |s| == 1 then s[0]
    else
      var rest := Max(s[1..]);
      assert forall i :: 1 <= i < |s| ==> s[i] == s[1..][i - 1];
      if s[0] >= rest then s[0] else rest
  }

  /** `np.max(np.abs(x))` for an int16 array `x`. */
  function MaxAbs16(s: seq<int>): int
    requires |s| > 0 && AllInt16(s)
  {
    Max(seq(|s|, i requires 0 <= i < |s| => Abs16(s[i])))
  }

  /** The largest magnitude, computed without int16 wrap-around. */
  function MaxAbs(s: seq<int>): int
    requires |s| > 0
  {
    Max(seq(|s|, i requires 0 <= i < |s| => Abs(s[i])))
  }

  /** MaxAbs16 differs from the true largest magnitude only through -32768:
      without that value the two agree, and with it MaxAbs16 may be smaller. */
  lemma MaxAbs16Bounds(s: seq<int>)
    requires |s| > 0 && AllInt16(s)
    ensures MaxAbs16(s) <= MaxAbs(s)
    ensures (forall i :: 0 <= i < |s| ==> s[i] != INT16_MIN) ==> MaxAbs16(s) == MaxAbs(s)
    ensures forall i :: 0 <= i < |s| && s[i] != INT16_MIN ==> Abs(s[i]) <= MaxAbs16(s)
  {
    var w := seq(|s|, i requires 0 <= i < |s| => Abs16(s[i]));
    var t := seq(|s|, i requires 0 <= i < |s| => Abs(s[i]));
    var k :| 0 <= k < |s| && w[k] == Max(w);
    assert w[k] <= t[k];
    forall i | 0 <= i < |s| && s[i] != INT16_MIN ensures Abs(s[i]) <= MaxAbs16(s) {
      assert w[i] == Abs(s[i]);
    }
    if forall i :: 0 <= i < |s| ==> s[i] != INT16_MIN {
      var j :| 0 <= j < |s| && t[j] == Max(t);
      assert t[j] == w[j];
    }
  }

  /** Every int16 has magnitude at most 32768, and only -32768 reaches it. */
  lemma MaxAbsInt16(s: seq<int>)
    requires |s| > 0 && AllInt16(s)
    ensures 0 <= MaxAbs(s) <= 32768
    ensures forall i :: 0 <= i < |s| ==> Abs(s[i]) <= MaxAbs(s)
  {
    var t := seq(|s|, i requires 0 <= i < |s| => Abs(s[i]));
    var j :| 0 <= j < |s| && t[j] == Max(t);
    assert t[j] <= 32768;
    forall i | 0 <= i < |s| ensures Abs(s[i]) <= MaxAbs(s) {
      assert t[i] == Abs(s[i]);
    }
  }

  // ---------------------------------------------------------------------
  // np.sum(np.diff(np.signbit(x.astype(np.float32)))) and len(np.unique(x))
  // ---------------------------------------------------------------------

  /** Adjacent pairs whose sign bits differ; zero counts as non-negative
      (numpy's diff on a boolean array is elementwise inequality). */
  function ZeroCrossings(s: seq<int>): (zc: nat)
    ensures |s| > 0 ==> zc < |s|
    ensures |s| <= 1 ==> zc == 0
    decreases |s|
  {
    if |s| < 2 then 0
    else (if (s[0] < 0) != (s[1] < 0) then 1 else 0) + ZeroCrossings(s[1..])
  }

  /** The set of values occurring in `s`, the set `np.unique` lists. */
  function Values(s: seq<int>): set<int>
  {
    set x | x in s
  }

  function Distinct(s: seq<int>): nat
  {
    |Values(s)|
  }

  lemma {:induction false} DistinctBounds(s: seq<int>)
    ensures Distinct(s) <= |s|
    ensures |s| > 0 ==> 1 <= Distinct(s)
  {
    if s != [] {
      assert Values(s) == Values(s[1..]) + {s[0]} by {
        forall x ensures x in Values(s) <==> x in Values(s[1..]) + {s[0]} {
          if x in s && x != s[0] {
            var i :| 0 <= i < |s| && s[i] == x;
            assert s[1..][i - 1] == x;
          }
        }
      }
      DistinctBounds(s[1..]);
      assert s[0] in Values(s);
    }
  }

  // ---------------------------------------------------------------------
  // np.clip(x.astype(np.float32) * gain, -32768, 32767).astype(np.int16)
  // ---------------------------------------------------------------------

  function Clip(r: real): (c: real)
    ensures -32768.0 <= c <= 32767.0
    ensures -32768.0 <= r <= 32767.0 ==> c == r
    ensures r < -32768.0 ==> c == -32768.0
    ensures r > 32767.0 ==> c == 32767.0
  {
    if r < -32768.0 then -32768.0 else if r > 32767.0 then 32767.0 else r
  }

  /** Conversion of a float to an integer type: truncation toward zero. */
  function Trunc(r: real): (t: int)
    ensures 0.0 <= r ==> 0 <= t && t as real <= r < t as real + 1.0
    ensures r < 0.0 ==> t <= 0 && t as real - 1.0 < r <= t as real
  {
    if r >= 0.0 then r.Floor else -((-r).Floor)
  }

  /** The magnitude of a truncated value never exceeds the value's own. */
  lemma TruncBound(r: real, m: int)
    requires -(m as real) <= r <= m as real
    ensures Abs(Trunc(r)) <= m
  {
  }

  /** One sample through the float gain, saturation and int16 conversion. */
  function ScaleSample(x: int, gain: real): (y: int)
    ensures IsInt16(y)
  {
    Trunc(Clip(x as real * gain))
  }

  /** `apply_volume_gain`: every sample scaled, saturated into int16, truncated. */
  function ApplyVolumeGain(s: seq<int>, gain: real): (r: seq<int>)
    ensures |r| == |s| && AllInt16(r)
    ensures forall i :: 0 <= i < |s| ==> r[i] == ScaleSample(s[i], gain)
  {
    seq(|s|, i requires 0 <= i < |s| => ScaleSample(s[i], gain))
  }

  /** A product that already fits is only truncated: no sample is saturated
      unless the product leaves the int16 range. */
  lemma ScaleSampleInRange(x: int, gain: real)
    ensures -32768.0 <= x as real * gain <= 32767.0 ==> ScaleSample(x, gain) == Trunc(x as real * gain)
    ensures x as real * gain > 32767.0 ==> ScaleSample(x, gain) == INT16_MAX
    ensures x as real * gain < -32768.0 ==> ScaleSample(x, gain) == INT16_MIN
  {
  }

  /** A gain of exactly 1.0 is the identity on int16 data: every int16 is
      exact in float32, so the product fits and truncation is a no-op. */
  lemma {:induction false} UnitGainIsIdentity(s: seq<int>)
    requires AllInt16(s)
    ensures ApplyVolumeGain(s, 1.0) == s
  {
    forall i | 0 <= i < |s| ensures ApplyVolumeGain(s, 1.0)[i] == s[i] {
      var x := s[i];
      assert x as real * 1.0 == x as real;
      assert Trunc(x as real) == x;
    }
  }
}
