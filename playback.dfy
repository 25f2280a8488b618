/** The per-read processing of listen_realtime.py: a read of at least 4 bytes
    is decoded and scaled so that its peak does not exceed 20000, never
    amplified, and written to the audio stream.

    As written, the peak is `np.max(np.abs(audio))` on int16 data, where
    -32768 stays -32768; a chunk holding -32768 can then have its peak
    underestimated and leave the scaling above the target (`AutoGain`,
    `AutoGainMissesMinimum`, `PlaybackBlockExceedsTarget`). `PlaybackBlock`
    is the step as written. `AutoGainWide` takes the magnitude without the
    wrap-around, the evidently intended peak, and `PlaybackBlockWide` is the
    step with it. */
module Playback {
  import opened Numerics
  import opened Pcm

  const TARGET_PEAK := 20000
  /** Reads shorter than this many bytes are not played. */
  const MIN_PLAY_BYTES := 4

  /** The gain `min(20000 / max_val, 1.0)`. */
  function PeakGain(maxVal: int): (g: real)
    requires maxVal > 0
    ensures 0.0 < g <= 1.0 && g <= TARGET_PEAK as real / maxVal as real
    ensures maxVal <= TARGET_PEAK ==> g == 1.0
    ensures maxVal > TARGET_PEAK ==> g == TARGET_PEAK as real / maxVal as real
  {
    var q := TARGET_PEAK as real / maxVal as real;
    assert maxVal <= TARGET_PEAK ==> q >= 1.0 by {
      assert q * maxVal as real == TARGET_PEAK as real;
      assert (q - 1.0) * maxVal as real == (TARGET_PEAK - maxVal) as real;
    }
    RMin(q, 1.0)
  }

  /** Lines 57-61 for a given `max_val`: every sample scaled by the peak gain
      and truncated toward zero (no clipping), or left alone when `max_val`
      is not positive. */
  function ScaleToPeak(audio: seq<int>, maxVal: int): (out: seq<int>)
    ensures |out| == |audio|
  {
    if maxVal > 0 then seq(|audio|, i requires 0 <= i < |audio| => ScaleSampleToPeak(audio[i], maxVal))
    else audio
  }

  /** The auto-gain as written, with numpy's int16 `abs`. */
  function AutoGain(audio: seq<int>): seq<int>
    requires |audio| > 0 && AllInt16(audio)
  {
    ScaleToPeak(audio, MaxAbs16(audio))
  }

  /** The auto-gain with the true largest magnitude. */
  function AutoGainWide(audio: seq<int>): seq<int>
    requires |audio| > 0
  {
    ScaleToPeak(audio, MaxAbs(audio))
  }

  /** A gain in (0, 1] moves a sample toward zero without crossing it. */
  lemma ProductBounds(x: int, g: real)
    requires 0.0 < g <= 1.0
    ensures x >= 0 ==> 0.0 <= x as real * g <= x as real
    ensures x < 0 ==> x as real <= x as real * g <= 0.0
  {
    var v := x as real;
    assert v * g - v == (1.0 - g) * (-v);
    if x >= 0 {
      assert (1.0 - g) * v >= 0.0;
      assert g * v >= 0.0;
    } else {
      assert (1.0 - g) * (-v) >= 0.0;
      assert g * (-v) >= 0.0;
    }
  }

  /** A magnitude within `m`, scaled by at most TARGET_PEAK / m, is within
      TARGET_PEAK. */
  lemma WithinTarget(a: real, m: real, g: real)
    requires 0.0 <= a <= m && 0.0 < m && 0.0 < g <= TARGET_PEAK as real / m
    ensures a * g <= TARGET_PEAK as real
  {
    var q := TARGET_PEAK as real / m;
    assert m * q == TARGET_PEAK as real;
    assert a * g <= a * q by {
      assert (q - g) * a >= 0.0;
    }
    assert a * q <= m * q by {
      assert (m - a) * q >= 0.0;
    }
  }

  /** A sample scaled by a gain in (0, 1] keeps its sign and does not grow. */
  lemma ScaledBy(x: int, g: real)
    requires 0.0 < g <= 1.0
    ensures Abs(Trunc(x as real * g)) <= Abs(x)
    ensures x < 0 ==> Trunc(x as real * g) <= 0
    ensures x >= 0 ==> Trunc(x as real * g) >= 0
  {
    ProductBounds(x, g);
    TruncBound(x as real * g, Abs(x));
  }

  /** ... and stays within `bound` when its unrounded magnitude does. */
  lemma ScaledWithin(x: int, g: real, bound: int)
    requires 0.0 < g
    requires Abs(x) as real * g <= bound as real
    ensures Abs(Trunc(x as real * g)) <= bound
  {
    var r := x as real * g;
    if x < 0 {
      var a := (-x) as real;
      assert r == -(a * g);
    }
    TruncBound(r, bound);
  }

  lemma UnitScale(x: int)
    ensures Trunc(x as real * 1.0) == x
  {
    assert x as real * 1.0 == x as real;
  }

  /** A sample within `m`, scaled by a gain of at most TARGET_PEAK / m, lands
      within the target. */
  lemma ScaledIfWithin(x: int, m: int, g: real)
    requires 0 < m && 0.0 < g <= TARGET_PEAK as real / m as real
    ensures Abs(x) <= m ==> Abs(Trunc(x as real * g)) <= TARGET_PEAK
  {
    if Abs(x) <= m {
      WithinTarget(Abs(x) as real, m as real, g);
      ScaledWithin(x, g, TARGET_PEAK);
    }
  }

  /** A sample of magnitude `m` above the target, scaled by exactly
      TARGET_PEAK / m, lands on the target. */
  lemma ScaledOntoTarget(x: int, m: int)
    requires m > 0
    ensures Abs(x) == m > TARGET_PEAK ==>
      Abs(Trunc(x as real * (TARGET_PEAK as real / m as real))) == TARGET_PEAK
  {
    if Abs(x) == m > TARGET_PEAK {
      var q := TARGET_PEAK as real / m as real;
      assert q * m as real == TARGET_PEAK as real;
      if x >= 0 {
        assert x as real * q == TARGET_PEAK as real;
      } else {
        assert x as real * q == -(m as real * q);
      }
    }
  }

  /** One sample of line 61: `sample * gain` truncated toward zero. It keeps
      its sign, never grows, lands within the target when the sample was
      within `maxVal` and on it when the sample is the peak above the target,
      and is unchanged when `maxVal` is within the target. */
  function ScaleSampleToPeak(x: int, maxVal: int): (y: int)
    requires maxVal > 0
    ensures Abs(y) <= Abs(x)
    ensures x < 0 ==> y <= 0
    ensures x >= 0 ==> y >= 0
    ensures Abs(x) <= maxVal ==> Abs(y) <= TARGET_PEAK
    ensures maxVal <= TARGET_PEAK ==> y == x
    ensures Abs(x) == maxVal > TARGET_PEAK ==> Abs(y) == TARGET_PEAK
  {
    var g := PeakGain(maxVal);
    ScaledBy(x, g);
    ScaledIfWithin(x, maxVal, g);
    UnitScale(x);
    ScaledOntoTarget(x, maxVal);
    Trunc(x as real * g)
  }

  /** The auto-gain never makes a sample louder and never flips its sign,
      whatever `max_val` is; so int16 input stays int16. */
  lemma {:induction false} ScaleNeverAmplifies(audio: seq<int>, maxVal: int)
    ensures forall i :: 0 <= i < |audio| ==>
      Abs(ScaleToPeak(audio, maxVal)[i]) <= Abs(audio[i])
      && (audio[i] < 0 ==> ScaleToPeak(audio, maxVal)[i] <= 0)
      && (audio[i] >= 0 ==> ScaleToPeak(audio, maxVal)[i] >= 0)
    ensures AllInt16(audio) ==> AllInt16(ScaleToPeak(audio, maxVal))
  {
    if maxVal > 0 {
      forall i | 0 <= i < |audio|
        ensures Abs(ScaleToPeak(audio, maxVal)[i]) <= Abs(audio[i])
        ensures audio[i] < 0 ==> ScaleToPeak(audio, maxVal)[i] <= 0
        ensures audio[i] >= 0 ==> ScaleToPeak(audio, maxVal)[i] >= 0
      {
        assert ScaleToPeak(audio, maxVal)[i] == ScaleSampleToPeak(audio[i], maxVal);
      }
    }
  }

  /** A peak already within the target leaves the chunk unchanged: the gain
      is exactly 1.0. */
  lemma {:induction false} AutoGainKeepsQuietChunks(audio: seq<int>)
    requires |audio| > 0 && AllInt16(audio)
    requires 0 < MaxAbs16(audio) <= TARGET_PEAK
    ensures AutoGain(audio) == audio
  {
    var m := MaxAbs16(audio);
    forall i | 0 <= i < |audio| ensures AutoGain(audio)[i] == audio[i] {
      assert AutoGain(audio)[i] == ScaleSampleToPeak(audio[i], m);
    }
  }

  /** `max_val` is not positive exactly when every sample is 0 or -32768,
      and then the chunk is played unscaled. */
  lemma MaxNotPositive(audio: seq<int>)
    requires |audio| > 0 && AllInt16(audio)
    ensures MaxAbs16(audio) <= 0 <==> forall i :: 0 <= i < |audio| ==> audio[i] == 0 || audio[i] == INT16_MIN
    ensures MaxAbs16(audio) <= 0 ==> AutoGain(audio) == audio
  {
    var w := seq(|audio|, i requires 0 <= i < |audio| => Abs16(audio[i]));
    assert forall i :: 0 <= i < |audio| ==> w[i] == Abs16(audio[i]);
    if forall i :: 0 <= i < |audio| ==> audio[i] == 0 || audio[i] == INT16_MIN {
      var k :| 0 <= k < |audio| && w[k] == Max(w);
    }
  }

  /** Without -32768 in the chunk, no output sample exceeds 20000 in
      magnitude: a peak above the target is brought down to it, and a peak
      within it is left alone. */
  lemma {:induction false} AutoGainCapsPeak(audio: seq<int>)
    requires |audio| > 0 && AllInt16(audio)
    requires forall i :: 0 <= i < |audio| ==> audio[i] != INT16_MIN
    ensures forall i :: 0 <= i < |audio| ==> Abs(AutoGain(audio)[i]) <= TARGET_PEAK
  {
    MaxAbs16Bounds(audio);
    var m := MaxAbs16(audio);
    if m > 0 {
      forall i | 0 <= i < |audio| ensures Abs(AutoGain(audio)[i]) <= TARGET_PEAK {
        assert AutoGain(audio)[i] == ScaleSampleToPeak(audio[i], m);
      }
    }
  }

  /** The normalising half of lines 59-61: without -32768 in the chunk, a
      peak above the target is brought exactly onto it. */
  lemma {:induction false} AutoGainReachesTarget(audio: seq<int>)
    requires |audio| > 0 && AllInt16(audio)
    requires forall i :: 0 <= i < |audio| ==> audio[i] != INT16_MIN
    requires MaxAbs16(audio) > TARGET_PEAK
    ensures exists i :: 0 <= i < |audio| && Abs(AutoGain(audio)[i]) == TARGET_PEAK
  {
    MaxAbs16Bounds(audio);
    var m := MaxAbs16(audio);
    var t := seq(|audio|, i requires 0 <= i < |audio| => Abs(audio[i]));
    var k :| 0 <= k < |audio| && t[k] == Max(t);
    assert AutoGain(audio)[k] == ScaleSampleToPeak(audio[k], m);
  }

  /** As written, [-32768, 30000] has `max_val` 30000 (the -32768 reads as
      -32768 after `abs`), so the gain is 2/3 and the first sample becomes
      -21845, beyond the 20000 target. */
  lemma AutoGainMissesMinimum()
    ensures AutoGain([INT16_MIN, 30000])[0] == -21845
    ensures Abs(AutoGain([INT16_MIN, 30000])[0]) > TARGET_PEAK
  {
    var audio := [INT16_MIN, 30000];
    var w := seq(|audio|, i requires 0 <= i < |audio| => Abs16(audio[i]));
    assert w == [INT16_MIN, 30000];
    assert MaxAbs16(audio) == 30000;
    var g := PeakGain(30000);
    assert g == 2.0 / 3.0;
    var r := INT16_MIN as real * g;
    assert r == -65536.0 / 3.0;
    assert (-r).Floor == 21845;
  }

  /** With the true magnitude, every output sample is within the target,
      for every int16 chunk; and a chunk already within it is unchanged. */
  lemma {:induction false} AutoGainWideCapsPeak(audio: seq<int>)
    requires |audio| > 0 && AllInt16(audio)
    ensures forall i :: 0 <= i < |audio| ==> Abs(AutoGainWide(audio)[i]) <= TARGET_PEAK
    ensures forall i :: 0 <= i < |audio| ==> Abs(AutoGainWide(audio)[i]) <= Abs(audio[i])
    ensures MaxAbs(audio) <= TARGET_PEAK ==> AutoGainWide(audio) == audio
  {
    var m := MaxAbs(audio);
    MaxAbsInt16(audio);
    ScaleNeverAmplifies(audio, m);
    if m > 0 {
      forall i | 0 <= i < |audio|
        ensures Abs(AutoGainWide(audio)[i]) <= TARGET_PEAK
        ensures m <= TARGET_PEAK ==> AutoGainWide(audio)[i] == audio[i]
      {
        assert AutoGainWide(audio)[i] == ScaleSampleToPeak(audio[i], m);
      }
    }
  }

  /** With the true magnitude, a peak above the target is brought exactly
      onto it for every int16 chunk. */
  lemma {:induction false} AutoGainWideReachesTarget(audio: seq<int>)
    requires |audio| > 0 && AllInt16(audio)
    requires MaxAbs(audio) > TARGET_PEAK
    ensures exists i :: 0 <= i < |audio| && Abs(AutoGainWide(audio)[i]) == TARGET_PEAK
  {
    var m := MaxAbs(audio);
    var t := seq(|audio|, i requires 0 <= i < |audio| => Abs(audio[i]));
    var k :| 0 <= k < |audio| && t[k] == Max(t);
    assert AutoGainWide(audio)[k] == ScaleSampleToPeak(audio[k], m);
  }

  /** What one read leads to. */
  datatype Block =
    | Skipped                  // fewer than 4 bytes: nothing is played
    | Played(samples: seq<int>)
    | Stopped                  // np.frombuffer raised: playback ends

  /** Lines 48-64 for one read, as written: a played block is the decoded
      chunk through `AutoGain`. No sample grows; the 20000 target holds
      whenever the chunk has no -32768. */
  function PlaybackBlock(data: seq<Byte>): (b: Block)
    ensures b.Played? <==> |data| >= MIN_PLAY_BYTES && |data| % 2 == 0
    ensures b.Played? ==>
      |data| % 2 == 0 && |b.samples| == |data| / 2 && AllInt16(b.samples)
      && (forall i :: 0 <= i < |b.samples| ==> Abs(b.samples[i]) <= Abs(Decode(data)[i]))
      && ((forall i :: 0 <= i < |data| / 2 ==> Decode(data)[i] != INT16_MIN) ==>
            forall i :: 0 <= i < |b.samples| ==> Abs(b.samples[i]) <= TARGET_PEAK)
  {
    if |data| < MIN_PLAY_BYTES then Skipped
    else if |data| % 2 == 1 then Stopped
    else
      var audio := Decode(data);
      ScaleNeverAmplifies(audio, MaxAbs16(audio));
      assert (forall i :: 0 <= i < |audio| ==> audio[i] != INT16_MIN) ==>
        forall i :: 0 <= i < |audio| ==> Abs(AutoGain(audio)[i]) <= TARGET_PEAK by {
        if forall i :: 0 <= i < |audio| ==> audio[i] != INT16_MIN {
          AutoGainCapsPeak(audio);
        }
      }
      Played(AutoGain(audio))
  }

  /** The bytes 00 80 30 75 (samples -32768 and 30000) are played as written
      as -21845 and 20000: the first sample lies beyond the target. */
  lemma PlaybackBlockExceedsTarget()
    ensures PlaybackBlock([0x00, 0x80, 0x30, 0x75]) == Played([-21845, 20000])
  {
    var data: seq<Byte> := [0x00, 0x80, 0x30, 0x75];
    var audio := Decode(data);
    assert data[2..][2..] == [];
    assert audio == [INT16_MIN, 30000];
    AutoGainMissesMinimum();
    var g := PeakGain(30000);
    assert g == 2.0 / 3.0;
    assert 30000 as real * g == 20000.0;
    assert AutoGain(audio)[1] == 20000;
    assert AutoGain(audio) == [-21845, 20000];
  }

  /** The same read with the corrected auto-gain: every played sample is
      within 20000, whatever the chunk holds. */
  function PlaybackBlockWide(data: seq<Byte>): (b: Block)
    ensures b.Played? <==> |data| >= MIN_PLAY_BYTES && |data| % 2 == 0
    ensures b.Played? ==>
      |data| % 2 == 0 && |b.samples| == |data| / 2 && AllInt16(b.samples)
      && (forall i :: 0 <= i < |b.samples| ==> Abs(b.samples[i]) <= Abs(Decode(data)[i]))
      && forall i :: 0 <= i < |b.samples| ==> Abs(b.samples[i]) <= TARGET_PEAK
  {
    if |data| < MIN_PLAY_BYTES then Skipped
    else if |data| % 2 == 1 then Stopped
    else
      var audio := Decode(data);
      AutoGainWideCapsPeak(audio);
      ScaleNeverAmplifies(audio, MaxAbs(audio));
      Played(AutoGainWide(audio))
  }
}
