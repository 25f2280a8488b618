/** `SimpleAudioProcessor` of src/audio_filter.py: a Butterworth filter whose
    coefficients `b`, `a` and delay-line state `zi` live in the object and are
    threaded from one chunk to the next, followed by a saturating gain.

    scipy's `butter`, `lfilter` and `lfilter_zi` are not reproduced: a
    `Scipy` record supplies them and the model states only when each is
    called, with what, and where its result is stored. */
module AudioFilter {
  import opened Wrappers
  import opened Numerics
  import opened Pcm

  const BUTTER_ORDER: nat := 4

  /** Filter types the processor understands; any other name designs nothing. */
  const NONE: string := "none"
  const BANDPASS: string := "bandpass"
  const LOWPASS: string := "lowpass"
  const HIGHPASS: string := "highpass"

  /** A request to `signal.butter`, with critical frequencies normalised to
      the Nyquist frequency. */
  datatype Design = BandPass(low: real, high: real) | LowPass(cutoff: real) | HighPass(cutoff: real)

  /** `butter` raises ValueError unless every normalised critical frequency
      lies strictly between 0 and 1. */
  predicate ButterAccepts(d: Design)
  {
    match d
    case BandPass(low, high) => 0.0 < low < 1.0 && 0.0 < high < 1.0
    case LowPass(w) => 0.0 < w < 1.0
    case HighPass(w) => 0.0 < w < 1.0
  }

  datatype Scipy = Scipy(
    butter: (nat, Design) -> (seq<real>, seq<real>),                                  // (b, a)
    lfilterZi: (seq<real>, seq<real>) -> seq<real>,                                  // zi
    lfilter: (seq<real>, seq<real>, seq<real>, seq<real>) -> (seq<real>, seq<real>), // (y, zf)
    ops: FloatOps)

  datatype FilterError = CriticalFrequencyOutOfRange

  /** The design `_init_filter` passes to `butter` for this configuration, or
      None where its guard leaves the coefficients untouched. */
  function PlannedDesign(filterType: string, freqLow: real, freqHigh: real, nyquist: real): Option<Design>
    requires nyquist > 0.0
  {
    if filterType == BANDPASS then
      var low := RMax(1.0, freqLow) / nyquist;
      var high := RMin(freqHigh, nyquist - 1.0) / nyquist;
      if low < 1.0 && high < 1.0 && low < high then Some(BandPass(low, high)) else None
    else if filterType == LOWPASS then
      var w := RMin(freqHigh, nyquist - 1.0) / nyquist;
      if w < 1.0 then Some(LowPass(w)) else None
    else if filterType == HIGHPASS then
      var w := RMax(1.0, freqLow) / nyquist;
      if w < 1.0 then Some(HighPass(w)) else None
    else None
  }

  lemma DivLess(x: real, y: real, n: real)
    requires n > 0.0
    ensures x / n < y / n <==> x < y
  {
    if x < y {
      assert (y - x) / n > 0.0;
    } else {
      assert (x - y) / n >= 0.0;
    }
  }

  /** The design rules in Hz: a bandpass is designed exactly when
      max(1, low) < min(high, nyquist - 1), a highpass exactly when
      max(1, low) < nyquist, a lowpass always; and no other type (including
      'none' and unknown names) designs anything. */
  lemma {:induction false} DesignRules(filterType: string, freqLow: real, freqHigh: real, nyquist: real)
    requires nyquist > 0.0
    ensures filterType == BANDPASS ==>
      (PlannedDesign(filterType, freqLow, freqHigh, nyquist).Some? <==> RMax(1.0, freqLow) < RMin(freqHigh, nyquist - 1.0))
    ensures filterType == HIGHPASS ==>
      (PlannedDesign(filterType, freqLow, freqHigh, nyquist).Some? <==> RMax(1.0, freqLow) < nyquist)
    ensures filterType == LOWPASS ==> PlannedDesign(filterType, freqLow, freqHigh, nyquist).Some?
    ensures filterType !in {BANDPASS, LOWPASS, HIGHPASS} ==> PlannedDesign(filterType, freqLow, freqHigh, nyquist).None?
  {
    var lo, hi := RMax(1.0, freqLow), RMin(freqHigh, nyquist - 1.0);
    DivLess(lo, hi, nyquist);
    DivLess(lo, nyquist, nyquist);
    DivLess(hi, nyquist, nyquist);
    assert nyquist / nyquist == 1.0;
  }

  /** butter never raises on a bandpass or highpass the guard let through;
      a lowpass passes the guard always and raises exactly when
      min(freq_high, nyquist - 1) is not positive. */
  lemma {:induction false} ButterRaisesOnlyOnLowpass(filterType: string, freqLow: real, freqHigh: real, nyquist: real)
    requires nyquist > 0.0
    requires PlannedDesign(filterType, freqLow, freqHigh, nyquist).Some?
    ensures filterType != LOWPASS ==> ButterAccepts(PlannedDesign(filterType, freqLow, freqHigh, nyquist).value)
    ensures filterType == LOWPASS ==>
      (ButterAccepts(PlannedDesign(filterType, freqLow, freqHigh, nyquist).value) <==> RMin(freqHigh, nyquist - 1.0) > 0.0)
  {
    var lo, hi := RMax(1.0, freqLow), RMin(freqHigh, nyquist - 1.0);
    DivLess(0.0, lo, nyquist);
    DivLess(0.0, hi, nyquist);
  }

  /** `filtered_float * 32768`, saturated and truncated to int16. */
  function FromFloat(y: seq<real>): (r: seq<int>)
    ensures |r| == |y| && AllInt16(r)
  {
    seq(|y|, i requires 0 <= i < |y| => Trunc(Clip(y[i] * 32768.0)))
  }

  /** `audio.astype(np.float32) / 32768.0`: int16 samples land in [-1, 1). */
  function ToFloat(s: seq<int>): (r: seq<real>)
    ensures |r| == |s|
    ensures AllInt16(s) ==> forall i :: 0 <= i < |r| ==> -1.0 <= r[i] < 1.0
  {
    seq(|s|, i requires 0 <= i < |s| => s[i] as real / 32768.0)
  }

  /** Scaling back by 32768 undoes the normalisation of int16 samples: an
      unfiltered chunk comes back bit for bit. */
  lemma {:induction false} FromFloatToFloat(s: seq<int>)
    requires AllInt16(s)
    ensures FromFloat(ToFloat(s)) == s
  {
    forall i | 0 <= i < |s| ensures FromFloat(ToFloat(s))[i] == s[i] {
      assert ToFloat(s)[i] * 32768.0 == s[i] as real;
    }
  }

  /** The gain stage of `process_audio` (lines 106-112): skipped when the
      gain is exactly 1.0, otherwise `apply_volume_gain`. */
  function GainStage(s: seq<int>, gainLinear: real): seq<int>
  {
    if gainLinear != 1.0 then ApplyVolumeGain(s, gainLinear) else s
  }

  /** Skipping the multiply at gain 1.0 changes nothing: on int16 input the
      gain stage is `apply_volume_gain` for every gain, so its output is
      always int16, and at gain 1.0 it returns its input. */
  lemma GainStageIsApplyVolumeGain(s: seq<int>, gainLinear: real)
    requires AllInt16(s)
    ensures GainStage(s, gainLinear) == ApplyVolumeGain(s, gainLinear)
    ensures AllInt16(GainStage(s, gainLinear))
    ensures gainLinear == 1.0 ==> GainStage(s, gainLinear) == s
  {
    UnitGainIsIdentity(s);
  }

  /** Decibel values; silence has no finite level. */
  datatype Decibels = NegInfinity | Db(value: real)

  datatype AudioStats = AudioStats(rms: real, peak: real, rmsDb: Decibels, peakDb: Decibels, volumePercent: real)

  function SumSquares(x: seq<real>): real
  {
    if x == [] then 0.0 else x[0] * x[0] + SumSquares(x[1..])
  }

  /** `20 * log10(max(v, 1e-6))` */
  function ToDecibels(ops: FloatOps, v: real): Decibels
  {
    Db(20.0 * ops.log10(RMax(v, 0.000001)))
  }

  /** `get_audio_stats`: RMS and peak of the normalised samples, their
      decibel values floored at 1e-6, and the RMS as a percentage. */
  function GetAudioStats(ops: FloatOps, audio: seq<int>): (st: AudioStats)
    ensures |audio| == 0 ==> st == AudioStats(0.0, 0.0, NegInfinity, NegInfinity, 0.0)
    ensures |audio| == 0 <==> st.rmsDb.NegInfinity?
    ensures |audio| == 0 <==> st.peakDb.NegInfinity?
    ensures AllInt16(audio) ==> 0.0 <= st.peak <= 1.0
  {
    if |audio| == 0 then AudioStats(0.0, 0.0, NegInfinity, NegInfinity, 0.0)
    else
      var x := ToFloat(audio);
      var rms := ops.sqrt(SumSquares(x) / |x| as real);
      var peak := MaxAbs(audio) as real / 32768.0;
      assert AllInt16(audio) ==> 0.0 <= peak <= 1.0 by {
        if AllInt16(audio) { MaxAbsInt16(audio); }
      }
      AudioStats(rms, peak, ToDecibels(ops, rms), ToDecibels(ops, peak), rms * 100.0)
  }

  class SimpleAudioProcessor {
    const scipy: Scipy
    const sampleRate: real
    const nyquist: real
    var filterType: string
    var freqLow: real
    var freqHigh: real
    var gainDb: real
    var gainLinear: real
    var b: Option<seq<real>>
    var a: Option<seq<real>>
    var zi: Option<seq<real>>

    /** The coefficients and the state are present or absent together, and
        the linear gain follows the decibel gain. */
    ghost predicate Valid()
      reads this
    {
      sampleRate > 0.0 && nyquist == sampleRate / 2.0
      && gainLinear == DbToLinear(scipy.ops, gainDb)
      && b.Some? == a.Some? && b.Some? == zi.Some?
    }

    /** The filter stage is skipped for type 'none' or while no filter has
        been designed. */
    predicate Bypassed()
      reads this
    {
      filterType == NONE || b.None?
    }

    /** The attribute set-up of `__init__` (lines 20-34); `Create` completes
        it with the filter design. */
    constructor (scipy: Scipy, sampleRate: real, filterType: string, freqLow: real, freqHigh: real, gainDb: real)
      requires sampleRate > 0.0
      ensures Valid()
      ensures this.scipy == scipy && this.sampleRate == sampleRate && this.filterType == filterType
      ensures this.freqLow == freqLow && this.freqHigh == freqHigh && this.gainDb == gainDb
      ensures b.None? && a.None? && zi.None?
    {
      this.scipy := scipy;
      this.sampleRate := sampleRate;
      this.filterType := filterType;
      this.freqLow := freqLow;
      this.freqHigh := freqHigh;
      this.gainDb := gainDb;
      this.nyquist := sampleRate / 2.0;
      this.b := None;
      this.a := None;
      this.zi := None;
      this.gainLinear := DbToLinear(scipy.ops, gainDb);
    }

    /** `SimpleAudioProcessor(...)`: the attributes, then `_init_filter`,
        whose ValueError escapes the constructor. */
    static method Create(scipy: Scipy, sampleRate: real, filterType: string, freqLow: real, freqHigh: real, gainDb: real)
      returns (r: Result<SimpleAudioProcessor, FilterError>)
      requires sampleRate > 0.0
      ensures var d := PlannedDesign(filterType, freqLow, freqHigh, sampleRate / 2.0);
        r.Failure? <==> d.Some? && !ButterAccepts(d.value)
      ensures r.Success? ==>
        var p := r.value;
        var d := PlannedDesign(filterType, freqLow, freqHigh, sampleRate / 2.0);
        fresh(p) && p.Valid() && p.scipy == scipy && p.sampleRate == sampleRate
        && p.filterType == filterType && p.freqLow == freqLow && p.freqHigh == freqHigh && p.gainDb == gainDb
        && (d.None? ==> p.b.None?)
        && (d.None? ==> p.a.None? && p.zi.None?)
        && (d.Some? ==>
              p.b == Some(scipy.butter(BUTTER_ORDER, d.value).0)
              && p.a == Some(scipy.butter(BUTTER_ORDER, d.value).1)
              && p.zi == Some(scipy.lfilterZi(p.b.value, p.a.value)))
    {
      var p := new SimpleAudioProcessor(scipy, sampleRate, filterType, freqLow, freqHigh, gainDb);
      var outcome := p.InitFilter();
      if outcome.Fail? {
        return Failure(outcome.error);
      }
      return Success(p);
    }

    /** `_init_filter`: when the guard of the configured type passes, `b`, `a`
        come from `butter` and `zi` from `lfilter_zi`; otherwise (type 'none',
        an unknown type, out-of-range cutoffs) all three keep their values,
        and nothing is ever cleared. */
    method InitFilter() returns (r: Outcome<FilterError>)
      requires Valid()
      modifies this`b, this`a, this`zi
      ensures Valid()
      ensures var d := PlannedDesign(filterType, freqLow, freqHigh, nyquist);
        if d.Some? && ButterAccepts(d.value) then
          r.Pass?
          && b == Some(scipy.butter(BUTTER_ORDER, d.value).0)
          && a == Some(scipy.butter(BUTTER_ORDER, d.value).1)
          && zi == Some(scipy.lfilterZi(b.value, a.value))
        else
          (r.Pass? <==> d.None?) && b == old(b) && a == old(a) && zi == old(zi)
    {
      var d := PlannedDesign(filterType, freqLow, freqHigh, nyquist);
      if d.None? {
        return Pass;
      }
      if !ButterAccepts(d.value) {
        return Fail(CriticalFrequencyOutOfRange);
      }
      var (nb, na) := scipy.butter(BUTTER_ORDER, d.value);
      b, a := Some(nb), Some(na);
      zi := Some(scipy.lfilterZi(nb, na));
      return Pass;
    }

    /** `process_audio`: the filter stage threads `zi` through `lfilter`
        unless bypassed, in which case neither the samples nor `zi` change;
        then the gain stage. Every output sample is int16. */
    method ProcessAudio(audio: seq<int>) returns (processed: seq<int>)
      requires Valid() && AllInt16(audio)
      modifies this`zi
      ensures Valid()
      ensures AllInt16(processed)
      ensures old(Bypassed()) ==> zi == old(zi) && processed == GainStage(audio, gainLinear)
      ensures !old(Bypassed()) ==>
        var out := scipy.lfilter(b.value, a.value, ToFloat(audio), old(zi).value);
        zi == Some(out.1) && processed == GainStage(FromFloat(out.0), gainLinear)
      ensures old(Bypassed()) && gainLinear == 1.0 ==> processed == audio
    {
      var filtered: seq<int>;
      if filterType == NONE || b.None? {
        filtered := audio;
      } else {
        var (y, zf) := scipy.lfilter(b.value, a.value, ToFloat(audio), zi.value);
        zi := Some(zf);
        filtered := FromFloat(y);
      }
      GainStageIsApplyVolumeGain(filtered, gainLinear);
      if gainLinear != 1.0 {
        processed := ApplyVolumeGain(filtered, gainLinear);
      } else {
        processed := filtered;
      }
    }

    /** `reset_filter_state`: with coefficients present, `zi` is recomputed
        by `lfilter_zi`; without them nothing changes. */
    method ResetFilterState()
      requires Valid()
      modifies this`zi
      ensures Valid()
      ensures b.Some? && a.Some? ==> zi == Some(scipy.lfilterZi(b.value, a.value))
      ensures b.None? || a.None? ==> zi == old(zi)
    {
      if b.Some? && a.Some? {
        zi := Some(scipy.lfilterZi(b.value, a.value));
      }
    }

    /** `update_gain`: both forms of the gain are replaced together. */
    method UpdateGain(newGainDb: real)
      requires Valid()
      modifies this`gainDb, this`gainLinear
      ensures Valid()
      ensures gainDb == newGainDb && gainLinear == DbToLinear(scipy.ops, newGainDb)
    {
      gainDb := newGainDb;
      gainLinear := DbToLinear(scipy.ops, newGainDb);
    }

    /** `update_filter`: each argument that is given and differs from the
        current value is stored; only if one was, the filter is redesigned
        (which may raise). With nothing new it changes nothing at all. */
    method UpdateFilter(newType: Option<string>, newLow: Option<real>, newHigh: Option<real>)
      returns (r: Outcome<FilterError>)
      requires Valid()
      modifies this`filterType, this`freqLow, this`freqHigh, this`b, this`a, this`zi
      ensures Valid()
      ensures filterType == (if newType.Some? then newType.value else old(filterType))
      ensures freqLow == (if newLow.Some? then newLow.value else old(freqLow))
      ensures freqHigh == (if newHigh.Some? then newHigh.value else old(freqHigh))
      ensures filterType == old(filterType) && freqLow == old(freqLow) && freqHigh == old(freqHigh) ==>
        r.Pass? && b == old(b) && a == old(a) && zi == old(zi)
      ensures !(filterType == old(filterType) && freqLow == old(freqLow) && freqHigh == old(freqHigh)) ==>
        var d := PlannedDesign(filterType, freqLow, freqHigh, nyquist);
        if d.Some? && ButterAccepts(d.value) then
          r.Pass?
          && b == Some(scipy.butter(BUTTER_ORDER, d.value).0)
          && a == Some(scipy.butter(BUTTER_ORDER, d.value).1)
          && zi == Some(scipy.lfilterZi(b.value, a.value))
        else
          (r.Pass? <==> d.None?) && b == old(b) && a == old(a) && zi == old(zi)
    {
      var changed := false;
      if newType.Some? && newType.value != filterType {
        filterType := newType.value;
        changed := true;
      }
      if newLow.Some? && newLow.value != freqLow {
        freqLow := newLow.value;
        changed := true;
      }
      if newHigh.Some? && newHigh.value != freqHigh {
        freqHigh := newHigh.value;
        changed := true;
      }
      r := Pass;
      if changed {
        r := InitFilter();
      }
    }

    /** `process_with_stats`: the chunk `process_audio` produces (with the
        same update of `zi`) and the statistics of the raw and processed
        samples. */
    method ProcessWithStats(audio: seq<int>) returns (processed: seq<int>, raw: AudioStats, proc: AudioStats)
      requires Valid() && AllInt16(audio)
      modifies this`zi
      ensures Valid() && AllInt16(processed)
      ensures old(Bypassed()) ==> zi == old(zi) && processed == GainStage(audio, gainLinear)
      ensures !old(Bypassed()) ==>
        var out := scipy.lfilter(b.value, a.value, ToFloat(audio), old(zi).value);
        zi == Some(out.1) && processed == GainStage(FromFloat(out.0), gainLinear)
      ensures raw == GetAudioStats(scipy.ops, audio) && proc == GetAudioStats(scipy.ops, processed)
    {
      processed := ProcessAudio(audio);
      raw := GetAudioStats(scipy.ops, audio);
      proc := GetAudioStats(scipy.ops, processed);
    }
  }
}
