/** The start-up quality probe and the bounded reconnect of src/test_voice.py.

    `check_initial_audio` reads chunks for a fixed time, records the volume
    of each chunk of at least 4 bytes, counts the loud ones, and fails when
    more than THRESHOLD_RATIO of them are loud. `safe_serial_connection` opens
    the port and runs that probe up to MAX_RETRIES times.

    The time-bounded read loop becomes a finite sequence of received chunks, and the
    per-attempt behaviour of the port (open fails, probe raises, probe
    passes or fails) becomes a given outcome per attempt. */
module VoiceCheck {
  import opened Wrappers
  import opened Numerics
  import opened Pcm

  /** Defaults of `check_initial_audio` and `safe_serial_connection`. */
  const VOLUME_THRESHOLD := 15.0
  const THRESHOLD_RATIO := 0.5
  /** Reads shorter than this many bytes are ignored. */
  const MIN_READ_BYTES := 4

  // ---------------------------------------------------------------------
  // check_initial_audio
  // ---------------------------------------------------------------------

  /** The sum of squares over the integer samples; `check_initial_audio`
      squares the samples themselves, not normalised floats. */
  function SumSquaresInt(s: seq<int>): int
  {
    if s == [] then 0 else s[0] * s[0] + SumSquaresInt(s[1..])
  }

  /** RMS of the chunk as a percentage of 32767. */
  function Volume(ops: FloatOps, audio: seq<int>): real
    requires |audio| > 0
  {
    ops.sqrt(SumSquaresInt(audio) as real / |audio| as real) / 32767.0 * 100.0
  }

  /** The volumes recorded for the chunks received so far, or None once a read of at
      least 4 bytes could not be decoded (odd byte count). */
  function VolumesOf(ops: FloatOps, received: seq<seq<Byte>>): Option<seq<real>>
    decreases |received|
  {
    if received == [] then Some([])
    else
      var data := received[|received| - 1];
      match VolumesOf(ops, received[..|received| - 1])
      case None => None
      case Some(volumes) =>
        if |data| < MIN_READ_BYTES then Some(volumes)
        else if |data| % 2 == 1 then None
        else Some(volumes + [Volume(ops, Decode(data))])
  }

  /** `high_volume_count`: the recorded volumes strictly above the threshold. */
  function CountAbove(volumes: seq<real>, threshold: real): (k: nat)
    ensures k <= |volumes|
    decreases |volumes|
  {
    if volumes == [] then 0
    else CountAbove(volumes[..|volumes| - 1], threshold) + (if volumes[|volumes| - 1] > threshold then 1 else 0)
  }

  function Sum(volumes: seq<real>): real
    decreases |volumes|
  {
    if volumes == [] then 0.0 else Sum(volumes[..|volumes| - 1]) + volumes[|volumes| - 1]
  }

  /** Why the probe ended as it did; `LoudAverage` passes with a warning. */
  datatype ProbeVerdict = DecodeFailed | NoAudio | TooLoud | LoudAverage | Normal

  predicate Passes(v: ProbeVerdict)
  {
    v == LoudAverage || v == Normal
  }

  function Judge(volumes: Option<seq<real>>, volumeThreshold: real, thresholdRatio: real): ProbeVerdict
  {
    match volumes
    case None => DecodeFailed
    case Some(vs) =>
      if vs == [] then NoAudio
      else if CountAbove(vs, volumeThreshold) as real / |vs| as real > thresholdRatio then TooLoud
      else if Sum(vs) / |vs| as real > volumeThreshold * 0.8 then LoudAverage
      else Normal
  }

  /** Once a read fails to decode, later chunks do not matter. */
  lemma {:induction false} FailedDecodeIsFinal(ops: FloatOps, received: seq<seq<Byte>>, k: nat)
    requires k <= |received| && VolumesOf(ops, received[..k]).None?
    ensures VolumesOf(ops, received).None?
    decreases |received| - k
  {
    if k < |received| {
      assert received[..k + 1][..k] == received[..k];
      FailedDecodeIsFinal(ops, received, k + 1);
    } else {
      assert received[..k] == received;
    }
  }

  /** A read shorter than 4 bytes records no volume. */
  lemma ShortReadIgnored(ops: FloatOps, received: seq<seq<Byte>>, data: seq<Byte>)
    requires |data| < MIN_READ_BYTES
    ensures VolumesOf(ops, received + [data]) == VolumesOf(ops, received)
  {
    assert (received + [data])[..|received|] == received;
  }

  /** A read of 4 bytes or more with an odd byte count fails the probe. */
  lemma DecodeErrorFails(ops: FloatOps, received: seq<seq<Byte>>, i: nat, volumeThreshold: real, thresholdRatio: real)
    requires i < |received| && |received[i]| >= MIN_READ_BYTES && |received[i]| % 2 == 1
    ensures Judge(VolumesOf(ops, received), volumeThreshold, thresholdRatio) == DecodeFailed
  {
    assert received[..i + 1][..i] == received[..i];
    FailedDecodeIsFinal(ops, received, i + 1);
  }

  /** The decision: with no decode error and at least one volume, the probe
      passes exactly when the loud count is at most THRESHOLD_RATIO times the
      number of volumes (a ratio equal to the threshold passes), whatever the
      average volume; with no volume at all it fails. */
  lemma RatioDecides(volumes: seq<real>, volumeThreshold: real, thresholdRatio: real)
    ensures volumes == [] ==> !Passes(Judge(Some(volumes), volumeThreshold, thresholdRatio))
    ensures volumes != [] ==>
      (Passes(Judge(Some(volumes), volumeThreshold, thresholdRatio))
       <==> CountAbove(volumes, volumeThreshold) as real <= thresholdRatio * |volumes| as real)
  {
    if volumes != [] {
      var k, n := CountAbove(volumes, volumeThreshold) as real, |volumes| as real;
      PassesUnlessTooLoud(volumes, volumeThreshold, thresholdRatio);
      RatioAbove(k, n, thresholdRatio);
    }
  }

  /** With at least one volume, only the ratio test can fail the probe. */
  lemma PassesUnlessTooLoud(volumes: seq<real>, volumeThreshold: real, thresholdRatio: real)
    requires volumes != []
    ensures Passes(Judge(Some(volumes), volumeThreshold, thresholdRatio))
      <==> !(CountAbove(volumes, volumeThreshold) as real / |volumes| as real > thresholdRatio)
  {
  }

  /** At the default thresholds, a probe with at least one volume passes
      exactly when at most half of its volumes exceed 15, and it warns
      (`LoudAverage`) exactly when it passes with an average above 12. */
  lemma DefaultsDecide(volumes: seq<real>)
    requires volumes != []
    ensures Passes(Judge(Some(volumes), VOLUME_THRESHOLD, THRESHOLD_RATIO))
      <==> 2 * CountAbove(volumes, VOLUME_THRESHOLD) <= |volumes|
    ensures Judge(Some(volumes), VOLUME_THRESHOLD, THRESHOLD_RATIO) == LoudAverage
      <==> 2 * CountAbove(volumes, VOLUME_THRESHOLD) <= |volumes| && Sum(volumes) / |volumes| as real > 12.0
  {
    RatioDecides(volumes, VOLUME_THRESHOLD, THRESHOLD_RATIO);
  }

  lemma RatioAbove(k: real, n: real, t: real)
    requires n > 0.0
    ensures k / n > t <==> k > t * n
  {
    var q := k / n;
    assert k == q * n;
    if q > t {
      assert (q - t) * n > 0.0;
    } else {
      assert (t - q) * n >= 0.0;
    }
  }

  /** `check_initial_audio` over the chunks received during the check. */
  method CheckInitialAudio(ops: FloatOps, received: seq<seq<Byte>>, volumeThreshold: real, thresholdRatio: real)
    returns (ok: bool, verdict: ProbeVerdict)
    ensures verdict == Judge(VolumesOf(ops, received), volumeThreshold, thresholdRatio)
    ensures ok == Passes(verdict)
  {
    var volumeSamples: seq<real> := [];
    var highVolumeCount := 0;
    for i := 0 to |received|
      invariant VolumesOf(ops, received[..i]) == Some(volumeSamples)
      invariant highVolumeCount == CountAbove(volumeSamples, volumeThreshold)
    {
      var data := received[i];
      assert received[..i + 1][..i] == received[..i];
      if |data| >= MIN_READ_BYTES {
        if |data| % 2 == 1 {
          FailedDecodeIsFinal(ops, received, i + 1);
          return false, DecodeFailed;
        }
        var audio := Decode(data);
        var volume := Volume(ops, audio);
        volumeSamples := volumeSamples + [volume];
        if volume > volumeThreshold {
          highVolumeCount := highVolumeCount + 1;
        }
      }
    }
    assert received[..|received|] == received;
    if |volumeSamples| == 0 {
      return false, NoAudio;
    }
    var highRatio := highVolumeCount as real / |volumeSamples| as real;
    var avgVolume := Sum(volumeSamples) / |volumeSamples| as real;
    if highRatio > thresholdRatio {
      return false, TooLoud;
    } else if avgVolume > volumeThreshold * 0.8 {
      return true, LoudAverage;
    } else {
      return true, Normal;
    }
  }

  // ---------------------------------------------------------------------
  // safe_serial_connection
  // ---------------------------------------------------------------------

  /** What one connection attempt does. */
  datatype Attempt =
    | OpenFailed     // serial.Serial(...) raised SerialException
    | ProbeRaised    // the port opened, then a SerialException came from the buffer reset or a read
    | ProbeFailed    // the port opened and check_initial_audio returned False
    | ProbePassed    // the port opened and check_initial_audio returned True

  datatype ConnectResult =
    | Connected(attempt: nat)    // the port opened on this attempt is returned
    | SerialError(attempt: nat)  // the SerialException of the final attempt propagates
    | ConnectionError            // every attempt ran and none passed the probe

  /** The result, the attempts whose port was closed, and the attempts made. */
  datatype Session = Session(result: ConnectResult, closed: seq<nat>, attempts: nat)

  /** The attempts from `attempt` on. */
  function Connect(outcome: nat -> Attempt, maxRetries: nat, attempt: nat): Session
    requires attempt >= 1
    decreases maxRetries + 1 - attempt
  {
    if attempt > maxRetries then Session(ConnectionError, [], attempt - 1)
    else
      match outcome(attempt)
      case ProbePassed => Session(Connected(attempt), [], attempt)
      case ProbeFailed =>
        var rest := Connect(outcome, maxRetries, attempt + 1);
        rest.(closed := [attempt] + rest.closed)
      case _ =>
        if attempt < maxRetries then Connect(outcome, maxRetries, attempt + 1)
        else Session(SerialError(attempt), [], attempt)
  }

  /** What the retry loop promises: at most MAX_RETRIES attempts; the port
      returned is the first one whose probe passed; a SerialException
      escapes only from the final attempt; ConnectionError only after every
      attempt ran without a pass; and exactly the ports whose probe failed
      are closed, in order (a port whose probe raised is left open). */
  lemma {:induction false} ConnectSpec(outcome: nat -> Attempt, maxRetries: nat, attempt: nat)
    requires 1 <= attempt <= maxRetries + 1
    ensures var s := Connect(outcome, maxRetries, attempt);
      attempt - 1 <= s.attempts <= maxRetries
      && (forall j :: attempt <= j < s.attempts ==> outcome(j) != ProbePassed)
      && (s.result.Connected? ==> s.result.attempt == s.attempts && outcome(s.attempts) == ProbePassed)
      && (s.result.SerialError? ==>
            s.result.attempt == s.attempts == maxRetries && outcome(maxRetries) in {OpenFailed, ProbeRaised})
      && (s.result.ConnectionError? ==>
            s.attempts == maxRetries && (maxRetries >= attempt ==> outcome(maxRetries) == ProbeFailed))
      && (forall j :: j in s.closed <==> attempt <= j <= s.attempts && outcome(j) == ProbeFailed)
      && (forall i, j :: 0 <= i < j < |s.closed| ==> s.closed[i] < s.closed[j])
    decreases maxRetries + 1 - attempt
  {
    if attempt <= maxRetries {
      if outcome(attempt) == ProbeFailed || (outcome(attempt) != ProbePassed && attempt < maxRetries) {
        ConnectSpec(outcome, maxRetries, attempt + 1);
        var rest := Connect(outcome, maxRetries, attempt + 1);
        if outcome(attempt) == ProbeFailed {
          var c := [attempt] + rest.closed;
          forall i, j | 0 <= i < j < |c| ensures c[i] < c[j] {
            assert c[j] == rest.closed[j - 1] && c[j] in rest.closed;
            if i > 0 {
              assert c[i] == rest.closed[i - 1];
            }
          }
        }
      }
    }
  }

  /** `safe_serial_connection`: the `for attempt in range(1, MAX_RETRIES + 1)`
      loop with its early return and its re-raise on the final attempt. */
  method SafeSerialConnection(outcome: nat -> Attempt, maxRetries: nat) returns (r: ConnectResult, closed: seq<nat>)
    ensures Connect(outcome, maxRetries, 1).result == r && Connect(outcome, maxRetries, 1).closed == closed
  {
    closed := [];
    var attempt := 1;
    while attempt <= maxRetries
      invariant 1 <= attempt <= maxRetries + 1
      invariant Connect(outcome, maxRetries, 1)
        == Connect(outcome, maxRetries, attempt).(closed := closed + Connect(outcome, maxRetries, attempt).closed)
      decreases maxRetries + 1 - attempt
    {
      if outcome(attempt) == ProbePassed {
        return Connected(attempt), closed;
      } else if outcome(attempt) == ProbeFailed {
        closed := closed + [attempt];
      } else if attempt == maxRetries {
        return SerialError(attempt), closed;
      }
      attempt := attempt + 1;
    }
    r := ConnectionError;
  }
}
