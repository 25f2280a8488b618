# ESP32 microphone host tools: a Dafny model

An ESP32 streams its microphone as raw little-endian signed 16-bit PCM over a
serial port. The host-side Python scripts read that stream. They recover the
byte alignment, amplify with saturation, record to WAV while watching for lost
synchronisation, filter and amplify through `SimpleAudioProcessor`, probe the
stream's loudness before accepting a connection, and play the stream back with
a peak-normalising auto-gain.

This project models the deterministic part of that handling and proves its
properties:

- `Pcm` (pcm.dfy): the bytes-to-samples decoding of `np.frombuffer` and
  `tobytes`. It also covers numpy's int16 `abs` (where -32768 stays -32768),
  the sign-bit zero-crossing count, the distinct-value count, and the
  clip-and-truncate gain of `apply_volume_gain`.
- `Sync` (sync.dfy): the candidate scoring and offset choice of
  `find_sync_point`. The collected buffer is an input.
- `Recorder` (recorder.dfy): the recording loop of `main` in to_voice.py and
  its sync-error counter. The time-bounded loop becomes a finite sequence of
  chunks.
- `AudioFilter` (audio_filter.dfy): `SimpleAudioProcessor` as a class whose
  methods update `b`, `a`, `zi`, the filter configuration and the gain in
  place. It also holds `get_audio_stats`. scipy's `butter`, `lfilter` and
  `lfilter_zi` are supplied functions.
- `Presets` (presets.dfy): the preset table, `get_preset` and
  `create_processor_from_preset`.
- `VoiceCheck` (voice_check.dfy): the loudness probe `check_initial_audio`
  and the retry loop `safe_serial_connection`.
- `Playback` (playback.dfy): the per-read handling and auto-gain of
  listen_realtime.py.
- `Numerics` and `Wrappers`: the supplied float functions (`sqrt`, `log10`,
  `10 **`), min/max on reals, and Option/Outcome/Result.

Floats are modelled as exact reals. numpy's float-to-int16 conversion is
truncation toward zero (`Pcm.Trunc`).

Three behaviours of the code are kept as written although they look
unintended:

- An unusable filter configuration does not switch the processor to
  pass-through. `_init_filter` leaves `b`, `a` and `zi` as they were, so a
  processor that had a filter keeps filtering with the old one.
- `update_filter` resets the filter state only when a new design is
  accepted.
- The lowpass guard `min(freq_high, nyquist - 1) / nyquist < 1` always holds.
  A non-positive cutoff is therefore handed to `butter`, which raises.
  `SimpleAudioProcessor.Create` and `InitFilter` return that error.

## Model

| member | source | states |
|---|---|---|
| Pcm.SampleOf | to_voice.py:142 | two bytes read little-endian as two's complement always give an int16 value |
| Pcm.Decode | to_voice.py:142 | an even byte count decodes to half as many samples, each within int16 |
| Pcm.DecodeAt | to_voice.py:142 | decoded sample i is made from bytes 2i and 2i+1 |
| Pcm.DecodeEncode | to_voice.py:170 | the bytes written for int16 samples decode back to the same samples |
| Pcm.EncodeDecode | to_voice.py:142 | re-encoding decoded bytes gives back the original bytes |
| Pcm.MaxAbs16Bounds | to_voice.py:65 | numpy's int16 max-abs never exceeds the true largest magnitude; the two are equal when no sample is -32768; every sample other than -32768 has magnitude at most the int16 max-abs |
| Pcm.MaxAbsInt16 | src/audio_filter.py:169 | the true largest magnitude of int16 samples is between 0 and 32768 and bounds every sample |
| Pcm.ZeroCrossings | to_voice.py:72 | the count of adjacent sign-bit changes is below the sample count, and 0 for fewer than two samples |
| Pcm.DistinctBounds | to_voice.py:78 | the number of distinct values is between 1 and the sample count for a non-empty chunk |
| Pcm.Clip | to_voice.py:28 | the result is in [-32768, 32767]; values already in range are kept; values outside go to the nearer bound |
| Pcm.Trunc | to_voice.py:30 | float-to-int conversion rounds toward zero from either side |
| Pcm.ApplyVolumeGain | to_voice.py:23-30 | for every gain and input, the output has the input's length and every sample is in [-32768, 32767] |
| Pcm.ScaleSampleInRange | to_voice.py:25-30 | a product within int16 is only truncated; above 32767 it saturates to 32767, below -32768 to -32768 |
| Pcm.UnitGainIsIdentity | to_voice.py:23-30 | gain 1.0 returns int16 input unchanged |
| Sync.FindSyncPoint | to_voice.py:44-92 | the selection loop over offsets 0 and 1 returns exactly the offset that `SyncOffset` specifies |
| Sync.SyncOffsetChoices | to_voice.py:44-92 | the result is 0 or 1; it is 0 for fewer than 100 bytes, when offset 1 is skipped, or when both candidates score the same; 1 only when offset 1 is readable and strictly beats offset 0 or offset 0 is skipped |
| Sync.DropTrailingByteCandidate | to_voice.py:58-61 | with the trailing byte dropped, a candidate is skipped exactly when it yields fewer than 50 samples |
| Sync.DropTrailingByteComparesScores | to_voice.py:52-92 | with the trailing byte dropped, both parities of a buffer of 101 or more bytes are scored, and offset 1 is chosen iff its score is strictly higher |
| Sync.StrictSyncOffsetIsParity | to_voice.py:56-89 | as written, a buffer of 100 or more bytes decodes at exactly one parity, so the result equals the buffer length mod 2 whatever the scores |
| Sync.StrictSyncMisreadsZeroBuffer | to_voice.py:56-89 | 101 zero bytes read identically at both parities, yet as written the offset is 1, while the corrected reading keeps 0 |
| Sync.ScoreBounds | to_voice.py:63-79 | an unsaturated candidate scores in (100, 600 + 2(n-1)]; a saturated one scores in (-1000, 2·zc - 500], so at most 2(n-1) - 500 |
| Sync.SaturationPenaltyDominates | to_voice.py:64-69 | a saturated candidate with fewer than 300 zero crossings scores below every unsaturated candidate |
| Recorder.BytesToRead | to_voice.py:133-134 | a read asks for at most 2048 bytes and at most the remaining bytes, and is one of the two |
| Recorder.Classify | to_voice.py:140-152 | an accepted chunk had an even, non-zero byte count and yields half as many int16 samples |
| Recorder.StepCounter | to_voice.py:152-177 | for either decoding of `find_sync_point` (`Strict` is the code as written): the error counter rises by at most one per chunk; a write resets it to 0; below the fifth error a sync error resets it iff the resync offset is nonzero, and the fifth keeps it at 5; an undecodable chunk adds one; an empty read changes nothing; only a write changes the written samples and the byte total |
| Recorder.StrictResyncRule | to_voice.py:152-166 | as written, a sync error below the fifth clears the counter iff the buffer collected for the resync has an odd length of at least 101 bytes |
| Recorder.RunInvariants | to_voice.py:131-177 | for either decoding, including `Strict` as written: the counter never exceeds 5; the loop stops before the last chunk only when it reached 5; all written samples are int16, appended in order, and the byte total is twice their count |
| Recorder.Record | to_voice.py:131-177 | the loop, run with the decoding given (`Strict` for the code as written), ends in the final state and chunk count of the specification `RunFrom` for that decoding |
| AudioFilter.DesignRules | src/audio_filter.py:42-66 | a bandpass is designed iff max(1, low) < min(high, nyquist - 1); a highpass iff max(1, low) < nyquist; a lowpass always; 'none' and unknown types never |
| AudioFilter.ButterRaisesOnlyOnLowpass | src/audio_filter.py:47-66 | a bandpass or highpass that passes its guard is always accepted by `butter`; a lowpass is accepted iff min(high, nyquist - 1) > 0 |
| AudioFilter.FromFloat | src/audio_filter.py:103 | the filtered floats scaled back are int16 and keep the chunk length |
| AudioFilter.ToFloat | src/audio_filter.py:93 | the normalised floats keep the chunk length, and int16 samples land in [-1, 1) |
| AudioFilter.FromFloatToFloat | src/audio_filter.py:93-103 | scaling the normalised floats back by 32768 returns every int16 chunk unchanged, so the conversion at line 103 undoes the one at line 93 |
| AudioFilter.GainStageIsApplyVolumeGain | src/audio_filter.py:106-112 | skipping the multiply at gain 1.0 agrees with `apply_volume_gain` at every gain; the output is int16; at 1.0 the input is returned |
| AudioFilter.GetAudioStats | src/audio_filter.py:148-184 | empty input gives rms, peak and volume 0 and both dB values -inf; each dB value is -inf iff the input is empty; the peak of int16 input is in [0, 1] |
| AudioFilter.SimpleAudioProcessor.constructor | src/audio_filter.py:20-34 | the attributes are stored, the linear gain follows the dB gain, and no filter exists yet |
| AudioFilter.SimpleAudioProcessor.Create | src/audio_filter.py:8-40 | construction fails iff the planned design is rejected by `butter`; otherwise the processor is valid and holds the given configuration; with a planned design, `b` and `a` are `butter`'s two coefficient sets and `zi` is `lfilter_zi(b, a)`; with none, all three are absent |
| AudioFilter.SimpleAudioProcessor.InitFilter | src/audio_filter.py:42-66 | with an accepted design, `b`, `a` come from `butter` and `zi` from `lfilter_zi`; otherwise all three keep their old values, and the call fails iff a design was planned but rejected |
| AudioFilter.SimpleAudioProcessor.ProcessAudio | src/audio_filter.py:79-114 | when bypassed, samples reach the gain stage unfiltered and `zi` is unchanged; otherwise `lfilter` runs from the old `zi` and its final state replaces it; output is int16; bypassed at gain 1.0 returns the input |
| AudioFilter.SimpleAudioProcessor.ResetFilterState | src/audio_filter.py:116-119 | with both coefficient sets present, `zi` becomes `lfilter_zi(b, a)`; otherwise it is unchanged |
| AudioFilter.SimpleAudioProcessor.UpdateGain | src/audio_filter.py:121-125 | the dB gain and the linear gain are replaced together |
| AudioFilter.SimpleAudioProcessor.UpdateFilter | src/audio_filter.py:127-146 | each given, different argument is stored; with nothing changed the call is a no-op; otherwise the filter is redesigned under `InitFilter`'s rules |
| AudioFilter.SimpleAudioProcessor.ProcessWithStats | src/audio_filter.py:186-203 | the processed chunk is exactly what `process_audio` returns: when bypassed, the gain stage of the input with `zi` unchanged; otherwise the gain stage of `lfilter`'s output, with `zi` set to `lfilter`'s final state; it is int16, and the statistics are those of the raw and the processed samples |
| Presets.GetPreset | src/audio_filter.py:210-258 | a known name returns its table entry; any other name returns the 'voice_chat' entry; the result is always a table entry |
| Presets.PresetsAreDesignable | src/audio_filter.py:213-258 | every preset returned has freq_low < freq_high; at 48 kHz its type is 'none' or a design `butter` accepts |
| Presets.CreateProcessorFromPreset | src/audio_filter.py:279-292 | creation fails exactly when the preset's planned design at the given rate is one `butter` rejects, so never at 48 kHz; on success the processor holds the requested rate, the supplied scipy, the preset's configuration, and the `b`, `a`, `zi` of that design (all absent when none is planned) |
| VoiceCheck.CountAbove | src/test_voice.py:110-114 | the loud-chunk count never exceeds the number of volumes |
| VoiceCheck.FailedDecodeIsFinal | src/test_voice.py:100-131 | once a read fails to decode, the probe fails whatever follows |
| VoiceCheck.ShortReadIgnored | src/test_voice.py:100 | a read shorter than 4 bytes records no volume |
| VoiceCheck.DecodeErrorFails | src/test_voice.py:101-131 | any read of 4 or more bytes with an odd count makes the probe fail |
| VoiceCheck.RatioDecides | src/test_voice.py:138-165 | no volumes fails; otherwise the probe passes iff loud count <= ratio x count, so a ratio equal to the threshold passes, whatever the average volume |
| VoiceCheck.DefaultsDecide | src/test_voice.py:153-165 | at the default thresholds 15 and 0.5 of line 75, a probe with volumes passes iff at most half of them exceed 15, and warns iff it passes with an average above 12 |
| VoiceCheck.PassesUnlessTooLoud | src/test_voice.py:153-165 | with at least one volume, the probe passes iff the loud ratio is not above THRESHOLD_RATIO; the average volume only picks between two passing verdicts |
| VoiceCheck.CheckInitialAudio | src/test_voice.py:75-165 | the loop's verdict is `Judge` of the volumes recorded, and it returns True exactly for the passing verdicts |
| VoiceCheck.ConnectSpec | src/test_voice.py:168-200 | at most MAX_RETRIES attempts; the connection returned is the first whose probe passed; a SerialException escapes only from the final attempt; ConnectionError only after every attempt ran and the last probe failed; exactly the ports whose probe failed are closed, in order |
| VoiceCheck.SafeSerialConnection | src/test_voice.py:172-200 | the retry loop's result and closed ports are those of the specification `Connect` |
| Playback.PeakGain | listen_realtime.py:60 | the gain is in (0, 1], exactly 1 when max_val <= 20000 and exactly 20000 / max_val above it |
| Playback.ScaleToPeak | listen_realtime.py:57-61 | the scaled chunk keeps its length |
| Playback.ScaleSampleToPeak | listen_realtime.py:61 | a scaled sample keeps its sign, never grows in magnitude, lands within 20000 if it was within max_val and exactly on 20000 in magnitude if it is the peak above 20000, and is unchanged when max_val <= 20000 |
| Playback.ScaleNeverAmplifies | listen_realtime.py:57-61 | for any max_val, no sample grows in magnitude or changes sign, so int16 input stays int16 |
| Playback.AutoGainKeepsQuietChunks | listen_realtime.py:57-61 | when 0 < max_val <= 20000 the chunk is unchanged |
| Playback.MaxNotPositive | listen_realtime.py:57-58 | max_val <= 0 iff every sample is 0 or -32768, and then the chunk is unchanged |
| Playback.AutoGainCapsPeak | listen_realtime.py:57-61 | with no -32768 sample, every output magnitude is at most 20000 |
| Playback.AutoGainMissesMinimum | listen_realtime.py:57 | as written, [-32768, 30000] gives -21845 as its first output sample, beyond the 20000 target |
| Playback.AutoGainReachesTarget | listen_realtime.py:57-61 | with no -32768 sample and max_val above 20000, some output sample has magnitude exactly 20000: a loud chunk is brought onto the target |
| Playback.AutoGainWideCapsPeak | listen_realtime.py:57-61 | with the true magnitude, every output magnitude is at most 20000 and at most the input's for every int16 chunk; a chunk already within 20000 is unchanged |
| Playback.AutoGainWideReachesTarget | listen_realtime.py:57-61 | with the true magnitude above 20000, some output sample of every int16 chunk has magnitude exactly 20000 |
| Playback.PlaybackBlock | listen_realtime.py:48-64 | as written: a read is played iff it has 4 or more bytes and an even count; the played block has half as many samples, all int16, none larger in magnitude than its decoded sample, and all within 20000 when the chunk holds no -32768 |
| Playback.PlaybackBlockExceedsTarget | listen_realtime.py:48-64 | as written, the read 00 80 30 75 is played as [-21845, 20000], beyond the 20000 target |
| Playback.PlaybackBlockWide | listen_realtime.py:48-64 | with the corrected peak, a played block meets the same rules and every sample is within 20000 whatever the chunk holds |

## Left out

- Serial I/O is not modelled: opening, reading and `reset_input_buffer`. Each read's bytes are an input, and so are the bytes a resync collects.
- `time.sleep` and the wall clock are not modelled. The time-bounded loops of `main`, `find_sync_point` and `check_initial_audio` become finite sequences of inputs.
- WAV writing, the `sounddevice` stream, progress output and every `print` are left out. They are output only.
- The collection loop of `find_sync_point` (to_voice.py:36-42) is serial reads bounded by time, so the collected buffer is an input.
- The discarding of `new_offset` bytes after a resync is not modelled: the next chunk given is taken to be the first one read after it.
- The initial alignment at to_voice.py:109-114 is not modelled; the recording starts from the first chunk given.
- float32 rounding is left out: the gain multiplies and the normalisations are exact real arithmetic followed by truncation toward zero.
- `np.sqrt`, `np.log10` and `10 **` are supplied functions (`Numerics.FloatOps`), so the model reasons about where their results go, not their values.
- scipy's `butter`, `lfilter` and `lfilter_zi` are supplied functions (`AudioFilter.Scipy`). The model states only when each is called, with what, and where the result is stored.
- `butter` is assumed to raise only when a normalised critical frequency is outside (0, 1). Its other checks are not modelled.
- AudioFilter.SimpleAudioProcessor.constructor, AudioFilter.SimpleAudioProcessor.Create, AudioFilter.SimpleAudioProcessor.Valid, AudioFilter.PlannedDesign and Presets.CreateProcessorFromPreset: require a positive sample rate (a positive Nyquist frequency for `PlannedDesign`), so sample rates of 0 or below are not modelled. At rate 0 a 'bandpass', 'lowpass' or 'highpass' processor divides by zero (src/audio_filter.py:49, 57, 63), but a 'none' or unknown type returns before any division and is built. A negative rate never divides by zero and gives a negative Nyquist frequency that the design rules here do not cover.
- `_print_config`, `list_presets`, `test_processor`, `test_audio_output` and `test_serial_connection` are demos and printing.
- The `bytes_received` counter and rate display of listen_realtime.py are status output.
- Stopping listen_realtime.py on an exception or Ctrl+C is only the `Stopped` result of `Playback.PlaybackBlock`; the rest of that loop is I/O.
- show_voice.py is not part of this model: it is a plot and FFT display.
- src/main.cpp is not part of this model: it is ESP32 firmware I/O.
- 声音滤波.py is not part of this model; it is a standalone variant of the filter script.
- VoiceCheck.Volume: the RMS volume is computed with the supplied `sqrt`, so no bound on a volume is proved.

## Findings

| source | as written | input that shows it | evidently intended | confidence | as-written member | corrected member |
|---|---|---|---|---|---|---|
| to_voice.py:58 | `np.frombuffer` raises on an odd byte count and the candidate is skipped, so for 100 or more bytes only the parity of the buffer length can be decoded, and `find_sync_point` returns that parity whatever the scores; in the recording loop a resync therefore clears the error count iff its buffer has an odd length of at least 101 bytes | 101 zero bytes: both parities hold the same 50 zero samples, yet offset 1 is returned and an aligned stream loses a byte | score both parities on their whole samples, dropping a trailing odd byte | high; not executed | Sync.StrictSyncOffsetIsParity | Sync.DropTrailingByteComparesScores |
| listen_realtime.py:57 | `np.abs` on int16 leaves -32768 negative, so `max_val` ignores it and the auto-gain can leave a sample beyond the 20000 target | [-32768, 30000]: max_val is 30000, the gain 2/3, and -32768 becomes -21845 | take the peak from the true magnitudes, so no output sample exceeds 20000 | high; not executed | Playback.AutoGainMissesMinimum | Playback.AutoGainWideCapsPeak |

`Recorder.Record`, `Recorder.RunFrom` and `Recorder.Step` take the decoding as a parameter: `Sync.Strict` gives the recording loop as written, and `Sync.DropTrailingByte` gives the corrected one. `Playback.PlaybackBlock` is the playback step as written, and `Playback.PlaybackBlockWide` is the corrected one.
