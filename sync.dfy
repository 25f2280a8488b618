/** Byte-alignment recovery of `find_sync_point` in to_voice.py: both byte
    parities of a captured buffer are decoded as int16 samples, each readable
    candidate is scored, and the better offset is kept (the earlier one on a
    tie).

    As written, a candidate is decoded with `np.frombuffer`, which raises on
    an odd byte count; the exception skips that candidate. `Strict` models
    that, and `StrictSyncOffsetIsParity` shows its consequence: only one
    parity can ever be decoded, so the scores never decide anything.
    `DropTrailingByte` decodes the whole samples and ignores a last odd byte,
    the evidently intended reading. `Recorder.Record` takes either mode. */
module Sync {
  import opened Wrappers
  import opened Pcm

  /** Fewer collected bytes than this and no alignment is attempted. */
  const MIN_SYNC_BYTES := 100
  /** A candidate with fewer decoded samples than this is skipped. */
  const MIN_SYNC_SAMPLES := 50
  /** A largest magnitude above this is taken for misalignment. */
  const SATURATION_LEVEL := 32000

  datatype DecodeMode = Strict | DropTrailingByte

  /** The score of a readable candidate: -1000 when it looks saturated and
      +100 otherwise, twice the zero-crossing count when more than a tenth of
      the samples cross zero, and 500 times the share of distinct values. */
  function Score(s: seq<int>): real
    requires |s| > 0 && AllInt16(s)
  {
    var n := |s| as real;
    var zc := ZeroCrossings(s) as real;
    (if MaxAbs16(s) > SATURATION_LEVEL then -1000.0 else 100.0)
    + (if zc > n * 0.1 then zc * 2.0 else 0.0)
    + Distinct(s) as real / n * 500.0
  }

  /** The samples read at `offset`, or None where the decoder raises. */
  function SamplesAt(buf: seq<Byte>, offset: nat, mode: DecodeMode): Option<seq<int>>
    requires offset <= |buf|
  {
    var raw := buf[offset..];
    match mode
    case Strict => if |raw| % 2 == 1 then None else Some(Decode(raw))
    case DropTrailingByte => Some(Decode(raw[..|raw| - |raw| % 2]))
  }

  /** The score of the candidate at `offset`, or None when it is skipped. */
  function Candidate(buf: seq<Byte>, offset: nat, mode: DecodeMode): (c: Option<real>)
    requires offset <= |buf|
  {
    match SamplesAt(buf, offset, mode)
    case None => None
    case Some(s) => if |s| < MIN_SYNC_SAMPLES then None else Some(Score(s))
  }

  /** The offset `find_sync_point` returns for the collected buffer `buf`.
      Offset 1 is chosen only when it is readable and strictly outscores
      offset 0 (or offset 0 is skipped); every other case keeps 0. */
  function SyncOffset(buf: seq<Byte>, mode: DecodeMode): (offset: nat)
  {
    if |buf| < MIN_SYNC_BYTES then 0
    else
      var c0, c1 := Candidate(buf, 0, mode), Candidate(buf, 1, mode);
      if c1.Some? && (c0.None? || c1.value > c0.value) then 1 else 0
  }

  /** The selection loop of `find_sync_point` over the offsets 0 and 1,
      keeping the best score seen so far (None standing for -infinity). */
  method FindSyncPoint(buf: seq<Byte>, mode: DecodeMode) returns (offset: nat)
    ensures offset == SyncOffset(buf, mode)
  {
    if |buf| < MIN_SYNC_BYTES {
      return 0;
    }
    var bestOffset := 0;
    var bestScore: Option<real> := None;
    ghost var c0, c1 := Candidate(buf, 0, mode), Candidate(buf, 1, mode);
    for off := 0 to 2
      invariant off == 0 ==> bestScore.None? && bestOffset == 0
      invariant off == 1 ==> bestScore == c0 && bestOffset == 0
      invariant off == 2 ==>
        if c1.Some? && (c0.None? || c1.value > c0.value)
        then bestOffset == 1
        else bestOffset == 0
    {
      var c := Candidate(buf, off, mode);
      if c.Some? && (bestScore.None? || c.value > bestScore.value) {
        bestScore := c;
        bestOffset := off;
      }
    }
    offset := bestOffset;
  }

  // ---------------------------------------------------------------------
  // Properties of the selection
  // ---------------------------------------------------------------------

  /** The result is a byte parity; short buffers and skipped candidates never
      move it off 0; equal scores keep offset 0. */
  lemma SyncOffsetChoices(buf: seq<Byte>, mode: DecodeMode)
    ensures SyncOffset(buf, mode) == 0 || SyncOffset(buf, mode) == 1
    ensures |buf| < MIN_SYNC_BYTES ==> SyncOffset(buf, mode) == 0
    ensures |buf| >= MIN_SYNC_BYTES && Candidate(buf, 1, mode).None? ==> SyncOffset(buf, mode) == 0
    ensures |buf| >= MIN_SYNC_BYTES && Candidate(buf, 0, mode) == Candidate(buf, 1, mode) ==> SyncOffset(buf, mode) == 0
    ensures SyncOffset(buf, mode) == 1 ==>
      Candidate(buf, 1, mode).Some? &&
      (Candidate(buf, 0, mode).None? || Candidate(buf, 0, mode).value < Candidate(buf, 1, mode).value)
  {
  }

  /** A candidate holding `k` bytes after its offset is readable in
      `DropTrailingByte` mode exactly when it yields 50 samples. */
  lemma DropTrailingByteCandidate(buf: seq<Byte>, offset: nat)
    requires offset <= |buf|
    ensures Candidate(buf, offset, DropTrailingByte).Some? <==> (|buf| - offset) / 2 >= MIN_SYNC_SAMPLES
  {
  }

  /** With the trailing byte dropped, a buffer of 101 bytes or more has both
      parities readable, and offset 1 wins exactly when it scores strictly
      higher: the scores decide. */
  lemma DropTrailingByteComparesScores(buf: seq<Byte>)
    requires |buf| >= MIN_SYNC_BYTES + 1
    ensures Candidate(buf, 0, DropTrailingByte).Some? && Candidate(buf, 1, DropTrailingByte).Some?
    ensures SyncOffset(buf, DropTrailingByte) == 1 <==>
      Candidate(buf, 1, DropTrailingByte).value > Candidate(buf, 0, DropTrailingByte).value
  {
    DropTrailingByteCandidate(buf, 0);
    DropTrailingByteCandidate(buf, 1);
  }

  /** As written (strict decoding), a buffer of 100 bytes or more is read at
      exactly one parity: its own length's. The result is the parity of the
      number of bytes collected, whatever the scores. */
  lemma StrictSyncOffsetIsParity(buf: seq<Byte>)
    requires |buf| >= MIN_SYNC_BYTES
    ensures Candidate(buf, |buf| % 2, Strict).Some?
    ensures Candidate(buf, 1 - |buf| % 2, Strict).None?
    ensures SyncOffset(buf, Strict) == |buf| % 2
  {
    var good := |buf| % 2;
    assert |buf[good..]| % 2 == 0;
    assert |buf[1 - good..]| % 2 == 1;
  }

  /** 101 zero bytes read the same at both parities (50 zero samples each),
      so the tie rule should keep offset 0; the code as written returns 1 and
      its caller discards a byte of a stream that was already aligned. */
  lemma StrictSyncMisreadsZeroBuffer()
    ensures var buf := seq(101, i => 0 as Byte);
      SamplesAt(buf, 0, DropTrailingByte) == SamplesAt(buf, 1, DropTrailingByte) &&
      SyncOffset(buf, Strict) == 1 &&
      SyncOffset(buf, DropTrailingByte) == 0
  {
    var buf := seq(101, i => 0 as Byte);
    assert buf[0..][..100] == buf[1..][..100];
    StrictSyncOffsetIsParity(buf);
  }

  // ---------------------------------------------------------------------
  // Properties of the score
  // ---------------------------------------------------------------------

  /** The range of the score: above 100 for a candidate that does not look
      saturated, and at most 2*zc - 500 (hence at most 2*(n-1) - 500) for one
      that does. */
  lemma ScoreBounds(s: seq<int>)
    requires |s| > 0 && AllInt16(s)
    ensures MaxAbs16(s) <= SATURATION_LEVEL ==> 100.0 < Score(s) <= 600.0 + 2.0 * (|s| - 1) as real
    ensures MaxAbs16(s) > SATURATION_LEVEL ==>
      -1000.0 < Score(s) <= 2.0 * ZeroCrossings(s) as real - 500.0 <= 2.0 * (|s| - 1) as real - 500.0
  {
    DistinctBounds(s);
    var n := |s| as real;
    var d := Distinct(s) as real;
    var zc := ZeroCrossings(s) as real;
    RatioBounds(d, n);
    var u := d / n * 500.0;
    var z := if zc > n * 0.1 then zc * 2.0 else 0.0;
    assert 0.0 <= z <= zc * 2.0;
    assert Score(s) == (if MaxAbs16(s) > SATURATION_LEVEL then -1000.0 else 100.0) + z + u;
  }

  lemma RatioBounds(d: real, n: real)
    requires 0.0 < d <= n
    ensures 0.0 < d / n * 500.0 <= 500.0
  {
    assert d / n <= 1.0;
  }

  /** The saturation penalty dominates: a saturated candidate with fewer than
      300 zero crossings scores below any candidate that is not saturated. */
  lemma SaturationPenaltyDominates(sat: seq<int>, clean: seq<int>)
    requires |sat| > 0 && AllInt16(sat) && |clean| > 0 && AllInt16(clean)
    requires MaxAbs16(sat) > SATURATION_LEVEL && MaxAbs16(clean) <= SATURATION_LEVEL
    requires ZeroCrossings(sat) < 300
    ensures Score(sat) < Score(clean)
  {
    ScoreBounds(clean);
    ScoreBounds(sat);
  }
}
