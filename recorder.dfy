/** The recording loop of to_voice.py's `main`: each chunk read from the
    serial port is decoded, amplified by VOLUME_GAIN, checked for lost
    synchronisation, and either written to the WAV file or counted as a sync
    error. Five errors in a row stop the recording; a write, or a resync that
    finds a nonzero offset, clears the count.

    The wall clock that bounds the loop is replaced by a finite sequence of
    chunks; each chunk also carries the bytes `find_sync_point` would collect
    if that chunk triggers a resync.

    The loop is parameterised by the decoding `find_sync_point` uses:
    `Sync.Strict` is the program as written, `Sync.DropTrailingByte` the
    corrected alignment search. As written, a resync clears the counter
    exactly when the collected buffer has an odd length of at least 101 bytes
    (`StrictResyncRule`). */
module Recorder {
  import opened Pcm
  import Sync

  const BUFFER_SIZE := 1024
  const SAMPLE_WIDTH := 2
  const VOLUME_GAIN := 8.0
  const MAX_SYNC_ERRORS := 5

  /** The size of each read: a full buffer, or what is left of the recording
      time when that is less. */
  function BytesToRead(remainingBytes: int): (n: int)
    ensures n <= BUFFER_SIZE * SAMPLE_WIDTH && n <= remainingBytes
    ensures n == BUFFER_SIZE * SAMPLE_WIDTH || n == remainingBytes
  {
    if BUFFER_SIZE * SAMPLE_WIDTH <= remainingBytes then BUFFER_SIZE * SAMPLE_WIDTH else remainingBytes
  }

  /** A chunk looks like lost synchronisation when it is (near) saturated and
      fewer than 5% of its samples cross zero. */
  predicate IsSyncError(amplified: seq<int>)
    requires |amplified| > 0 && AllInt16(amplified)
  {
    MaxAbs16(amplified) > Sync.SATURATION_LEVEL
    && (ZeroCrossings(amplified) as real) < (|amplified| as real) * 0.05
  }

  /** One read: the bytes returned, and the bytes a resync would collect. */
  datatype Chunk = Chunk(data: seq<Byte>, resync: seq<Byte>)

  /** What the loop decides about one chunk. */
  datatype Verdict =
    | Empty                              // nothing was read
    | Undecodable                        // np.frombuffer raised (odd byte count)
    | SyncLost(resync: seq<Byte>)        // saturated with too few zero crossings
    | Accepted(samples: seq<int>)        // amplified samples to write

  function Classify(c: Chunk): (v: Verdict)
    ensures v.Accepted? ==> AllInt16(v.samples) && 2 * |v.samples| == |c.data| > 0
  {
    if |c.data| == 0 then Empty
    else if |c.data| % 2 == 1 then Undecodable
    else
      var amplified := ApplyVolumeGain(Decode(c.data), VOLUME_GAIN);
      if IsSyncError(amplified) then SyncLost(c.resync) else Accepted(amplified)
  }

  /** The loop's state: the samples written, `total_bytes`, `sync_errors`. */
  datatype Recording = Recording(written: seq<int>, totalBytes: nat, syncErrors: nat)

  const Start := Recording([], 0, 0)

  /** The effect of one chunk on the state. On the fifth consecutive error
      the loop breaks before resynchronising. */
  function Step(r: Recording, v: Verdict, mode: Sync.DecodeMode): Recording
  {
    match v
    case Empty => r
    case Undecodable => r.(syncErrors := r.syncErrors + 1)
    case SyncLost(resync) =>
      var errors := r.syncErrors + 1;
      if errors >= MAX_SYNC_ERRORS then r.(syncErrors := errors)
      else if Sync.SyncOffset(resync, mode) > 0 then r.(syncErrors := 0)
      else r.(syncErrors := errors)
    case Accepted(samples) =>
      Recording(r.written + samples, r.totalBytes + 2 * |samples|, 0)
  }

  /** The final state, and how many chunks were read before the loop ended. */
  datatype Run = Run(final: Recording, chunksRead: nat)

  function RunFrom(r: Recording, chunks: seq<Chunk>, mode: Sync.DecodeMode): Run
    decreases |chunks|
  {
    if chunks == [] || r.syncErrors >= MAX_SYNC_ERRORS then Run(r, 0)
    else
      var rest := RunFrom(Step(r, Classify(chunks[0]), mode), chunks[1..], mode);
      Run(rest.final, rest.chunksRead + 1)
  }

  /** The counter moves by at most one per chunk, and returns to 0 after a
      write or after a resync that found a nonzero offset. */
  lemma StepCounter(r: Recording, v: Verdict, mode: Sync.DecodeMode)
    ensures Step(r, v, mode).syncErrors <= r.syncErrors + 1
    ensures v.Accepted? ==> Step(r, v, mode).syncErrors == 0
    ensures v.SyncLost? && r.syncErrors + 1 < MAX_SYNC_ERRORS ==>
      (Step(r, v, mode).syncErrors == 0 <==> Sync.SyncOffset(v.resync, mode) > 0)
    ensures v.SyncLost? && r.syncErrors + 1 >= MAX_SYNC_ERRORS ==> Step(r, v, mode).syncErrors == r.syncErrors + 1
    ensures v.Undecodable? ==> Step(r, v, mode).syncErrors == r.syncErrors + 1
    ensures v.Empty? ==> Step(r, v, mode) == r
    ensures !v.Accepted? ==> Step(r, v, mode).written == r.written && Step(r, v, mode).totalBytes == r.totalBytes
  {
  }

  /** As written (strict decoding in `find_sync_point`), a sync error below
      the fifth clears the counter exactly when the buffer collected for the
      resync has an odd length of at least 101 bytes; the scores play no
      part. */
  lemma StrictResyncRule(r: Recording, resync: seq<Byte>)
    requires r.syncErrors + 1 < MAX_SYNC_ERRORS
    ensures Step(r, SyncLost(resync), Sync.Strict).syncErrors == 0
      <==> |resync| % 2 == 1 && |resync| >= Sync.MIN_SYNC_BYTES + 1
  {
    if |resync| >= Sync.MIN_SYNC_BYTES {
      Sync.StrictSyncOffsetIsParity(resync);
    }
  }

  /** What the whole recording guarantees: the counter never passes 5, the
      loop stops early only once it has reached 5, everything written is
      int16 and was appended in order, and total_bytes counts exactly the
      bytes of the written samples. */
  lemma {:induction false} RunInvariants(r: Recording, chunks: seq<Chunk>, mode: Sync.DecodeMode)
    requires r.syncErrors <= MAX_SYNC_ERRORS
    requires AllInt16(r.written) && r.totalBytes == 2 * |r.written|
    ensures var run := RunFrom(r, chunks, mode);
      run.chunksRead <= |chunks|
      && run.final.syncErrors <= MAX_SYNC_ERRORS
      && (run.chunksRead < |chunks| ==> run.final.syncErrors == MAX_SYNC_ERRORS)
      && AllInt16(run.final.written)
      && run.final.totalBytes == 2 * |run.final.written|
      && r.written <= run.final.written
    decreases |chunks|
  {
    if chunks != [] && r.syncErrors < MAX_SYNC_ERRORS {
      var next := Step(r, Classify(chunks[0]), mode);
      StepCounter(r, Classify(chunks[0]), mode);
      RunInvariants(next, chunks[1..], mode);
    }
  }

  /** One chunk of a run that has not stopped. */
  lemma RunFromStep(r: Recording, chunks: seq<Chunk>, mode: Sync.DecodeMode)
    requires chunks != [] && r.syncErrors < MAX_SYNC_ERRORS
    ensures RunFrom(r, chunks, mode).final == RunFrom(Step(r, Classify(chunks[0]), mode), chunks[1..], mode).final
    ensures RunFrom(r, chunks, mode).chunksRead == 1 + RunFrom(Step(r, Classify(chunks[0]), mode), chunks[1..], mode).chunksRead
  {
  }

  /** The loop of `main` (lines 131-177). The source's `break` on the fifth
      error and its loop condition both end the loop at the same point, so
      the loop condition alone stands for both here. */
  method Record(chunks: seq<Chunk>, mode: Sync.DecodeMode) returns (rec: Recording, chunksRead: nat)
    ensures RunFrom(Start, chunks, mode) == Run(rec, chunksRead)
  {
    rec := Start;
    chunksRead := 0;
    while chunksRead < |chunks| && rec.syncErrors < MAX_SYNC_ERRORS
      invariant chunksRead <= |chunks|
      invariant RunFrom(Start, chunks, mode)
        == Run(RunFrom(rec, chunks[chunksRead..], mode).final,
               chunksRead + RunFrom(rec, chunks[chunksRead..], mode).chunksRead)
      decreases |chunks| - chunksRead
    {
      var c := chunks[chunksRead];
      var data := c.data;
      ghost var before := rec;
      ghost var v := Classify(c);
      if |data| > 0 {
        if |data| % 2 == 1 {
          assert v == Undecodable;
          rec := rec.(syncErrors := rec.syncErrors + 1);
        } else {
          var amplified := ApplyVolumeGain(Decode(data), VOLUME_GAIN);
          if IsSyncError(amplified) {
            assert v == SyncLost(c.resync);
            rec := rec.(syncErrors := rec.syncErrors + 1);
            if rec.syncErrors < MAX_SYNC_ERRORS {
              var newOffset := Sync.FindSyncPoint(c.resync, mode);
              if newOffset > 0 {
                rec := rec.(syncErrors := 0);
              }
            }
          } else {
            assert v == Accepted(amplified);
            rec := Recording(rec.written + amplified, rec.totalBytes + |data|, 0);
          }
        }
      } else {
        assert v == Empty;
      }
      assert rec == Step(before, v, mode);
      RunFromStep(before, chunks[chunksRead..], mode);
      assert chunks[chunksRead..][1..] == chunks[chunksRead + 1..];
      chunksRead := chunksRead + 1;
    }
  }
}
