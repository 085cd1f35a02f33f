/** `CpalBuffer::read_samples` in both trees. The channel from the audio
    callback is not modelled: the chunk that `recv` / `try_recv` produced (or
    its failure, as `None`) is an argument. */
module Capture {
  import opened Common
  import opened SampleWindow

  /** `SAMPLE_SIZE` of the older tree. */
  const SAMPLE_SIZE: nat := 4096

  /** The sample queue of a capture buffer. */
  datatype CpalBuffer = CpalBuffer(buffer: seq<real>)

  predicate Bounded(b: CpalBuffer, size: nat)
  {
    |b.buffer| <= size
  }

  /** The newer tree: `read_samples(sample_size)` after a blocking `recv`.
      A failed receive returns `None` before touching the queue. */
  function ReadSamples(b: CpalBuffer, received: Option<seq<real>>, sampleSize: nat): (r: (CpalBuffer, Option<seq<real>>))
    requires received.Some? ==> |received.value| <= sampleSize
    ensures received.None? ==> r == (b, None)
    ensures received.Some? ==> |r.0.buffer| == MinInt(|b.buffer| + |received.value|, sampleSize)
    ensures received.Some? ==> r.0.buffer == (b.buffer + received.value)[|b.buffer| + |received.value| - |r.0.buffer|..]
    ensures received.Some? ==> r.0.buffer[|r.0.buffer| - |received.value|..] == received.value
    ensures r.1.Some? <==> received.Some? && |r.0.buffer| == sampleSize
    ensures r.1.Some? ==> r.1.value == r.0.buffer
  {
    match received
    case None => (b, None)
    case Some(data) =>
      PushKeepsTail(b.buffer, data, sampleSize);
      var next := Push(b.buffer, data, sampleSize);
      (CpalBuffer(next), Block(next, sampleSize))
  }

  /** The older tree: the same window with `SAMPLE_SIZE` fixed, fed by a
      non-blocking `try_recv`; no pending chunk returns `None` and leaves
      the queue alone. */
  function ReadSamplesFixed(b: CpalBuffer, pending: Option<seq<real>>): (r: (CpalBuffer, Option<seq<real>>))
    requires pending.Some? ==> |pending.value| <= SAMPLE_SIZE
    ensures pending.None? ==> r == (b, None)
    ensures pending.Some? ==> |r.0.buffer| == MinInt(|b.buffer| + |pending.value|, SAMPLE_SIZE)
    ensures pending.Some? ==> r.0.buffer == (b.buffer + pending.value)[|b.buffer| + |pending.value| - |r.0.buffer|..]
    ensures Bounded(b, SAMPLE_SIZE) ==> Bounded(r.0, SAMPLE_SIZE)
    ensures r.1.Some? <==> pending.Some? && |r.0.buffer| == SAMPLE_SIZE
    ensures r.1.Some? ==> |r.1.value| == SAMPLE_SIZE && r.1.value == r.0.buffer
  {
    ReadSamples(b, pending, SAMPLE_SIZE)
  }

  /** Exactly `max(0, len + k - size)` samples are dropped, all of them from
      the front, and the chunk follows them in order. */
  lemma DropsOnlyOldest(b: CpalBuffer, chunk: seq<real>, sampleSize: nat)
    requires |chunk| <= sampleSize
    ensures ReadSamples(b, Some(chunk), sampleSize).0.buffer
         == b.buffer[Overflow(|b.buffer|, |chunk|, sampleSize)..] + chunk
  {
    var delta := Overflow(|b.buffer|, |chunk|, sampleSize);
    assert (b.buffer + chunk)[delta..] == b.buffer[delta..] + chunk;
  }

  /** Feeding a sequence of received chunks to a fresh buffer. */
  function Feed(b: CpalBuffer, chunks: seq<seq<real>>, sampleSize: nat): (r: CpalBuffer)
    requires ChunksFit(chunks, sampleSize)
    ensures Bounded(b, sampleSize) ==> Bounded(r, sampleSize)
    ensures |chunks| > 0 ==> |chunks[|chunks| - 1]| <= |r.buffer|
    ensures |chunks| > 0 ==> r.buffer[|r.buffer| - |chunks[|chunks| - 1]|..] == chunks[|chunks| - 1]
  {
    if |chunks| == 0 then b
    else
      var before := Feed(b, chunks[..|chunks| - 1], sampleSize);
      ReadSamples(before, Some(chunks[|chunks| - 1]), sampleSize).0
  }

  /** Every block a fresh capture buffer returns is the last `sampleSize`
      samples of all chunks received, in order. */
  lemma {:induction false} BlockIsLatestSamples(chunks: seq<seq<real>>, sampleSize: nat)
    requires ChunksFit(chunks, sampleSize)
    ensures Feed(CpalBuffer([]), chunks, sampleSize).buffer == Last(Flatten(chunks), sampleSize)
  {
    FeedIsPushAll(chunks, sampleSize);
    PushAllIsTrailingWindow(chunks, sampleSize);
  }

  lemma {:induction false} FeedIsPushAll(chunks: seq<seq<real>>, sampleSize: nat)
    requires ChunksFit(chunks, sampleSize)
    ensures Feed(CpalBuffer([]), chunks, sampleSize).buffer == PushAll([], chunks, sampleSize)
  {
    if |chunks| > 0 {
      FeedIsPushAll(chunks[..|chunks| - 1], sampleSize);
    }
  }
}
