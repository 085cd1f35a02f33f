/** The fixed-capacity sliding sample window shared by every `read_samples`
    implementation: drop just enough of the oldest samples that the new chunk
    fits in `size`, append the chunk, and hand out the whole buffer once it
    holds exactly `size` samples. */
module SampleWindow {
  import opened Common

  /** How many front samples one push drops:
      `len.saturating_add(k).saturating_sub(size)`. */
  function Overflow(len: nat, k: nat, size: nat): nat
  {
    SaturatingSub(len + k, size)
  }

  /** One push onto the `VecDeque`: `drain(..delta)` then `extend(chunk)`.
      The drain panics when `delta` runs past the end, which happens exactly
      when the chunk is longer than the window, hence the precondition. */
  function Push(buffer: seq<real>, chunk: seq<real>, size: nat): (r: seq<real>)
    requires |chunk| <= size
    ensures |r| == MinInt(|buffer| + |chunk|, size)
    ensures |r| >= |chunk| && r[|r| - |chunk|..] == chunk
  {
    var delta := Overflow(|buffer|, |chunk|, size);
    assert delta <= |buffer|;
    buffer[delta..] + chunk
  }

  /** A push only ever drops from the front: the new buffer is the tail of
      the old buffer followed by the chunk. */
  lemma PushKeepsTail(buffer: seq<real>, chunk: seq<real>, size: nat)
    requires |chunk| <= size
    ensures Push(buffer, chunk, size) == (buffer + chunk)[|buffer| + |chunk| - |Push(buffer, chunk, size)|..]
  {
    var delta := Overflow(|buffer|, |chunk|, size);
    assert buffer[delta..] + chunk == (buffer + chunk)[delta..];
  }

  /** The block handed out after a push: the whole buffer, in order, exactly
      when it holds `size` samples. */
  function Block(buffer: seq<real>, size: nat): (r: Option<seq<real>>)
    ensures r.Some? <==> |buffer| == size
    ensures r.Some? ==> r.value == buffer
  {
    if |buffer| == size then Some(buffer) else None
  }

  /** The last `min(|s|, n)` elements of `s`. */
  function Last(s: seq<real>, n: nat): (r: seq<real>)
    ensures |r| == MinInt(|s|, n)
  {
    s[|s| - MinInt(|s|, n)..]
  }

  /** All chunks received so far, concatenated in arrival order. */
  function Flatten(chunks: seq<seq<real>>): seq<real>
  {
    if |chunks| == 0 then [] else Flatten(chunks[..|chunks| - 1]) + chunks[|chunks| - 1]
  }

  predicate ChunksFit(chunks: seq<seq<real>>, size: nat)
  {
    forall i :: 0 <= i < |chunks| ==> |chunks[i]| <= size
  }

  /** The buffer after pushing every chunk, in order, onto `buffer`. */
  function PushAll(buffer: seq<real>, chunks: seq<seq<real>>, size: nat): seq<real>
    requires ChunksFit(chunks, size)
  {
    if |chunks| == 0 then buffer
    else Push(PushAll(buffer, chunks[..|chunks| - 1], size), chunks[|chunks| - 1], size)
  }

  /** A push onto the trailing window of a stream is the trailing window of
      the extended stream. */
  lemma PushLast(stream: seq<real>, chunk: seq<real>, size: nat)
    requires |chunk| <= size
    ensures Push(Last(stream, size), chunk, size) == Last(stream + chunk, size)
  {
    var w := Last(stream, size);
    var s := stream + chunk;
    var off := |stream| - |w|;
    PushKeepsTail(w, chunk, size);
    assert w + chunk == s[off..];
    var j := |w| + |chunk| - |Push(w, chunk, size)|;
    SliceOfSlice(s, off, j);
    assert off + j == |s| - |Last(s, size)|;
  }

  lemma SliceOfSlice(s: seq<real>, a: nat, b: nat)
    requires a <= |s| && b <= |s| - a
    ensures s[a..][b..] == s[a + b..]
  {
  }

  /** Starting from an empty window, the buffer is always the last
      `min(total, size)` samples of everything received, so a block, when
      one is handed out, is the most recent `size` samples verbatim. */
  lemma {:induction false} PushAllIsTrailingWindow(chunks: seq<seq<real>>, size: nat)
    requires ChunksFit(chunks, size)
    ensures PushAll([], chunks, size) == Last(Flatten(chunks), size)
  {
    if |chunks| == 0 {
    } else {
      var init := chunks[..|chunks| - 1];
      assert ChunksFit(init, size);
      PushAllIsTrailingWindow(init, size);
      PushLast(Flatten(init), chunks[|chunks| - 1], size);
    }
  }

  /** Chunks that add up to exactly `size` samples yield one block whose
      contents are their concatenation in order. */
  lemma ExactFillYieldsConcatenation(chunks: seq<seq<real>>, size: nat)
    requires ChunksFit(chunks, size)
    requires |Flatten(chunks)| == size
    ensures Block(PushAll([], chunks, size), size) == Some(Flatten(chunks))
  {
    PushAllIsTrailingWindow(chunks, size);
  }
}
