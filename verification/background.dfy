/** The result mailbox between the processing thread and the render thread:
    `Slot` in the newer tree and `background::Queue` in the older one, the
    same `Arc<Mutex<Option<[Vec<Frequency>; 2]>>>` under two names. The
    model is sequential: whether `try_lock` found the mutex held by the
    writer is an argument, and the blocking `lock` in `put` always succeeds. */
module Background {
  import opened Common

  /** The cell's content; `T` is the stereo pair of band sequences. */
  datatype Slot<T> = Slot(content: Option<T>)

  /** `Slot::default()` / `Queue::default()`. */
  function Empty<T>(): (s: Slot<T>)
    ensures s.content.None?
  {
    Slot(None)
  }

  /** `put`: replaces whatever the cell held, unconditionally. */
  function Put<T>(s: Slot<T>, frequencies: T): (r: Slot<T>)
    ensures r.content == Some(frequencies)
  {
    Slot(Some(frequencies))
  }

  /** `take`: `try_lock()?` fails when the writer holds the lock, otherwise
      the content is cloned out and left in place. Taking never changes the
      cell, so the new state is not returned. */
  function Take<T>(s: Slot<T>, contended: bool): (r: Option<T>)
    ensures contended ==> r.None?
    ensures !contended ==> r == s.content
  {
    if contended then None else s.content
  }

  /** A fresh queue has nothing to take. */
  lemma EmptyHasNothing<T>(contended: bool)
    ensures Take(Empty<T>(), contended) == None
  {
  }

  /** After `put(x)` an uncontended `take` returns exactly `x`, whatever was
      there before. */
  lemma PutThenTake<T>(s: Slot<T>, x: T)
    ensures Take(Put(s, x), false) == Some(x)
  {
  }

  /** Only the last of several puts is observable; earlier ones are
      discarded, never queued. */
  lemma LastPutWins<T>(s: Slot<T>, x: T, y: T)
    ensures Put(Put(s, x), y) == Put(s, y)
  {
  }

  /** Takes do not consume: any sequence of takes, contended or not, leaves
      every uncontended take returning the same value. */
  lemma TakesAgree<T>(s: Slot<T>, contended: bool)
    ensures Take(s, contended).Some? ==> Take(s, contended) == Take(s, false)
    ensures Take(s, false) == s.content
  {
  }
}
