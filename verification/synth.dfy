/** The synthetic test source: `SynthBuffer::read_samples`, which refills the
    sliding window from an endless signal a quarter block at a time, and
    `Note::parse`. The sweep generators that feed the buffer are floating
    point signal synthesis and are not modelled: the signal is any function
    from sample index to sample. */
module Synth {
  import opened Common
  import opened SampleWindow

  /** The window plus how many samples of the endless source have been
      taken so far (the iterator's position). */
  datatype SynthBuffer = SynthBuffer(buffer: seq<real>, position: nat)

  /** `n` consecutive samples of the source starting at `from`. */
  function Segment(source: nat -> real, from: nat, n: nat): (r: seq<real>)
    ensures |r| == n
  {
    seq(n, i requires 0 <= i < n => source(from + i))
  }

  /** Each call takes `sample_size / 4` samples from the source. */
  function Hop(sampleSize: nat): nat { sampleSize / 4 }

  /** The buffer after one `read_samples` call. */
  function Refill(b: SynthBuffer, source: nat -> real, sampleSize: nat): SynthBuffer
  {
    var w := Hop(sampleSize);
    SynthBuffer(Push(b.buffer, Segment(source, b.position, w), sampleSize), b.position + w)
  }

  function ReadSamples(b: SynthBuffer, source: nat -> real, sampleSize: nat): (r: (SynthBuffer, Option<seq<real>>))
    ensures r.0.position == b.position + Hop(sampleSize)
    ensures |r.0.buffer| == MinInt(|b.buffer| + Hop(sampleSize), sampleSize)
    ensures r.0.buffer[|r.0.buffer| - Hop(sampleSize)..] == Segment(source, b.position, Hop(sampleSize))
    ensures r.1.Some? <==> |r.0.buffer| == sampleSize
    ensures r.1.Some? ==> r.1.value == r.0.buffer
  {
    var next := Refill(b, source, sampleSize);
    (next, Block(next.buffer, sampleSize))
  }

  /** The state after `calls` reads from a freshly created buffer. */
  function Run(source: nat -> real, sampleSize: nat, calls: nat): SynthBuffer
  {
    if calls == 0 then SynthBuffer([], 0)
    else Refill(Run(source, sampleSize, calls - 1), source, sampleSize)
  }

  lemma SegmentsConcatenate(source: nat -> real, n: nat, w: nat)
    ensures Segment(source, 0, n) + Segment(source, n, w) == Segment(source, 0, n + w)
  {
  }

  /** After `c` calls, exactly `c * (S / 4)` source samples have been taken. */
  lemma {:induction false} RunPosition(source: nat -> real, sampleSize: nat, calls: nat)
    ensures Run(source, sampleSize, calls).position == calls * Hop(sampleSize)
  {
    if calls > 0 {
      RunPosition(source, sampleSize, calls - 1);
      StepPosition(Run(source, sampleSize, calls - 1).position, calls, Hop(sampleSize));
    }
  }

  lemma StepPosition(p: nat, c: nat, w: nat)
    requires c >= 1 && p == (c - 1) * w
    ensures p + w == c * w
  {
  }

  /** The buffer is always the trailing window of every source sample taken
      so far. */
  lemma {:induction false} RunWindow(source: nat -> real, sampleSize: nat, calls: nat)
    ensures Run(source, sampleSize, calls).buffer == Last(Segment(source, 0, Run(source, sampleSize, calls).position), sampleSize)
  {
    if calls > 0 {
      RunWindow(source, sampleSize, calls - 1);
      var before := Run(source, sampleSize, calls - 1);
      RefillWindow(before, source, sampleSize);
    }
  }

  /** One refill keeps the buffer the trailing window of what was taken. */
  lemma RefillWindow(b: SynthBuffer, source: nat -> real, sampleSize: nat)
    requires b.buffer == Last(Segment(source, 0, b.position), sampleSize)
    ensures Refill(b, source, sampleSize).buffer
            == Last(Segment(source, 0, Refill(b, source, sampleSize).position), sampleSize)
  {
    var w := Hop(sampleSize);
    PushLast(Segment(source, 0, b.position), Segment(source, b.position, w), sampleSize);
    SegmentsConcatenate(source, b.position, w);
  }

  /** After `c` calls the buffer is the last `min(c * (S / 4), S)` source
      samples. */
  lemma RunIsTrailingWindow(source: nat -> real, sampleSize: nat, calls: nat)
    ensures Run(source, sampleSize, calls).buffer == Last(Segment(source, 0, calls * Hop(sampleSize)), sampleSize)
  {
    RunPosition(source, sampleSize, calls);
    RunWindow(source, sampleSize, calls);
  }

  lemma MulStep(c: nat, w: nat)
    requires c >= 1
    ensures c * w == (c - 1) * w + w
  {
  }

  /** For a block of at least four samples the first block arrives on call
      `ceil(S / (S/4))`, and every later call yields one as well. */
  lemma FirstBlockArrival(source: nat -> real, sampleSize: nat, calls: nat)
    requires sampleSize >= 4
    requires calls >= 1
    ensures var w := Hop(sampleSize);
      ReadSamples(Run(source, sampleSize, calls - 1), source, sampleSize).1.Some?
      <==> calls >= (sampleSize + w - 1) / w
  {
    RunLength(source, sampleSize, calls);
    CeilingDivision(calls, sampleSize, Hop(sampleSize));
  }

  /** The `c`-th call returns a block exactly when `c * (S / 4)` reaches `S`. */
  lemma RunLength(source: nat -> real, sampleSize: nat, calls: nat)
    requires calls >= 1
    ensures ReadSamples(Run(source, sampleSize, calls - 1), source, sampleSize).1.Some?
            <==> calls * Hop(sampleSize) >= sampleSize
  {
    RunPosition(source, sampleSize, calls);
    RunWindow(source, sampleSize, calls);
    assert ReadSamples(Run(source, sampleSize, calls - 1), source, sampleSize).0 == Run(source, sampleSize, calls);
  }

  /** `c * w >= s` exactly when `c` is at least `s / w` rounded up. */
  lemma CeilingDivision(c: nat, s: nat, w: nat)
    requires w >= 1
    ensures c * w >= s <==> c >= (s + w - 1) / w
  {
    var q := (s + w - 1) / w;
    var m := (s + w - 1) % w;
    assert q * w + m == s + w - 1 && 0 <= m < w;
    if c >= q {
      MulMonotone(q, c, w);
    } else {
      MulMonotone(c, q - 1, w);
      MulStep(q, w);
    }
  }

  lemma MulMonotone(a: nat, b: nat, w: nat)
    requires a <= b
    ensures a * w <= b * w
  {
  }

  /** Below four samples the hop is zero, the buffer never grows, and no
      block is ever returned for a positive block size. */
  lemma TinyBlockNeverFills(source: nat -> real, sampleSize: nat, calls: nat)
    requires 0 < sampleSize < 4
    ensures ReadSamples(Run(source, sampleSize, calls), source, sampleSize).1 == None
  {
    RunIsTrailingWindow(source, sampleSize, calls);
  }

  // ---------------------------------------------------------------- Note::parse

  /** The semitone table exactly as the source writes it, including the
      spelling "Cb" on the row where the sharps/flats pattern calls for "Gb". */
  const SEMITONES_AS_WRITTEN: seq<(string, nat)> := [
    ("C", 0), ("C#", 1), ("Db", 1), ("D", 2), ("D#", 3), ("Eb", 3), ("E", 4),
    ("F", 5), ("F#", 6), ("Cb", 6), ("G", 7), ("G#", 8), ("Ab", 8), ("A", 9),
    ("A#", 10), ("Bb", 10), ("B", 11)
  ]

  /** The table with that row spelled "Gb", the flat that shares semitone 6
      with "F#". */
  const SEMITONES: seq<(string, nat)> := [
    ("C", 0), ("C#", 1), ("Db", 1), ("D", 2), ("D#", 3), ("Eb", 3), ("E", 4),
    ("F", 5), ("F#", 6), ("Gb", 6), ("G", 7), ("G#", 8), ("Ab", 8), ("A", 9),
    ("A#", 10), ("Bb", 10), ("B", 11)
  ]

  /** `iter().find_map(...)` from row `k` on: the semitone of the first row
      named `note`. */
  function LookupFrom(table: seq<(string, nat)>, note: string, k: nat): Option<nat>
    decreases |table| - k
  {
    if k >= |table| then None
    else if table[k].0 == note then Some(table[k].1)
    else LookupFrom(table, note, k + 1)
  }

  /** The scan finds a name exactly when some row carries it, and then
      returns the semitone of the first such row. */
  lemma {:induction false} LookupFromFindsFirstRow(table: seq<(string, nat)>, note: string, k: nat)
    decreases |table| - k
    ensures LookupFrom(table, note, k).Some? <==> exists i :: k <= i < |table| && table[i].0 == note
    ensures LookupFrom(table, note, k).Some? ==>
              exists i :: k <= i < |table| && table[i] == (note, LookupFrom(table, note, k).value) &&
                forall j :: k <= j < i ==> table[j].0 != note
  {
    if k < |table| && table[k].0 != note {
      LookupFromFindsFirstRow(table, note, k + 1);
    }
  }

  function Lookup(table: seq<(string, nat)>, note: string): Option<nat>
  {
    LookupFrom(table, note, 0)
  }

  predicate IsDigit(c: char) { '0' <= c <= '9' }

  predicate AllDigits(s: string)
  {
    forall i :: 0 <= i < |s| ==> IsDigit(s[i])
  }

  function DigitsValue(s: string): int
    requires AllDigits(s)
  {
    if |s| == 0 then 0 else 10 * DigitsValue(s[..|s| - 1]) + (s[|s| - 1] as int - '0' as int)
  }

  /** `str::parse::<i8>`: an optional `+` or `-`, then one or more decimal
      digits, with the value in `-128..=127`. */
  function ParseI8(s: string): (r: Option<int>)
    ensures r.Some? ==> -128 <= r.value <= 127
    ensures |s| == 0 ==> r == None
  {
    if |s| == 0 then None
    else
      var negative := s[0] == '-';
      var digits := if s[0] == '-' || s[0] == '+' then s[1..] else s;
      if |digits| == 0 || !AllDigits(digits) then None
      else
        var v := if negative then -DigitsValue(digits) else DigitsValue(digits);
        if -128 <= v <= 127 then Some(v) else None
  }

  // UTF-8 lengths: `str::len` and `str::split_at` count bytes.

  /** The bytes UTF-8 spends on one scalar value. */
  function Utf8Len(c: char): (n: nat)
    ensures 1 <= n <= 4
  {
    if c as int < 0x80 then 1 else if c as int < 0x800 then 2 else if c as int < 0x1_0000 then 3 else 4
  }

  /** `str::len`: the length in UTF-8 bytes. */
  function ByteLen(s: string): (n: nat)
    ensures n >= |s|
  {
    if |s| == 0 then 0 else Utf8Len(s[0]) + ByteLen(s[1..])
  }

  /** A non-empty prefix costs its first character plus the rest. */
  lemma ByteLenPrefixes(s: string)
    requires |s| >= 1
    ensures forall j :: 1 <= j <= |s| ==> ByteLen(s[..j]) == Utf8Len(s[0]) + ByteLen(s[1..][..j - 1])
  {
    forall j | 1 <= j <= |s|
      ensures ByteLen(s[..j]) == Utf8Len(s[0]) + ByteLen(s[1..][..j - 1])
    {
      assert s[..j][0] == s[0];
      assert s[..j][1..] == s[1..][..j - 1];
    }
  }

  /** The number of characters in the first `k` bytes, when byte `k` is a
      character boundary. */
  function CharsInBytes(s: string, k: nat): (r: Option<nat>)
    ensures r.Some? ==> r.value <= |s| && ByteLen(s[..r.value]) == k
    ensures r.None? ==> forall j :: 0 <= j <= |s| ==> ByteLen(s[..j]) != k
    decreases |s|
  {
    if k == 0 then
      assert s[..0] == [];
      Some(0)
    else if |s| == 0 then None
    else
      ByteLenPrefixes(s);
      if Utf8Len(s[0]) > k then None
      else
        match CharsInBytes(s[1..], k - Utf8Len(s[0]))
        case None => None
        case Some(j) => Some(j + 1)
  }

  /** `str::split_at(mid)`: the text before byte `mid` and the text from
      it, panicking when `mid` is past the end or inside a character. */
  function SplitAtByte(s: string, mid: nat): (r: Checked<(string, string)>)
    ensures r.Ok? ==> r.value.0 + r.value.1 == s && ByteLen(r.value.0) == mid
    ensures r.Panic? ==> forall j :: 0 <= j <= |s| ==> ByteLen(s[..j]) != mid
  {
    match CharsInBytes(s, mid)
    case None => Panic
    case Some(j) =>
      assert s[..j] + s[j..] == s;
      Ok((s[..j], s[j..]))
  }

  /** `name.split_at(if name.len() == 3 { 2 } else { 1 })`: the note part and
      the octave part. */
  function NameSplit(name: string): (r: Checked<(string, string)>)
    ensures |name| == 0 ==> r.Panic?
    ensures r.Ok? ==> r.value.0 + r.value.1 == name
    ensures r.Ok? ==> ByteLen(r.value.0) == (if ByteLen(name) == 3 then 2 else 1)
  {
    SplitAtByte(name, if ByteLen(name) == 3 then 2 else 1)
  }

  /** `octave.parse::<i8>().ok().unwrap_or(0)`. */
  function OctaveOf(rest: string): (o: int)
    ensures -128 <= o <= 127
    ensures ParseI8(rest).Some? ==> o == ParseI8(rest).value
  {
    match ParseI8(rest)
    case Some(o) => o
    case None => 0
  }

  predicate Ascii(s: string)
  {
    forall i :: 0 <= i < |s| ==> s[i] as int < 0x80
  }

  lemma {:induction false} AsciiByteLen(s: string)
    requires Ascii(s)
    ensures ByteLen(s) == |s|
  {
    if |s| > 0 {
      assert Ascii(s[1..]);
      AsciiByteLen(s[1..]);
    }
  }

  lemma AsciiBoundary(s: string, k: nat)
    requires Ascii(s) && k <= |s|
    ensures CharsInBytes(s, k) == Some(k)
  {
    assert Ascii(s[..k]);
    AsciiByteLen(s[..k]);
    var j := CharsInBytes(s, k).value;
    assert Ascii(s[..j]);
    AsciiByteLen(s[..j]);
  }

  /** On an ASCII name bytes are characters, so the split falls after two
      characters in a three-character name and after one otherwise. */
  lemma AsciiNameSplit(name: string)
    requires Ascii(name) && |name| >= 1
    ensures var mid := if |name| == 3 then 2 else 1;
            NameSplit(name) == Ok((name[..mid], name[mid..]))
  {
    AsciiByteLen(name);
    AsciiBoundary(name, if |name| == 3 then 2 else 1);
  }

  predicate InI8(x: int) { -128 <= x <= 127 }

  /** `12 * (octave + 1) + semitone as i8`, evaluated in `i8`: each operation
      that leaves the range is an overflow, which panics in a debug build. */
  function MidiValue(octave: int, semitone: nat): Checked<int>
  {
    var next := octave + 1;
    if !InI8(next) then Panic
    else if !InI8(12 * next) then Panic
    else if !InI8(12 * next + semitone) then Panic
    else Ok(12 * next + semitone)
  }

  /** `Note::parse` over a given semitone table: `Ok(None)` is the source's
      `None`, `Ok(Some(n))` is `Some(Note(n))`, and `Panic` is a `split_at`
      off a character boundary or past the end (the empty name), or an `i8`
      overflow. A parsed note number decodes back into the octave and the
      semitone it came from. */
  function ParseWith(table: seq<(string, nat)>, name: string): (r: Checked<Option<nat>>)
    requires forall i :: 0 <= i < |table| ==> table[i].1 < 12
    ensures |name| == 0 ==> r == Panic
    ensures NameSplit(name).Panic? ==> r == Panic
    ensures NameSplit(name).Ok? && Lookup(table, NameSplit(name).value.0).None? ==> r == Ok(None)
    ensures NameSplit(name).Ok? && Lookup(table, NameSplit(name).value.0).Some? ==>
              var octave := OctaveOf(NameSplit(name).value.1);
              var v := 12 * (octave + 1) + Lookup(table, NameSplit(name).value.0).value;
              r == if -11 <= octave <= 9 && v <= 127 then (if v < 0 then Ok(None) else Ok(Some(v))) else Panic
    ensures r.Ok? && r.value.Some? ==>
              0 <= r.value.value <= 127 && NameSplit(name).Ok? &&
              Lookup(table, NameSplit(name).value.0).Some? &&
              r.value.value % 12 == Lookup(table, NameSplit(name).value.0).value &&
              r.value.value / 12 == OctaveOf(NameSplit(name).value.1) + 1
  {
    match NameSplit(name)
    case Panic => Panic
    case Ok((note, rest)) =>
      match Lookup(table, note)
      case None => Ok(None)
      case Some(semitone) =>
        LookupFromFindsFirstRow(table, note, 0);
        match MidiValue(OctaveOf(rest), semitone)
        case Panic => Panic
        case Ok(v) => if v < 0 then Ok(None) else Ok(Some(v))
  }

  /** "Gb" is missing from the table as written. */
  lemma GbMissingAsWritten()
    ensures Lookup(SEMITONES_AS_WRITTEN, "Gb") == None
  {
    assert LookupFrom(SEMITONES_AS_WRITTEN, "Gb", 17) == None;
    assert LookupFrom(SEMITONES_AS_WRITTEN, "Gb", 16) == None;
    assert LookupFrom(SEMITONES_AS_WRITTEN, "Gb", 15) == None;
    assert LookupFrom(SEMITONES_AS_WRITTEN, "Gb", 14) == None;
    assert LookupFrom(SEMITONES_AS_WRITTEN, "Gb", 13) == None;
    assert LookupFrom(SEMITONES_AS_WRITTEN, "Gb", 12) == None;
    assert LookupFrom(SEMITONES_AS_WRITTEN, "Gb", 11) == None;
    assert LookupFrom(SEMITONES_AS_WRITTEN, "Gb", 10) == None;
    assert LookupFrom(SEMITONES_AS_WRITTEN, "Gb", 9) == None;
    assert LookupFrom(SEMITONES_AS_WRITTEN, "Gb", 8) == None;
    assert LookupFrom(SEMITONES_AS_WRITTEN, "Gb", 7) == None;
    assert LookupFrom(SEMITONES_AS_WRITTEN, "Gb", 6) == None;
    assert LookupFrom(SEMITONES_AS_WRITTEN, "Gb", 5) == None;
    assert LookupFrom(SEMITONES_AS_WRITTEN, "Gb", 4) == None;
    assert LookupFrom(SEMITONES_AS_WRITTEN, "Gb", 3) == None;
    assert LookupFrom(SEMITONES_AS_WRITTEN, "Gb", 2) == None;
    assert LookupFrom(SEMITONES_AS_WRITTEN, "Gb", 1) == None;
  }

  /** `Note::parse` as the source writes it: any name whose note part is
      "Gb" is rejected, whatever its octave. */
  function ParseAsWritten(name: string): (r: Checked<Option<nat>>)
    ensures NameSplit(name).Ok? && NameSplit(name).value.0 == "Gb" ==> r == Ok(None)
  {
    GbMissingAsWritten();
    ParseWith(SEMITONES_AS_WRITTEN, name)
  }

  /** `Note::parse` with the "Gb" row: a parsed "Gb" lands on the pitch
      class of F#. */
  function Parse(name: string): (r: Checked<Option<nat>>)
    ensures NameSplit(name).Ok? && NameSplit(name).value.0 == "Gb" && r.Ok? && r.value.Some? ==>
              r.value.value % 12 == 6
  {
    GbSemitone();
    ParseWith(SEMITONES, name)
  }

  lemma GbSemitone()
    ensures Lookup(SEMITONES, "Gb") == Some(6)
  {
    assert LookupFrom(SEMITONES, "Gb", 9) == Some(6);
    assert LookupFrom(SEMITONES, "Gb", 8) == Some(6);
    assert LookupFrom(SEMITONES, "Gb", 7) == Some(6);
    assert LookupFrom(SEMITONES, "Gb", 6) == Some(6);
    assert LookupFrom(SEMITONES, "Gb", 5) == Some(6);
    assert LookupFrom(SEMITONES, "Gb", 4) == Some(6);
    assert LookupFrom(SEMITONES, "Gb", 3) == Some(6);
    assert LookupFrom(SEMITONES, "Gb", 2) == Some(6);
    assert LookupFrom(SEMITONES, "Gb", 1) == Some(6);
  }

  /** Two tables that agree on every row naming `note` from row `k` on find
      the same semitone for it. */
  lemma {:induction false} LookupAgree(t1: seq<(string, nat)>, t2: seq<(string, nat)>, note: string, k: nat)
    requires |t1| == |t2|
    requires forall j :: k <= j < |t1| ==> t1[j] == t2[j] || (t1[j].0 != note && t2[j].0 != note)
    decreases |t1| - k
    ensures LookupFrom(t1, note, k) == LookupFrom(t2, note, k)
  {
    if k < |t1| {
      LookupAgree(t1, t2, note, k + 1);
    }
  }

  /** The corrected table changes nothing but the names "Gb" and "Cb". */
  lemma ParseAgreesOffFlatOfG(name: string)
    ensures NameSplit(name).Panic? || NameSplit(name).value.0 !in {"Gb", "Cb"} ==>
              Parse(name) == ParseAsWritten(name)
  {
    if NameSplit(name).Ok? {
      var note := NameSplit(name).value.0;
      if note !in {"Gb", "Cb"} {
        assert forall j :: 0 <= j < |SEMITONES| && j != 9 ==> SEMITONES[j] == SEMITONES_AS_WRITTEN[j];
        LookupAgree(SEMITONES, SEMITONES_AS_WRITTEN, note, 0);
      }
    }
  }

  lemma ParseSingleDigit(d: char)
    requires IsDigit(d)
    ensures ParseI8([d]) == Some(d as int - '0' as int)
  {
    assert [d][..0] == [];
    assert DigitsValue([d]) == d as int - '0' as int;
    assert AllDigits([d]);
  }

  lemma ParseI8RejectsLeadingSymbol(s: string)
    requires |s| > 0 && s[0] != '-' && s[0] != '+' && !IsDigit(s[0])
    ensures ParseI8(s) == None
  {
    assert !AllDigits(s);
  }

  /** Formatting any table name followed by one octave digit and parsing it
      back yields `12 * (octave + 1) + semitone`, with the semitone of the
      first row of that name, whenever that fits in an `i8`, and an overflow
      panic otherwise (from "G#9" upwards). */
  lemma ParseNameAndDigit(table: seq<(string, nat)>, i: nat, d: char)
    requires forall k :: 0 <= k < |table| ==> table[k].1 < 12
    requires i < |table| && 1 <= |table[i].0| <= 2 && Ascii(table[i].0)
    requires IsDigit(d)
    ensures Lookup(table, table[i].0).Some?
    ensures var midi := 12 * (d as int - '0' as int + 1) + Lookup(table, table[i].0).value;
      ParseWith(table, table[i].0 + [d]) == if midi <= 127 then Ok(Some(midi)) else Panic
  {
    var nm := table[i].0;
    var name := nm + [d];
    assert Ascii(name);
    AsciiNameSplit(name);
    assert name[..|nm|] == nm && name[|nm|..] == [d];
    ParseSingleDigit(d);
    LookupFromFindsFirstRow(table, nm, 0);
  }

  /** Every pitch class has a name in the table, and each sharp shares its
      semitone with the flat spelling of the next letter. */
  lemma EnharmonicSpellings()
    ensures Lookup(SEMITONES, "C#") == Lookup(SEMITONES, "Db") == Some(1)
    ensures Lookup(SEMITONES, "D#") == Lookup(SEMITONES, "Eb") == Some(3)
    ensures Lookup(SEMITONES, "F#") == Lookup(SEMITONES, "Gb") == Some(6)
    ensures Lookup(SEMITONES, "G#") == Lookup(SEMITONES, "Ab") == Some(8)
    ensures Lookup(SEMITONES, "A#") == Lookup(SEMITONES, "Bb") == Some(10)
  {
    assert LookupFrom(SEMITONES, "C#", 1) == Some(1);
    assert LookupFrom(SEMITONES, "Db", 2) == Some(1);
    assert LookupFrom(SEMITONES, "Db", 1) == Some(1);
    assert LookupFrom(SEMITONES, "D#", 4) == Some(3);
    assert LookupFrom(SEMITONES, "D#", 3) == Some(3);
    assert LookupFrom(SEMITONES, "D#", 2) == Some(3);
    assert LookupFrom(SEMITONES, "D#", 1) == Some(3);
    assert LookupFrom(SEMITONES, "Eb", 5) == Some(3);
    assert LookupFrom(SEMITONES, "Eb", 4) == Some(3);
    assert LookupFrom(SEMITONES, "Eb", 3) == Some(3);
    assert LookupFrom(SEMITONES, "Eb", 2) == Some(3);
    assert LookupFrom(SEMITONES, "Eb", 1) == Some(3);
    assert LookupFrom(SEMITONES, "F#", 8) == Some(6);
    assert LookupFrom(SEMITONES, "F#", 7) == Some(6);
    assert LookupFrom(SEMITONES, "F#", 6) == Some(6);
    assert LookupFrom(SEMITONES, "F#", 5) == Some(6);
    assert LookupFrom(SEMITONES, "F#", 4) == Some(6);
    assert LookupFrom(SEMITONES, "F#", 3) == Some(6);
    assert LookupFrom(SEMITONES, "F#", 2) == Some(6);
    assert LookupFrom(SEMITONES, "F#", 1) == Some(6);
    assert LookupFrom(SEMITONES, "Gb", 9) == Some(6);
    assert LookupFrom(SEMITONES, "Gb", 8) == Some(6);
    assert LookupFrom(SEMITONES, "Gb", 7) == Some(6);
    assert LookupFrom(SEMITONES, "Gb", 6) == Some(6);
    assert LookupFrom(SEMITONES, "Gb", 5) == Some(6);
    assert LookupFrom(SEMITONES, "Gb", 4) == Some(6);
    assert LookupFrom(SEMITONES, "Gb", 3) == Some(6);
    assert LookupFrom(SEMITONES, "Gb", 2) == Some(6);
    assert LookupFrom(SEMITONES, "Gb", 1) == Some(6);
    assert LookupFrom(SEMITONES, "G#", 11) == Some(8);
    assert LookupFrom(SEMITONES, "G#", 10) == Some(8);
    assert LookupFrom(SEMITONES, "G#", 9) == Some(8);
    assert LookupFrom(SEMITONES, "G#", 8) == Some(8);
    assert LookupFrom(SEMITONES, "G#", 7) == Some(8);
    assert LookupFrom(SEMITONES, "G#", 6) == Some(8);
    assert LookupFrom(SEMITONES, "G#", 5) == Some(8);
    assert LookupFrom(SEMITONES, "G#", 4) == Some(8);
    assert LookupFrom(SEMITONES, "G#", 3) == Some(8);
    assert LookupFrom(SEMITONES, "G#", 2) == Some(8);
    assert LookupFrom(SEMITONES, "G#", 1) == Some(8);
    assert LookupFrom(SEMITONES, "Ab", 12) == Some(8);
    assert LookupFrom(SEMITONES, "Ab", 11) == Some(8);
    assert LookupFrom(SEMITONES, "Ab", 10) == Some(8);
    assert LookupFrom(SEMITONES, "Ab", 9) == Some(8);
    assert LookupFrom(SEMITONES, "Ab", 8) == Some(8);
    assert LookupFrom(SEMITONES, "Ab", 7) == Some(8);
    assert LookupFrom(SEMITONES, "Ab", 6) == Some(8);
    assert LookupFrom(SEMITONES, "Ab", 5) == Some(8);
    assert LookupFrom(SEMITONES, "Ab", 4) == Some(8);
    assert LookupFrom(SEMITONES, "Ab", 3) == Some(8);
    assert LookupFrom(SEMITONES, "Ab", 2) == Some(8);
    assert LookupFrom(SEMITONES, "Ab", 1) == Some(8);
    assert LookupFrom(SEMITONES, "A#", 14) == Some(10);
    assert LookupFrom(SEMITONES, "A#", 13) == Some(10);
    assert LookupFrom(SEMITONES, "A#", 12) == Some(10);
    assert LookupFrom(SEMITONES, "A#", 11) == Some(10);
    assert LookupFrom(SEMITONES, "A#", 10) == Some(10);
    assert LookupFrom(SEMITONES, "A#", 9) == Some(10);
    assert LookupFrom(SEMITONES, "A#", 8) == Some(10);
    assert LookupFrom(SEMITONES, "A#", 7) == Some(10);
    assert LookupFrom(SEMITONES, "A#", 6) == Some(10);
    assert LookupFrom(SEMITONES, "A#", 5) == Some(10);
    assert LookupFrom(SEMITONES, "A#", 4) == Some(10);
    assert LookupFrom(SEMITONES, "A#", 3) == Some(10);
    assert LookupFrom(SEMITONES, "A#", 2) == Some(10);
    assert LookupFrom(SEMITONES, "A#", 1) == Some(10);
    assert LookupFrom(SEMITONES, "Bb", 15) == Some(10);
    assert LookupFrom(SEMITONES, "Bb", 14) == Some(10);
    assert LookupFrom(SEMITONES, "Bb", 13) == Some(10);
    assert LookupFrom(SEMITONES, "Bb", 12) == Some(10);
    assert LookupFrom(SEMITONES, "Bb", 11) == Some(10);
    assert LookupFrom(SEMITONES, "Bb", 10) == Some(10);
    assert LookupFrom(SEMITONES, "Bb", 9) == Some(10);
    assert LookupFrom(SEMITONES, "Bb", 8) == Some(10);
    assert LookupFrom(SEMITONES, "Bb", 7) == Some(10);
    assert LookupFrom(SEMITONES, "Bb", 6) == Some(10);
    assert LookupFrom(SEMITONES, "Bb", 5) == Some(10);
    assert LookupFrom(SEMITONES, "Bb", 4) == Some(10);
    assert LookupFrom(SEMITONES, "Bb", 3) == Some(10);
    assert LookupFrom(SEMITONES, "Bb", 2) == Some(10);
    assert LookupFrom(SEMITONES, "Bb", 1) == Some(10);
  }

  /** As written, "Gb" is not recognised and "Cb", which names the pitch of
      B, parses to the pitch of F#. */
  lemma AsWrittenFlatOfG()
    ensures Lookup(SEMITONES_AS_WRITTEN, "Gb") == None
    ensures Lookup(SEMITONES_AS_WRITTEN, "Cb") == Some(6) == Lookup(SEMITONES_AS_WRITTEN, "F#")
    ensures ParseAsWritten("Gb4") == Ok(None)
    ensures ParseAsWritten("Cb4") == ParseAsWritten("F#4") == Ok(Some(66))
  {
    GbMissingAsWritten();
    CbAndFsAsWritten();
    GbRejectedAsWritten();
    CbParsesAsWritten();
    FsParsesAsWritten();
  }

  lemma CbAndFsAsWritten()
    ensures Lookup(SEMITONES_AS_WRITTEN, "Cb") == Some(6) == Lookup(SEMITONES_AS_WRITTEN, "F#")
  {
    assert LookupFrom(SEMITONES_AS_WRITTEN, "Cb", 9) == Some(6);
    assert LookupFrom(SEMITONES_AS_WRITTEN, "Cb", 8) == Some(6);
    assert LookupFrom(SEMITONES_AS_WRITTEN, "Cb", 7) == Some(6);
    assert LookupFrom(SEMITONES_AS_WRITTEN, "Cb", 6) == Some(6);
    assert LookupFrom(SEMITONES_AS_WRITTEN, "Cb", 5) == Some(6);
    assert LookupFrom(SEMITONES_AS_WRITTEN, "Cb", 4) == Some(6);
    assert LookupFrom(SEMITONES_AS_WRITTEN, "Cb", 3) == Some(6);
    assert LookupFrom(SEMITONES_AS_WRITTEN, "Cb", 2) == Some(6);
    assert LookupFrom(SEMITONES_AS_WRITTEN, "Cb", 1) == Some(6);
    assert LookupFrom(SEMITONES_AS_WRITTEN, "F#", 8) == Some(6);
    assert LookupFrom(SEMITONES_AS_WRITTEN, "F#", 7) == Some(6);
    assert LookupFrom(SEMITONES_AS_WRITTEN, "F#", 6) == Some(6);
    assert LookupFrom(SEMITONES_AS_WRITTEN, "F#", 5) == Some(6);
    assert LookupFrom(SEMITONES_AS_WRITTEN, "F#", 4) == Some(6);
    assert LookupFrom(SEMITONES_AS_WRITTEN, "F#", 3) == Some(6);
    assert LookupFrom(SEMITONES_AS_WRITTEN, "F#", 2) == Some(6);
    assert LookupFrom(SEMITONES_AS_WRITTEN, "F#", 1) == Some(6);
  }

  lemma GbRejectedAsWritten()
    ensures ParseAsWritten("Gb4") == Ok(None)
  {
    AsciiNameSplit("Gb4");
    assert "Gb4"[..2] == "Gb";
  }

  lemma CbParsesAsWritten()
    ensures ParseAsWritten("Cb4") == Ok(Some(66))
  {
    CbAndFsAsWritten();
    assert SEMITONES_AS_WRITTEN[9].0 + ['4'] == "Cb4";
    ParseNameAndDigit(SEMITONES_AS_WRITTEN, 9, '4');
  }

  lemma FsParsesAsWritten()
    ensures ParseAsWritten("F#4") == Ok(Some(66))
  {
    CbAndFsAsWritten();
    assert SEMITONES_AS_WRITTEN[8].0 + ['4'] == "F#4";
    ParseNameAndDigit(SEMITONES_AS_WRITTEN, 8, '4');
  }

  /** With the "Gb" row, "Gb4" parses to the same note as "F#4". */
  lemma FlatOfGParses()
    ensures Parse("Gb4") == Parse("F#4") == Ok(Some(66))
  {
    GbParses();
    FsParses();
  }

  lemma GbParses()
    ensures Parse("Gb4") == Ok(Some(66))
  {
    assert Lookup(SEMITONES, "Gb") == Some(6) by { EnharmonicSpellings(); }
    assert SEMITONES[9].0 + ['4'] == "Gb4";
    ParseNameAndDigit(SEMITONES, 9, '4');
  }

  lemma FsParses()
    ensures Parse("F#4") == Ok(Some(66))
  {
    assert Lookup(SEMITONES, "F#") == Some(6) by { EnharmonicSpellings(); }
    assert SEMITONES[8].0 + ['4'] == "F#4";
    ParseNameAndDigit(SEMITONES, 8, '4');
  }

  /** Edge cases of the split: a bare letter is octave 0, a two-character
      name splits after one character so "C#" reads as C with an unparsable
      octave, and a three-character name always takes two characters as the
      note, so "C-1" is rejected. */
  lemma SplitQuirks()
    ensures Parse("A") == Ok(Some(21))
    ensures Parse("C#") == Ok(Some(12))
    ensures Parse("C-1") == Ok(None)
    ensures Parse("") == Panic
  {
    BareLetterIsOctaveZero();
    SharpWithoutOctave();
    ThreeCharactersTakeTwo();
  }

  lemma BareLetterIsOctaveZero()
    ensures Parse("A") == Ok(Some(21))
  {
    assert LookupFrom(SEMITONES, "A", 13) == Some(9);
    assert LookupFrom(SEMITONES, "A", 12) == Some(9);
    assert LookupFrom(SEMITONES, "A", 11) == Some(9);
    assert LookupFrom(SEMITONES, "A", 10) == Some(9);
    assert LookupFrom(SEMITONES, "A", 9) == Some(9);
    assert LookupFrom(SEMITONES, "A", 8) == Some(9);
    assert LookupFrom(SEMITONES, "A", 7) == Some(9);
    assert LookupFrom(SEMITONES, "A", 6) == Some(9);
    assert LookupFrom(SEMITONES, "A", 5) == Some(9);
    assert LookupFrom(SEMITONES, "A", 4) == Some(9);
    assert LookupFrom(SEMITONES, "A", 3) == Some(9);
    assert LookupFrom(SEMITONES, "A", 2) == Some(9);
    assert LookupFrom(SEMITONES, "A", 1) == Some(9);
    AsciiNameSplit("A");
    assert "A"[..1] == "A" && "A"[1..] == "";
  }

  lemma SharpWithoutOctave()
    ensures Parse("C#") == Ok(Some(12))
  {
    AsciiNameSplit("C#");
    assert "C#"[..1] == "C" && "C#"[1..] == "#";
    ParseI8RejectsLeadingSymbol("#");
  }

  lemma ThreeCharactersTakeTwo()
    ensures Parse("C-1") == Ok(None)
  {
    assert LookupFrom(SEMITONES, "C-", 17) == None;
    assert LookupFrom(SEMITONES, "C-", 16) == None;
    assert LookupFrom(SEMITONES, "C-", 15) == None;
    assert LookupFrom(SEMITONES, "C-", 14) == None;
    assert LookupFrom(SEMITONES, "C-", 13) == None;
    assert LookupFrom(SEMITONES, "C-", 12) == None;
    assert LookupFrom(SEMITONES, "C-", 11) == None;
    assert LookupFrom(SEMITONES, "C-", 10) == None;
    assert LookupFrom(SEMITONES, "C-", 9) == None;
    assert LookupFrom(SEMITONES, "C-", 8) == None;
    assert LookupFrom(SEMITONES, "C-", 7) == None;
    assert LookupFrom(SEMITONES, "C-", 6) == None;
    assert LookupFrom(SEMITONES, "C-", 5) == None;
    assert LookupFrom(SEMITONES, "C-", 4) == None;
    assert LookupFrom(SEMITONES, "C-", 3) == None;
    assert LookupFrom(SEMITONES, "C-", 2) == None;
    assert LookupFrom(SEMITONES, "C-", 1) == None;
    AsciiNameSplit("C-1");
    assert "C-1"[..2] == "C-";
  }

  /** Lengths are bytes, not characters: "A\U{E9}" is three bytes, so the
      split lands at byte 2, inside the two-byte "\U{E9}", and panics;
      "C\U{266F}4" is five bytes, so it splits after "C" and the unparsable
      rest leaves octave 0. */
  lemma SplitCountsBytes()
    ensures Parse("A\U{E9}") == Panic
    ensures Parse("C\U{266F}4") == Ok(Some(12))
  {
    assert ByteLen("A\U{E9}") == 3;
    assert CharsInBytes("\U{E9}", 1) == None;
    assert NameSplit("A\U{E9}") == Panic;
    var name := "C\U{266F}4";
    assert ByteLen(name) == 5;
    assert CharsInBytes(name[1..], 0) == Some(0);
    assert CharsInBytes(name, 1) == Some(1);
    assert name[..1] == "C" && name[1..] == "\U{266F}4";
    assert NameSplit(name) == Ok(("C", "\U{266F}4"));
    ParseI8RejectsLeadingSymbol("\U{266F}4");
    assert LookupFrom(SEMITONES, "C", 0) == Some(0);
  }
}
