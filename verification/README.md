# scram analysis core, in Dafny

scram is a real-time audio spectrum visualiser. Stereo samples arrive from the
audio callback in chunks. A sliding window assembles them into fixed-size
blocks. For every block, the `Processor` runs this pipeline on each channel:

1. de-interleave the block and apply a taper window;
2. run a real FFT;
3. turn the packed spectrum into bin magnitudes;
4. fold the bins into bands on a linear, logarithmic, mel or Bark scale;
5. smooth the bands across frequency;
6. map them to a display level;
7. drive each displayed bar through attack, decay and peak-hold ballistics.

The results travel to the render thread through a one-cell mailbox. The
repository has two trees: an older `src/` tree and a newer `crates/` tree.
Where both define a stage, both variants are modelled and related.

This project models that core as immutable datatypes over `seq<real>` with
pure functions, and proves properties of it:

* **Capture.** The sliding sample window and the three `read_samples`
  implementations are in `sample_window.dfy`, `capture.dfy` and
  `synth.dfy`.
* **Mailbox.** The `Slot` / `Queue` result mailbox is in `background.dfy`.
* **Processor.** The `Processor` (construction, `set_bands`, `update`,
  `process_samples`, `current_frequencies`) is in `processor.dfy`.
* **Pipeline stages.** Each stage is a standalone function:
  * `preprocess.dfy`;
  * `magnitudes.dfy`;
  * `bands.dfy`;
  * `band_smoothing.dfy`;
  * `scaling.dfy`;
  * `peak_smoothing.dfy`.
* **Configuration.** The records of both trees and their defaults are in
  `config.dfy`.
* **Note names.** `Note::parse` of the synthetic source is in `synth.dfy`.
* **Colour blends.** The integer blends on RGBA bytes, and `Direction`, are
  in `colors.dfy`.

Some parts stay abstract:

* **Numbers.** `f32` values are exact reals. Integer widths are written out
  where they matter: `usize` saturation, `u16` and `i8` overflow, and `as u8`
  truncation.
* **Panics.** A Rust panic (a slice out of range, an unsigned underflow, a
  debug-build overflow) is either a `Panic` outcome of `Common.Checked` or,
  where the caller must rule it out, a precondition.
* **Library functions.** `sqrt`, `log10`, `ln`, `powf` and `sinh` are the
  parameter record `Transcendentals.Functions`. The facts a property needs
  about them are named predicates, taken as preconditions. Examples:
  `powf(10, log10 x) == x`, and `sinh` being increasing.
* **Window tapers and the FFT.** These are function-valued parameters.
* **Instants.** An `Instant` is a real number of seconds. `duration_since`
  saturates at zero.

## Model

| member | source | states |
|---|---|---|
| SampleWindow.Push | crates/scram_capture/src/lib.rs:19-25 | One push leaves `min(len + k, S)` samples, and the whole chunk is the buffer's suffix in order. A chunk longer than `S` is a precondition, because `drain(..delta)` would run past the end and panic. |
| SampleWindow.PushKeepsTail | crates/scram_capture/src/lib.rs:19-25 | The new buffer is a suffix of old buffer ++ chunk, so only the oldest samples are ever dropped. |
| SampleWindow.Block | crates/scram_capture/src/lib.rs:27-32 | A block is handed out exactly when the buffer holds `S` samples, and it is the buffer's contents in order. |
| SampleWindow.PushLast | crates/scram_capture/src/lib.rs:19-25 | Pushing onto the trailing `S`-window of a stream gives the trailing `S`-window of the extended stream. |
| SampleWindow.PushAllIsTrailingWindow | crates/scram_capture/src/lib.rs:15-33 | From an empty buffer, after any sequence of chunks, the buffer is the last `min(total, S)` samples of everything received. |
| SampleWindow.ExactFillYieldsConcatenation | crates/scram_capture/src/lib.rs:19-31 | Chunks that add up to exactly `S` samples yield one block, equal to their concatenation. |
| Capture.ReadSamples | crates/scram_capture/src/lib.rs:15-33 | A failed `recv` gives `None` and an unchanged buffer. Otherwise: the new length is `min(len + k, S)`; the buffer is the tail of old ++ chunk; the chunk is its verbatim suffix; a block is returned iff the length is `S`, and it equals the buffer. |
| Capture.ReadSamplesFixed | src/capture.rs:38-58 | The same, with `S = 4096` and a non-blocking receive: no pending chunk gives `None` and an unchanged buffer. A length of at most 4096 is preserved, and a returned block has exactly 4096 samples. |
| Capture.DropsOnlyOldest | src/capture.rs:43-49 | Exactly `max(0, len + k - S)` samples are dropped, all from the front, and then the chunk is appended. |
| Capture.BlockIsLatestSamples | crates/scram_capture/src/lib.rs:19-30 | Feeding chunks to a fresh buffer leaves the last `S` samples of all chunks, in arrival order. |
| Capture.Feed | crates/scram_capture/src/lib.rs:19-30 | Feeding chunks in turn keeps a bounded buffer bounded, and the last chunk is always the buffer's verbatim suffix. |
| Synth.ReadSamples | src/synth.rs:47-60 | Each call takes the next `S / 4` source samples, which become the buffer's suffix. The length becomes `min(len + S/4, S)`. A block is returned iff the length is `S`, and it is the buffer. |
| Synth.RunPosition | src/synth.rs:48-54 | After `c` calls exactly `c * (S / 4)` source samples have been consumed. |
| Synth.RunIsTrailingWindow | src/synth.rs:50-54 | After `c` calls the buffer is the last `min(c * (S/4), S)` samples of the source. |
| Synth.RunLength | src/synth.rs:50-58 | Call `c` returns a block exactly when `c * (S/4) >= S`. |
| Synth.FirstBlockArrival | src/synth.rs:48-58 | For `S >= 4`, call `c` returns a block iff `c >= ceil(S / (S/4))`. The first block therefore arrives on that call, and every later call returns one too. |
| Synth.CeilingDivision | src/synth.rs:48-58 | `c * w >= s` iff `c >= ceil(s / w)`: the arrival count above is a ceiling. |
| Synth.TinyBlockNeverFills | src/synth.rs:48-54 | For `0 < S < 4` the window is zero samples, so no call ever returns a block. |
| Synth.LookupFromFindsFirstRow | src/synth.rs:131-133 | The table scan finds a name iff some row carries it, and then it returns the semitone of the first such row. |
| Synth.ParseI8 | src/synth.rs:129 | `str::parse::<i8>`: an optional sign and at least one digit, with a value in `[-128, 127]`. The empty string is rejected. |
| Synth.ByteLen | src/synth.rs:128 | The UTF-8 length of a string is at least its character count. |
| Synth.CharsInBytes | src/synth.rs:128 | Finds the character count whose prefix is exactly `k` bytes, or reports that no prefix is, so `k` is not a character boundary. |
| Synth.SplitAtByte | src/synth.rs:128 | `str::split_at`: on success the halves concatenate to the string and the first is `mid` bytes long. It panics exactly when no prefix is `mid` bytes long. |
| Synth.NameSplit | src/synth.rs:128 | The empty name panics. A split gives the note and octave parts, which concatenate to the name, and the note part is 2 bytes for a 3-byte name and 1 byte otherwise. |
| Synth.OctaveOf | src/synth.rs:129 | The octave is the parsed `i8` when the rest parses, and otherwise 0. |
| Synth.AsciiNameSplit | src/synth.rs:128 | On an ASCII name, bytes are characters: the split is at character 2 for three characters, otherwise at character 1, and never panics on a non-empty name. |
| Synth.ParseWith | src/synth.rs:107-141 | `Note::parse` over a table. The name is split at byte 2 if it is three bytes long, otherwise at byte 1. A split past the end (the empty name) or inside a character panics. A note part missing from the table gives `None`. Otherwise the result is `12 * (octave + 1) + semitone` of the first matching row, with octave 0 when the rest does not parse. It panics on `i8` overflow and gives `None` when negative. A success lies in `[0, 127]` and decodes back to that semitone (`% 12`) and octave (`/ 12 - 1`). |
| Synth.ParseSingleDigit | src/synth.rs:129 | One decimal digit parses to its value. |
| Synth.ParseI8RejectsLeadingSymbol | src/synth.rs:129 | A suffix starting with anything other than a sign or digit does not parse, so the octave defaults to 0. |
| Synth.ParseNameAndDigit | src/synth.rs:128-140 | An ASCII table name of one or two characters followed by one digit parses to `12 * (d + 1) + semitone`. It panics with `i8` overflow when that exceeds 127. |
| Synth.ParseAsWritten | src/synth.rs:107-141 | `Note::parse` with the table as written: a name whose note part is "Gb" gives `None` at every octave. |
| Synth.Parse | src/synth.rs:107-141 | `Note::parse` with the "Gb" row: a parsed name whose note part is "Gb" has pitch class 6, that of F#. |
| Synth.LookupAgree | src/synth.rs:131-133 | Two tables that differ only in rows not carrying a name find the same semitone for it. |
| Synth.ParseAgreesOffFlatOfG | src/synth.rs:107-141 | The corrected parse equals the as-written parse on every name whose note part is neither "Gb" nor "Cb". |
| Synth.EnharmonicSpellings | src/synth.rs:108-126 | In the table with the "Gb" row, each sharp and the flat of the next letter share a semitone: C#/Db, D#/Eb, F#/Gb, G#/Ab, A#/Bb. |
| Synth.AsWrittenFlatOfG | src/synth.rs:108-133 | As written, "Gb" is unknown, so "Gb4" gives `None`. "Cb" maps to semitone 6, so "Cb4" parses to the same note as "F#4". |
| Synth.FlatOfGParses | src/synth.rs:108-140 | With the "Gb" row, "Gb4" and "F#4" both parse to note 66. |
| Synth.SplitQuirks | src/synth.rs:128-133 | The split behaves as follows:<br>• a bare letter is octave 0 ("A" is 21);<br>• "C#" splits after one character and reads as octave-0 C;<br>• "C-1" takes "C-" as its note and is rejected;<br>• the empty name panics. |
| Synth.SplitCountsBytes | src/synth.rs:128 | The split counts bytes: "A\u{e9}" is three bytes, so the split falls inside "\u{e9}" and panics. "C\u{266f}4" is five bytes, so it splits after "C" and reads as octave-0 C, note 12. |
| Background.Empty | crates/scram_process/src/background.rs:7-8 | A default slot holds nothing. |
| Background.Put | crates/scram_process/src/background.rs:15-17 | `put` replaces the content unconditionally. |
| Background.Take | crates/scram_process/src/background.rs:11-13 | A contended `take` returns `None`. An uncontended one returns the content, which is `None` when empty. |
| Background.EmptyHasNothing | src/lib.rs:14-20 | A default `Queue` has nothing to take. |
| Background.PutThenTake | src/lib.rs:18-24 | After `put(x)`, an uncontended `take` returns exactly `x`. |
| Background.LastPutWins | src/lib.rs:22-24 | Of two puts only the last is observable: the earlier one is discarded, never queued. |
| Background.TakesAgree | src/lib.rs:18-20 | Take does not consume: any successful take returns what an uncontended take returns, namely the content. |
| Processor.NewAsWritten | src/process.rs:47-70 | `new` records the config, the sample rate and the clock. Both channels are equal. Their FFT input holds 2048 zeros and their magnitude buffer 2049 zeros. Their band, smoothed and bar sequences are empty. |
| Processor.New | src/process.rs:47-70 | The same constructor with the magnitude buffer sized to the 1025 bins the spectrum has. Both buffers are zero-filled. |
| Processor.SetBands | src/process.rs:86-99 | Both channels get `n` entries in all three band sequences. The config, sample rate, clock and FFT buffers are unchanged. |
| Processor.ResizeChannel | src/process.rs:93-98 | For one channel: the first `min(old, n)` band magnitudes are kept and the rest zero-filled. Every smoothed value is 0. Every bar is silent and stamped now. The FFT buffers are untouched. |
| Processor.SetBandsShowsSilence | src/process.rs:97-104 | Right after `set_bands(n)`, `current_frequencies` shows `n` bars per channel, each with value 0 and peak 0. |
| Processor.CurrentFrequencies | src/process.rs:102-104 | `current_frequencies` returns the left and right bar sequences. |
| Processor.SetBandsIdempotent | src/process.rs:86-99 | Setting the same band count twice is the same as setting it once. |
| Processor.ShrinkThenGrow | src/process.rs:94 | `band_magnitudes` is only resized. Shrinking to `k` and growing back to `n` keeps its first `k` entries and zero-fills the rest up to `n`. |
| Processor.Clock | src/process.rs:108-110 | `dt` is the non-negative time since the last update. It is exactly `current - last` when time has not gone backwards, and the new last update is `current`. |
| Processor.ProcessChannel | src/process.rs:118-131 | One channel after its FFT, with the spectrum as input. The stages run in order: magnitudes, bands, band smoothing, scaling, peak smoothing. The frame panics exactly when banding or band smoothing panics. On success the magnitude buffer is the spectrum's bin magnitudes, and the smoothed state is band smoothing of this frame's bands. The band magnitudes are the logarithmic levels of the smoothed state. The bars are peak smoothing of the old bars towards those levels at the frame's instant and `dt`. Every sequence keeps its length, and every bar that has a band ends with value and peak in `[0, 1]`. |
| Processor.ProcessSamples | src/process.rs:107-134 | The block's even samples, tapered, go through the left FFT, and its odd samples through the right. Each channel is then exactly `ProcessChannel` of its own spectrum, at the frame's instant, with `dt` = the saturating time since the last update. So its magnitudes, bands, smoothed state, levels and bars all come from this frame's audio. The frame panics iff either channel does. A frame keeps the config, sample rate, buffer sizes and band alignment, and it stamps the last update with the frame's instant. |
| Processor.Update | src/process.rs:73-80 | A missing block leaves the processor unchanged, whatever its config. A present block gives exactly `process_samples` of that block. Both channels' FFT inputs are the routed spectra and both channels' bars are smoothed with the time since the previous update. The config is kept and the last update is stamped with the frame's instant. |
| Processor.NextFrameSeesThisFrame | src/process.rs:108-110 | Of two frames at `t <= t'`, the second smooths the bars the first left, over exactly `t' - t` seconds. |
| Processor.ChannelNeverPanics | src/process.rs:118-131 | With one entry per band, a valid cutoff and well-behaved library functions, no stage panics and the channel stays aligned. |
| Processor.FramesNeverPanic | src/process.rs:107-134 | After `set_bands` (each channel aligned, with one band per bar), a frame never panics. This is given a positive sample rate, a cutoff with `0 < low < high`, and well-behaved library functions (`Transcendentals.Standard`). With a zero low cutoff the logarithmic scale does panic (`Bands.AggregateBands`). |
| Processor.SilentChannelStaysAtRest | src/process.rs:115-131 | A zero spectrum, on a channel whose smoothing state is zero and whose bars are at rest, leaves every bar exactly as it was. |
| Processor.SilenceLeavesBarsAtRest | src/process.rs:107-134 | A block of digital silence leaves `current_frequencies` unchanged. The hypotheses are: every bar at rest; a zero smoothed state (with a non-zero `smoothed[0]`, exponential smoothing moves the bars even on silence); the 1025-entry magnitude buffer of the corrected `Processor.New`; an FFT and a `sqrt` that map zero to zero; `0 < low < high`; and aligned channels. |
| Processor.StaleUpperBins | src/process.rs:29 | As written, magnitude entries 1025..2048 of a new processor are still 0 after a frame. The `hz_per` used by banding satisfies `hz_per * 2048 == sample_rate / 2`, which is half the true bin spacing. |
| Processor.BinsMatchSpectrum | src/process.rs:118-119 | With the buffer sized to the spectrum, every magnitude entry after a frame is the bin magnitude of that frame's spectrum. |
| Processor.BinSpacing | src/process/bands.rs:9-11 | With the buffer sized to the spectrum, the bin spacing banding uses is `sample_rate / 2048` Hz, the true spacing of a 2048-point FFT. |
| Preprocess.Taper | src/process/preprocess.rs:29-33 | The window function is chosen by variant: Hann, Hamming or Blackman. |
| Preprocess.Split | src/process.rs:137-150 | Both FFT inputs are written in full, with `|block| / 2` entries each, whatever they held before. |
| Preprocess.SplitAt | src/process/preprocess.rs:35-40 | `left[i] = s[2i] * w(i)` and `right[i] = s[2i+1] * w(i)`: the same factor on both sides of pair `i`. |
| Preprocess.Interleave | src/process/preprocess.rs:35-40 | The reference inverse of the split: it places `left[i]` at `2i` and `right[i]` at `2i+1`. |
| Preprocess.SplitRoundTrip | src/process/preprocess.rs:35-40 | With a unit taper, interleaving the two channels gives back the block. |
| Preprocess.InterleaveRoundTrip | src/process/preprocess.rs:35-40 | With a unit taper, splitting an interleaved block recovers both channels. |
| Preprocess.SilenceStaysSilent | src/process/preprocess.rs:35-40 | A silent block splits into two silent channels under every taper. |
| Magnitudes.CalculateMagnitudes | src/process/magnitudes.rs:2-12 | Bin 0 is `abs(raw[0])`. Bin `n/2` is `abs(raw[n-1])`. Bin `k` in between is the modulus of the pair `(raw[2k-1], raw[2k])`. Entries past `n/2` are untouched. At least two inputs and room for every bin are required, as `bins - 2` and the last write demand. |
| Magnitudes.WrittenBinsNonNegative | src/process/magnitudes.rs:6-11 | Every written bin is non-negative. |
| Magnitudes.EachValueFeedsOneBin | src/process/magnitudes.rs:6-11 | Each packed value feeds exactly one bin: changing it changes no other output entry. |
| Magnitudes.EnergyStaysInItsBin | src/process/magnitudes.rs:6-11 | A spectrum whose only energy is in bin `k`'s components has zero magnitude in every other bin. |
| Bands.HzPer | src/process/bands.rs:9-11 | `hz_per` times `num_bins - 1` is the Nyquist frequency, and it is positive for a positive sample rate. |
| Bands.BinningOpts | src/process/bands.rs:9-19 | The options carry the cutoff as `min_freq`/`max_freq`, the bin and band counts, and a `hz_per` with `hz_per * (num_bins - 1)` equal to the Nyquist frequency. |
| Bands.ApplySample | src/process/bands.rs:29-37 | The bin range is `[max(floor start, 1) min total, ceil end min total)`. The band is the range's sum divided by the total bin count, or 0 when the range is empty. An end below the start panics. |
| Bands.ApplySampleIgnoresDc | src/process/bands.rs:30 | Bin 0 (DC) never contributes to any band. |
| Bands.ApplySampleNonNegative | src/process/bands.rs:33-36 | Non-negative bins give a non-negative band. |
| Bands.ApplySampleOkWhenOrdered | src/process/bands.rs:30-34 | Ordered edges never make the range subtraction panic. |
| Bands.WriteBands | src/process/bands.rs:7 | The band buffer is zero-filled, then band `i` is written. Entries past the band count stay zero. Any panicking band panics the whole call. |
| Bands.Aggregate | src/process/bands.rs:21-72 | The logarithmic scale with a zero low cutoff panics: its edges are NaN, cast to bin 0, below the start bin 1. Otherwise every band is `apply_sample` of its own scale's edges, the rest of the buffer is zero, and it succeeds iff every band does. |
| Bands.AggregateBands | src/process/bands.rs:6-27 | `aggregate_bands` builds the options from the bin count, sample rate and cutoff, then dispatches on the scale. With no bands the buffer is zeroed. A zero low cutoff is accepted: on the logarithmic scale with at least one band it panics. |
| Bands.BandsAreContiguous | src/process/bands.rs:53-54 | Band `i` ends exactly where band `i + 1` starts, on every scale. |
| Bands.LinearEdgesAreUnitSteps | src/process/bands.rs:48-58 | Linear edges are `min_freq / hz_per + i`, one bin apart, and independent of `max_freq`. |
| Bands.LinearBandSpansAtMostTwoBins | src/process/bands.rs:48-58 | A linear band covers at most two bins. |
| Bands.MelRoundTrip | src/process/bands.rs:76-77 | `mel_to_hz` undoes `hz_to_mel` on positive frequencies. |
| Bands.BarkRoundTrip | src/process/bands.rs:96-97 | `bark_to_hz` undoes `hz_to_bark`. |
| Bands.LogSpan | src/process/bands.rs:61-72 | The logarithmic edges start at the low cutoff and end at the high cutoff. |
| Bands.MelSpan | src/process/bands.rs:75-92 | The mel edges start at the low cutoff and end at the high cutoff. |
| Bands.BarkSpan | src/process/bands.rs:95-112 | The Bark edges start at the low cutoff and end at the high cutoff. |
| Bands.BandsSpanCutoff | src/process/bands.rs:61-112 | On the logarithmic, mel and Bark scales, the first band starts at `low / hz_per` and the last ends at `high / hz_per`. |
| Bands.EdgesIncrease | src/process/bands.rs:48-112 | Edges are positive and strictly increase with the band index on every scale. This needs `0 < low < high` and increasing scale maps. |
| Bands.BandEdgesIncrease | src/process/bands.rs:48-112 | Every band's bin-unit start is positive and below its end. |
| Bands.AggregateNeverPanics | src/process/bands.rs:6-112 | With a valid cutoff and room for every band, aggregation never panics. Non-negative bins give non-negative bands. |
| Bands.LinearNeverPanics | src/process/bands.rs:48-58 | On the linear scale, any non-negative low cutoff (zero included), with room for every band, never panics. |
| Bands.SilenceAggregatesToSilence | src/process/bands.rs:6-112 | A silent spectrum aggregates to all-zero bands. |
| BandSmoothing.ExponentialPass | crates/scram_process/src/band_smoothing.rs:16-21 | The in-place loop equals the reference recurrence. Band `i` mixes its magnitude with the already-updated band `i - 1`, and band 0 with the previous frame's band 0. Slots past the band count are untouched. |
| BandSmoothing.ExpWithinInputs | crates/scram_process/src/band_smoothing.rs:17-21 | With the factor in `[0, 1]`, every smoothed band lies between the smallest and largest of the inputs and the previous band 0. |
| BandSmoothing.ExpFlatIsFixed | crates/scram_process/src/band_smoothing.rs:17-21 | A flat spectrum equal to the previous band 0 is a fixed point. |
| BandSmoothing.ExpFactorOne | crates/scram_process/src/band_smoothing.rs:17-21 | Factor 1 passes every magnitude through unchanged. |
| BandSmoothing.ExpFactorZero | crates/scram_process/src/band_smoothing.rs:17-21 | Factor 0 ignores the new frame: the in-pass coupling spreads the previous band 0 over every band. |
| BandSmoothing.MovingAverage | crates/scram_process/src/band_smoothing.rs:24-36 | Slot `i` is the mean of its window `[i - w/2 saturating, min(i + w/2 + 1, n))`. A slot whose window starts past its end makes the slice panic. |
| BandSmoothing.WindowAroundBand | crates/scram_process/src/band_smoothing.rs:27-30 | For a real band, the window contains it, stays within the bands, and holds at most `2 * (w/2) + 1` of them. |
| BandSmoothing.WindowMeanWithin | crates/scram_process/src/band_smoothing.rs:26-34 | A moving average lies between the smallest and largest magnitude. |
| BandSmoothing.WindowMeanOfFlat | crates/scram_process/src/band_smoothing.rs:26-34 | A flat spectrum is a fixed point of the moving average. |
| BandSmoothing.WindowOfOne | crates/scram_process/src/band_smoothing.rs:25-34 | A window of one band is the identity. |
| BandSmoothing.ClampNonNegative | crates/scram_process/src/band_smoothing.rs:39-41 | The final loop makes every value non-negative and keeps the non-negative ones. |
| BandSmoothing.ApplyBandSmoothing | crates/scram_process/src/band_smoothing.rs:4-42 | With no bands nothing changes, not even the clamp. Otherwise the call panics exactly when the smoothed buffer is too short for the chosen mode. On success it keeps the buffer's length and leaves every value non-negative. |
| BandSmoothing.NoSmoothingCopies | crates/scram_process/src/band_smoothing.rs:12-14 | `None` copies each magnitude, clamped at 0, and clamps the slots past the band count in place. |
| BandSmoothing.FlatSpectrumIsFixed | crates/scram_process/src/band_smoothing.rs:12-41 | A flat non-negative spectrum passes through every mode unchanged. For the exponential mode this needs band 0 of the previous frame to already hold that level. |
| BandSmoothing.RoundedWindow | src/process/band_smoothing.rs:21 | The older window `round(max(window_size, 1))` is at least 1 and within a half of the configured size. |
| BandSmoothing.RoundedWholeWindow | src/process/band_smoothing.rs:21 | A whole-number window size rounds to itself. |
| BandSmoothing.ApplyBandSmoothingProcess | src/process/band_smoothing.rs:4-36 | The older tree's version has the same shape: unchanged with no bands, the same panic condition at the rounded window, and non-negative on success. |
| BandSmoothing.TreesAgree | src/process/band_smoothing.rs:9-28 | The older tree's smoothing equals the newer one's, with the moving average taken at the rounded window. |
| Scaling.LogLevel | crates/scram_process/src/scaling.rs:31-37 | A logarithmic level is in `[0, 1]`, and a non-positive value maps to 0. |
| Scaling.LogLevelSaturates | src/process/scaling.rs:7-23 | A value at or above the reference 1.0 maps to full scale. |
| Scaling.LogLevelMonotone | crates/scram_process/src/scaling.rs:31-37 | A louder band never shows lower. |
| Scaling.ZipWrite | crates/scram_process/src/scaling.rs:26-29 | The zip writes level(smoothed[i]) into entry `i` below the shorter length and leaves the rest of `band_magnitudes` alone. |
| Scaling.ApplyLogScaling | src/process/scaling.rs:12-23 | Every written level is in `[0, 1]`. Non-positive values give 0. Entries past the smoothed length are untouched. |
| Scaling.Largest | crates/scram_process/src/scaling.rs:7-10 | The fold from `f32::MIN` is at least every element and at least `f32::MIN`. It is `f32::MIN` on an empty sequence, and otherwise one of the elements or `f32::MIN`. |
| Scaling.LinearDivisor | crates/scram_process/src/scaling.rs:7-12 | The divisor is twice the clamped maximum, so it lies in `[0, 2]`. |
| Scaling.LinearLevelAsWritten | crates/scram_process/src/scaling.rs:19 | With a non-zero divisor a level is in `[0, 1]`. |
| Scaling.SilenceIsNaN | crates/scram_process/src/scaling.rs:7-19 | As written, an all-zero smoothed state makes the divisor 0, and every level becomes `0.0 / 0.0`. |
| Scaling.LinearLevel | crates/scram_process/src/scaling.rs:19 | A linear level is in `[0, 1]` and agrees with the source whenever the divisor is non-zero. |
| Scaling.ApplyLinearAsWritten | crates/scram_process/src/scaling.rs:6-20 | The linear mode as written. Entry `i` is `None` (NaN) exactly when the divisor is 0 and `smoothed[i]` is 0. With a non-zero divisor every written level is in `[0, 1]`. Entries past the smoothed length are untouched. |
| Scaling.ApplyLinearScaling | crates/scram_process/src/scaling.rs:14-20 | The corrected linear mode: every written level is in `[0, 1]`, even for a silent frame. Entries past the smoothed length are untouched. |
| Scaling.SilenceIsZero | crates/scram_process/src/scaling.rs:7-19 | An all-zero smoothed state scales to zero levels. |
| Scaling.LinearHalfScale | crates/scram_process/src/scaling.rs:7-20 | With non-negative inputs whose largest value lies in `(0, 1]`, every level is in `[0, 0.5]` and the largest band shows exactly 0.5. |
| Scaling.ApplyScaling | crates/scram_process/src/scaling.rs:4-41 | The dispatch with the corrected linear mode. Either mode keeps the length, writes levels in `[0, 1]`, and leaves entries past the smoothed length alone. |
| Scaling.ApplyScalingAsWritten | crates/scram_process/src/scaling.rs:4-41 | The dispatch as written keeps the length. An entry is NaN exactly in linear mode, below the smoothed length, when the divisor is 0 and the smoothed value is 0. Every other entry equals the corrected dispatch. |
| PeakSmoothing.Progress | src/process/peak_smoothing.rs:23 | Progress is at most 1. It is 1 once the decay limit has elapsed, and also when the limit is 0. It is non-negative for a positive limit. |
| PeakSmoothing.Attack | src/process/peak_smoothing.rs:13-17 | The attack step stamps the bar now, makes its peak its value, and never passes the band. It reaches the band exactly when `attack_rate * dt` covers the gap, and a non-negative step never lowers the bar. |
| PeakSmoothing.Decay | src/process/peak_smoothing.rs:18-31 | The decay step keeps the stamp, lands in `[0, 1]` and never below the clamped band. It keeps the peak unless it is under the threshold, in which case value and peak reset to 0. |
| PeakSmoothing.Step | src/process/peak_smoothing.rs:13-34 | After a step, value and peak are in `[0, 1]`. An attack stamps the bar now and makes the peak the value. Decay and hold keep the stamp. |
| PeakSmoothing.ApplyPeakSmoothing | src/process/peak_smoothing.rs:12-35 | Only the first `min(bars, bands)` bars are stepped, and each ends in `[0, 1]`. The rest are untouched. |
| PeakSmoothing.AttackApproaches | src/process/peak_smoothing.rs:13-17 | An attack moves the value up without overshooting the band, makes it the new peak, and stamps it now. |
| PeakSmoothing.DecayKeepsPeak | src/process/peak_smoothing.rs:18-31 | Decay keeps the stamp. It keeps the peak unless the threshold reset zeroes both value and peak. |
| PeakSmoothing.HoldOnlyClamps | src/process/peak_smoothing.rs:13-34 | A band equal to the value changes nothing but the clamps. |
| PeakSmoothing.ReleaseReachesZero | src/process/peak_smoothing.rs:18-30 | Once the time target has run out and the decay step covers the value, a silent band drops the bar to 0. |
| PeakSmoothing.TargetShrinks | src/process/peak_smoothing.rs:22-24 | With a positive decay limit, the time target only shrinks as time passes. |
| PeakSmoothing.TargetAtStamp | src/process/peak_smoothing.rs:22-24 | At the instant a bar was stamped, its target is its peak. |
| PeakSmoothing.TargetWithinPeak | src/process/peak_smoothing.rs:22-24 | A peak in `[0, 1]` decays to a target between 0 and the peak. |
| PeakSmoothing.DecayNeverRaises | src/process/peak_smoothing.rs:18-25 | In decay, a bar at or above its envelope never rises. |
| PeakSmoothing.StepAboveTarget | src/process/peak_smoothing.rs:13-34 | Every branch leaves the bar at or above its own decaying target. |
| PeakSmoothing.StepStaysAboveEnvelope | src/process/peak_smoothing.rs:13-34 | Every frame keeps a bar above its envelope, from the frame's instant onwards. |
| PeakSmoothing.AttackRamp | src/process/peak_smoothing.rs:13-17 | Under a constant higher band, the bar climbs by exactly `attack_rate * dt` per frame, capped at the band. |
| PeakSmoothing.RampIsLinear | src/process/peak_smoothing.rs:14-15 | `k` attack steps add up to `k` times the step. |
| PeakSmoothing.AttackReachesBand | src/process/peak_smoothing.rs:13-17 | Enough frames to cover the gap bring the bar exactly to the band. |
| Common.Elapsed | src/process/peak_smoothing.rs:22 | `duration_since` is non-negative, and exact when time runs forwards. |
| Common.Clamp | src/process/peak_smoothing.rs:33-34 | A clamp lands in its range and leaves values already in it alone. |
| ScramConfig.DefaultPeakSmoothing | crates/scram_process/src/config.rs:50-58 | The default ballistics are all positive, ordered threshold < decay < limit < attack. |
| ScramConfig.DefaultBandSmoothing | crates/scram_process/src/config.rs:69-73 | The default smoothing is exponential with a factor in `[0, 1]`. |
| ScramConfig.DefaultFrequencyCutoff | crates/scram_process/src/config.rs:81-87 | The default cutoff has `0 < low < high`. |
| ScramConfig.DefaultConfig | crates/scram_process/src/config.rs:1-40 | The defaults are the Mel scale, the Blackman window and logarithmic volume, with a valid cutoff, positive ballistics and a factor in `[0, 1]`. |
| ProcessConfig.DefaultPeakSmoothing | src/process/config.rs:48-57 | The older defaults are all positive, ordered threshold < decay < limit < attack. |
| ProcessConfig.DefaultBandSmoothing | src/process/config.rs:66-70 | The older default smoothing is exponential with a factor in `[0, 1]`. |
| ProcessConfig.DefaultFrequencyCutoff | src/process/config.rs:78-85 | The older default cutoff has `0 < low < high`. |
| ProcessConfig.DefaultConfig | src/process/config.rs:1-38 | The older defaults are Mel banding, the Blackman window and logarithmic scaling. |
| Colors.ExactlyOneDirection | crates/scram_visualize/src/math.rs:12-20 | Exactly one of `is_down` and `is_up` holds. |
| Colors.Darken | src/math.rs:35-39 | Each colour channel is the smaller of the two, and alpha is the larger. |
| Colors.Lighten | src/math.rs:41-45 | Each colour channel is the larger of the two, and alpha is the larger. |
| Colors.DarkenCommutes | crates/scram_visualize/src/math.rs:54-58 | Darkening is commutative. |
| Colors.LightenCommutes | crates/scram_visualize/src/math.rs:60-64 | Lightening is commutative. |
| Colors.BlendsIdempotent | src/math.rs:35-45 | Darkening or lightening a colour with itself gives it back. |
| Colors.DarkenBelowLighten | src/math.rs:35-45 | Darken is at most lighten on every colour channel, and they agree on alpha. |
| Colors.MulU16 | src/math.rs:50-52 | A `u16` product succeeds exactly below 65536. |
| Colors.OverlayExact | src/math.rs:48-54 | The `u16` steps never overflow. The quotient is at most 254, so the `as u8` cast loses nothing and `255 -` cannot underflow. The computation equals the exact two-branch blend, in `[0, 255]`. |
| Colors.OverlayFixesExtremes | crates/scram_visualize/src/math.rs:67-73 | Black stays black and white stays white under any top layer. |
| Colors.OverlayInverts | crates/scram_visualize/src/math.rs:67-73 | Inverting both layers inverts the result: the screen branch is the multiply branch in negative. |
| Colors.OverlayMonotone | src/math.rs:48-54 | A lighter top layer never darkens the result. |
| Colors.OverlayColor | crates/scram_visualize/src/math.rs:66-83 | Each colour channel is the source's `overlay`, and alpha is the larger of the two. |

## Left out

- The FFT (`apply_rfft` over microfft) is an abstract parameter, with only "keeps the length" assumed (`Processor.FixedSizeFft`). The packed layout is the one `calculate_magnitudes` reads.
- The window taper formulas (Hann, Hamming, Blackman cosines) are abstract functions. Only their selection is modelled.
- `sqrt`, `log10`, `ln`, `powf` and `sinh` are parameters. Properties that need them take the named facts in `Transcendentals` as preconditions.
- Floating point itself is not modelled: rounding, infinities and NaN. The one exception is the linear-scaling division by zero, which the as-written member models as `None`.
- Audio device setup, the flume and mpsc channels, the drain thread and the mutex are not modelled. A received chunk, or its absence, is an argument, and so is the `try_lock` outcome.
- The waveform generators and pitch maths of the synthetic source are not modelled. Its signal is an arbitrary function from sample index to sample.
- Visualisers, renderers, `lerp`, `lerp_color`, `gradient` and `spectro_color` are not modelled. They are drawing code and float colour interpolation over an external `Rgba` type. `Style` is only a datatype.
- The binaries and the `Buffer`/`Source` traits are wiring only. `update` takes the block the buffer produced.
- `src/process/preprocess.rs` is not declared as a module in `src/process.rs`, which carries its own copy of `preprocess` and calls `config.window.apply()`; that method is not part of this model. Both copies are modelled once, by `Preprocess.Taper` and `Preprocess.Split`.
- In the older tree, `bands.rs` and `peak_smoothing.rs` name the bar sequence `frequencies`, while `process.rs` names it `bars`. They are treated as one sequence.
- Processor.ProcessSamples: requires a positive sample rate. With rate 0, `hz_per` is 0 and every band edge is infinite or NaN; those values are not modelled. A zero low cutoff is allowed, and it panics on the logarithmic scale (NaN edges cast to bin 0), which the model states. A negative low cutoff is not excluded, but what `powf` makes of it is left to the abstract library functions.
- Scaling.ApplyScaling: uses the corrected linear mode, so it does not show the NaN a silent frame produces. The source's dispatch is `Scaling.ApplyScalingAsWritten` (see Findings).
- Synth.ParseWith: models `i8` overflow as the debug-build panic. The release-build wrap-around is not modelled.
- Bands.EdgesIncrease: holds only under the increasing-map facts of `Transcendentals.Standard`, which `f32` rounding does not guarantee near equal edges.
- ScramConfig.DefaultPeakSmoothing: states positivity and the order of the four defaults, not their literal values.
- ProcessConfig.DefaultPeakSmoothing: states positivity and the order of the four defaults, not their literal values.
- Background.Take: the clone out of the mutex is value semantics. Sharing through `Arc` between clones of the handle is not modelled.

## Findings

| source | as written | input that shows it | evidently intended | confidence | as-written member | corrected member |
|---|---|---|---|---|---|---|
| src/synth.rs:118 | The semitone table row for semitone 6 is spelled "Cb". | `Note::parse("Gb4")` gives `None`, and `Note::parse("Cb4")` gives note 66 (F#4), although Cb is the pitch of B. | The row reads "Gb", the flat sharing semitone 6 with "F#", as every other sharp/flat pair does. | high, not executed | Synth.AsWrittenFlatOfG | Synth.FlatOfGParses |
| crates/scram_process/src/scaling.rs:7-19 | The linear divisor is `2 * clamp(max, 0, 1)` with no guard for zero. | All smoothed values 0.0 (digital silence): every level is `0.0 / 0.0`, which is NaN. A NaN band fails both the `>` and `<` tests of peak smoothing (src/process/peak_smoothing.rs:13,18), so a bar fed NaN never moves. | A silent frame shows zero levels. | medium, not executed | Scaling.SilenceIsNaN | Scaling.SilenceIsZero |
| src/process.rs:29 | The magnitude buffer holds `SAMPLE_SIZE / 2 + 1 = 2049` entries, but the FFT runs on `SAMPLE_SIZE / 2 = 2048` samples and yields 1025 bins. | Entries 1025..2048 stay 0 forever. With them, `hz_per` from src/process/bands.rs:9-11 is `sample_rate / 4096`, half the true spacing. At 48 kHz, every band above 12 kHz reads only those zero entries. | The buffer holds the 1025 bins of the spectrum, and `hz_per` is `sample_rate / 2048`. | high, not executed | Processor.StaleUpperBins | Processor.BinsMatchSpectrum |
