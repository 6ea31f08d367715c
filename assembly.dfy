/**
 * Window assembly (demo.py:153-166): pending frames are concatenated onto a
 * sample buffer; once the buffer holds `sample_rate * record_timeout`
 * samples, a window is sliced from its front and the buffer is trimmed by a
 * fixed one second of samples.
 */
module Assembly {
  import opened Wrappers
  import opened PySlice

  /** One single-precision audio sample, modelled as a real. */
  type Sample = real

  /** demo.py:21. */
  const SampleRate: int := 16000

  /** demo.py:166 trims `int(sample_rate * 1)` samples, whatever the window length. */
  const Advance: int := SampleRate * 1

  /** The frames of a queue laid end to end, in FIFO order. */
  function Concat(chunks: seq<seq<Sample>>): seq<Sample>
  {
    if chunks == [] then [] else chunks[0] + Concat(chunks[1..])
  }

  /** Queuing one more frame extends the concatenation by exactly that frame. */
  lemma {:induction false} ConcatAppend(chunks: seq<seq<Sample>>, chunk: seq<Sample>)
    ensures Concat(chunks + [chunk]) == Concat(chunks) + chunk
  {
    if chunks == [] {
      assert [] + [chunk] == [chunk];
      assert Concat([chunk]) == chunk + Concat([]);
    } else {
      assert (chunks + [chunk])[0] == chunks[0];
      assert (chunks + [chunk])[1..] == chunks[1..] + [chunk];
      ConcatAppend(chunks[1..], chunk);
    }
  }

  /** The emission test of demo.py:163, a comparison against a float threshold. */
  predicate Ready(buffer: seq<Sample>, recordTimeout: real)
  {
    |buffer| as real >= SampleRate as real * recordTimeout
  }

  /** The slice bound of demo.py:165, `int(sample_rate * record_timeout)`. */
  function WindowLength(recordTimeout: real): int
  {
    Truncate(SampleRate as real * recordTimeout)
  }

  /** What one assembly step yields: at most one window, and the trimmed buffer. */
  datatype Assembled = Assembled(window: Option<seq<Sample>>, rest: seq<Sample>)

  /** The slice-and-trim step of demo.py:163-166 applied to a drained buffer. */
  function Step(buffer: seq<Sample>, recordTimeout: real): (a: Assembled)
    ensures a.window.None? <==> !Ready(buffer, recordTimeout)
    ensures a.window.None? ==> a.rest == buffer
    ensures a.window.Some? ==> |a.window.value| <= |buffer| && a.window.value == buffer[..|a.window.value|]
    ensures a.window.Some? ==> |a.window.value| == Bound(WindowLength(recordTimeout), |buffer|)
    ensures a.window.Some? && 0 <= WindowLength(recordTimeout) ==> |a.window.value| == WindowLength(recordTimeout)
    ensures a.window.Some? && Advance <= |buffer| ==> a.rest == buffer[Advance..]
    ensures a.window.Some? && |buffer| < Advance ==> a.rest == []
  {
    if Ready(buffer, recordTimeout) then
      Assembled(Some(Take(buffer, WindowLength(recordTimeout))), Drop(buffer, Advance))
    else
      Assembled(None, buffer)
  }

  /**
   * With a window of at least one second, consecutive windows overlap: the
   * samples of the first window past the advance point open the second one,
   * whatever frames arrived in between.
   */
  lemma WindowsOverlap(buffer: seq<Sample>, arrived: seq<Sample>, recordTimeout: real)
    requires Advance <= WindowLength(recordTimeout)
    requires Step(buffer, recordTimeout).window.Some?
    requires Step(Step(buffer, recordTimeout).rest + arrived, recordTimeout).window.Some?
    ensures var first := Step(buffer, recordTimeout).window.value;
            var second := Step(Step(buffer, recordTimeout).rest + arrived, recordTimeout).window.value;
            var w := WindowLength(recordTimeout);
            |first| == w && |second| == w && first[Advance..] == second[..w - Advance]
  {

  }

  /**
   * With a window of at least one second, trimming never discards a sample
   * that was not handed on in the window just emitted.
   */
  lemma TrimmedSamplesWereWindowed(buffer: seq<Sample>, recordTimeout: real)
    requires Advance <= WindowLength(recordTimeout)
    requires Step(buffer, recordTimeout).window.Some?
    ensures var a := Step(buffer, recordTimeout);
            Advance <= |a.window.value| && buffer == a.window.value[..Advance] + a.rest
  {

  }

  /**
   * With a window shorter than one second, the samples between the window's
   * end and the advance point are in neither the window nor the trimmed
   * buffer: the fixed trim leaves a gap.
   */
  lemma ShortWindowLeavesGap(buffer: seq<Sample>, recordTimeout: real)
    requires 0.0 <= recordTimeout && WindowLength(recordTimeout) < Advance <= |buffer|
    ensures var a := Step(buffer, recordTimeout);
            var w := WindowLength(recordTimeout);
            a.window == Some(buffer[..w]) && a.rest == buffer[Advance..] &&
            buffer == a.window.value + buffer[w..Advance] + a.rest && w < Advance
  {

  }

  /**
   * Three seconds of audio with the default two-second window: two windows,
   * then the one second left over waits for more audio.
   */
  lemma ThreeSecondsGiveTwoWindows(audio: seq<Sample>)
    requires |audio| == 3 * SampleRate
    ensures var a1 := Step(audio, 2.0);
            var a2 := Step(a1.rest, 2.0);
            var a3 := Step(a2.rest, 2.0);
            a1.window == Some(audio[..2 * SampleRate]) &&
            a2.window == Some(audio[SampleRate..]) &&
            a3.window == None && a3.rest == audio[2 * SampleRate..]
  {

  }
}
