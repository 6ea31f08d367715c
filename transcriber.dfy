/**
 * The consumer-side state of `RealTimeTranscriber` (demo.py:14-180): the
 * queue the audio callback fills, the sample buffer the main loop drains
 * it into, the transcript lines and the time of the last phrase.
 */
module Transcriber {
  import opened Wrappers
  import opened PySlice
  import opened Assembly
  import opened Preprocess
  import opened Segmentation

  /** `np.any(indata)`: some sample of the block is non-zero. */
  predicate AnyNonZero(block: seq<Sample>)
  {
    exists i :: 0 <= i < |block| && block[i] != 0.0
  }

  /** What one pass of the main loop did. */
  datatype TickResult =
    | NoWindow                              // not enough audio buffered yet
    | PreprocessFailed(window: seq<Sample>) // preprocessing raised; the loop ends
    | Recognized(window: seq<Sample>, text: string)

  class RealTimeTranscriber {
    /** `--record_timeout`, seconds of audio per window. */
    const recordTimeout: real
    /** `--phrase_timeout`, seconds of silence that end a phrase. */
    const phraseTimeout: real

    /** `audio_queue`: blocks forwarded by the callback, oldest first. */
    var audioQueue: seq<seq<Sample>>
    /** `buffer` of `run`: samples received but not yet trimmed away. */
    var buffer: seq<Sample>
    /** `transcription`: one string per phrase. */
    var transcription: seq<string>
    /** `last_phrase_time`, in seconds; `None` before the first phrase. */
    var lastPhraseTime: Option<real>
    /** `noise_profile`. */
    var noiseProfile: Option<seq<Sample>>

    /** Every sample the callback has forwarded, in arrival order. */
    ghost var forwarded: seq<Sample>
    /** Every sample trimmed from the front of the buffer, in order. */
    ghost var discarded: seq<Sample>

    /**
     * The transcript is never empty, and no sample is lost or reordered:
     * what was forwarded is exactly what was trimmed, then the buffer, then
     * the queue.
     */
    ghost predicate Valid()
      reads this
    {
      |transcription| > 0 &&
      forwarded == discarded + buffer + Concat(audioQueue)
    }

    /** The segmentation state as a value. */
    function State(): Transcript
      reads this
    {
      Transcript(transcription, lastPhraseTime)
    }

    /** demo.py:21-27 and demo.py:153. */
    constructor (recordTimeout: real, phraseTimeout: real)
      ensures Valid()
      ensures this.recordTimeout == recordTimeout && this.phraseTimeout == phraseTimeout
      ensures audioQueue == [] && buffer == [] && noiseProfile == None
      ensures State() == Initial
      ensures forwarded == [] && discarded == []
    {
      this.recordTimeout := recordTimeout;
      this.phraseTimeout := phraseTimeout;
      audioQueue := [];
      buffer := [];
      transcription := [""];
      lastPhraseTime := None;
      noiseProfile := None;
      forwarded := [];
      discarded := [];
    }

    /** `_capture_noise_profile` (demo.py:83-84), given the second of audio it recorded. */
    method CaptureNoiseProfile(recorded: seq<Sample>)
      requires Valid()
      requires |recorded| == SampleRate * 1
      modifies this`noiseProfile
      ensures Valid()
      ensures noiseProfile == Some(recorded)
    {
      noiseProfile := Some(recorded);
    }

    /** `_audio_callback` (demo.py:69-74): all-zero blocks are dropped. */
    method AudioCallback(indata: seq<Sample>)
      requires Valid()
      modifies this`audioQueue, this`forwarded
      ensures Valid()
      ensures audioQueue == if AnyNonZero(indata) then old(audioQueue) + [indata] else old(audioQueue)
      ensures forwarded == if AnyNonZero(indata) then old(forwarded) + indata else old(forwarded)
    {
      if AnyNonZero(indata) {
        ConcatAppend(audioQueue, indata);
        audioQueue := audioQueue + [indata];
        forwarded := forwarded + indata;
      }
    }

    /** demo.py:158-160: move every queued block onto the buffer, oldest first. */
    method DrainQueue()
      requires Valid()
      modifies this`audioQueue, this`buffer
      ensures Valid()
      ensures audioQueue == [] && buffer == old(buffer) + Concat(old(audioQueue))
    {
      while audioQueue != []
        invariant Valid()
        invariant buffer + Concat(audioQueue) == old(buffer) + Concat(old(audioQueue))
        decreases |audioQueue|
      {
        var chunk := audioQueue[0];
        assert Concat(audioQueue) == chunk + Concat(audioQueue[1..]);
        audioQueue := audioQueue[1..];
        buffer := buffer + chunk;
      }
    }

    /** demo.py:163-166: slice at most one window and trim one second of samples. */
    method AssembleWindow() returns (window: Option<seq<Sample>>)
      requires Valid()
      modifies this`buffer, this`discarded
      ensures Valid()
      ensures Assembled(window, buffer) == Step(old(buffer), recordTimeout)
      ensures old(buffer) == old(buffer)[..|old(buffer)| - |buffer|] + buffer
      ensures discarded == old(discarded) + old(buffer)[..|old(buffer)| - |buffer|]
    {
      if Ready(buffer, recordTimeout) {
        window := Some(Take(buffer, WindowLength(recordTimeout)));
        discarded := discarded + Take(buffer, Advance);
        buffer := Drop(buffer, Advance);
      } else {
        window := None;
      }
    }

    /** `_update_transcription` (demo.py:118-131), with the clock reading `now` as a parameter. */
    method UpdateTranscription(text: string, now: real)
      requires Valid()
      modifies this`transcription, this`lastPhraseTime
      ensures Valid()
      ensures State() == Update(old(State()), text, now, phraseTimeout)
    {
      var phraseComplete := false;
      if lastPhraseTime.Some? && now - lastPhraseTime.value > phraseTimeout {
        phraseComplete := true;
      }
      lastPhraseTime := Some(now);
      if phraseComplete {
        transcription := transcription + [text];
      } else {
        transcription := transcription[..|transcription| - 1] + [text];
      }
    }

    /**
     * One pass of the loop in `run` (demo.py:156-178). Noise reduction and
     * speech recognition are the external routines `reduceNoise` and
     * `transcribe`; `now` is the clock reading at which text arrives.
     */
    method Tick(reduceNoise: (seq<Sample>, seq<Sample>) -> seq<Sample>,
                transcribe: seq<Sample> -> string, now: real)
      returns (result: TickResult)
      requires Valid()
      modifies this`audioQueue, this`buffer, this`discarded, this`transcription, this`lastPhraseTime
      ensures Valid() && audioQueue == []
      ensures var a := Step(old(buffer) + Concat(old(audioQueue)), recordTimeout);
              buffer == a.rest &&
              (result.NoWindow? <==> a.window.None?) &&
              (!result.NoWindow? ==> a.window == Some(result.window))
      ensures !result.NoWindow? ==>
                (result.PreprocessFailed? <==> ProcessAudio(result.window, noiseProfile, reduceNoise).None?)
      ensures result.Recognized? ==>
                ProcessAudio(result.window, noiseProfile, reduceNoise).Some? &&
                result.text == transcribe(ProcessAudio(result.window, noiseProfile, reduceNoise).value)
      ensures State() == if result.Recognized? then Feed(old(State()), result.text, now, phraseTimeout)
                         else old(State())
    {
      DrainQueue();
      var window := AssembleWindow();
      if window.None? {
        return NoWindow;
      }
      var cleaned := ProcessAudio(window.value, noiseProfile, reduceNoise);
      if cleaned.None? {
        return PreprocessFailed(window.value);
      }
      var text := transcribe(cleaned.value);
      if text != "" {
        UpdateTranscription(text, now);
      }
      result := Recognized(window.value, text);
    }
  }
}
