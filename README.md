# Real-time transcriber: buffering and line segmentation

This project models the consumer side of `RealTimeTranscriber` in `demo.py`,
a microphone-to-text loop. It covers four things:

- The audio callback forwards a block to a frame queue unless every sample in it is zero.
- Each pass of the main loop drains the queue onto a sample buffer in FIFO order.
  Once the buffer holds `sample_rate * record_timeout` samples, the loop slices one
  window of `int(sample_rate * record_timeout)` samples from the front. It then trims
  a fixed 16000 samples (one second), with Python's clamping slice semantics.
- The window is peak-normalised to 0.9 and sent to a speech recogniser.
- Non-empty text goes through a two-state phrase rule on the transcript lines. After a
  pause strictly longer than `phrase_timeout` a new line is appended. Otherwise the last
  line is replaced, and that includes the first recognition, which overwrites the
  initial empty line.

Input-device selection from `_setup_microphone` is modelled too.

Modules:

- `Wrappers`: `Option`.
- `PySlice`: Python's `int()` on a float and the clamping slices `s[:n]` and `s[n:]`.
- `Assembly`: the window assembly as pure functions (`Concat`, `Step`) and the lemmas about consecutive windows.
- `Preprocess`: peak normalisation. Noise reduction is an opaque function parameter.
- `Segmentation`: the transcript as a value, `Update` (`_update_transcription`), `Feed` (the `if text:` guard) and `Replay` over a run of events.
- `Microphone`: the input-device filter and the selection scan.
- `Transcriber`: the class `RealTimeTranscriber`. It holds the four pieces of mutable state (`audioQueue`, `buffer`, `transcription`, `lastPhraseTime`) plus the noise profile. Its methods are proved against the functions above.
  - The class invariant `Valid()` keeps the transcript non-empty.
  - It also says that no sample is lost or reordered. Two ghost fields carry this: `forwarded` (every sample the callback queued) and `discarded` (every sample trimmed). The invariant is `forwarded == discarded + buffer + Concat(audioQueue)`.

Samples, timeouts and timestamps are `real`. The clock, the recogniser and the
noise-reduction routine are parameters of `Tick`.

Three facts about the code:

- The first recognition replaces the initial `''` line rather than appending (demo.py:123, 131). The transcript has one line after the first phrase.
- The buffer has no upper bound. Each pass drains everything queued but takes only one window and trims only one second (demo.py:158-166), so a slow recogniser lets it grow.
- The trim is a hard-coded `int(sample_rate * 1)` (demo.py:166), independent of `record_timeout`. `Assembly.ShortWindowLeavesGap` proves that with a window shorter than one second, the samples between the window's end and the one-second mark reach neither the recogniser nor the buffer.

## Model

| member | source | states |
|---|---|---|
| PySlice.Truncate | demo.py:165 | `int()` of a float truncates toward zero: the result is within one of the argument, on the zero side |
| PySlice.Take | demo.py:165 | `s[:n]` is the prefix of `s` up to Python's clamped bound: `n` elements when `0 <= n <= len(s)`, all of `s` past the end, `max(0, len(s)+n)` elements for negative `n` |
| PySlice.Drop | demo.py:166 | `s[n:]` is what `s[:n]` leaves (`s[:n] + s[n:] == s`); it is empty when `n >= len(s)` |
| Assembly.ConcatAppend | demo.py:158-160 | queuing one more block extends the FIFO concatenation of the queue by exactly that block |
| Assembly.Step | demo.py:163-166 | a window is emitted iff `len(buffer) >= sample_rate*record_timeout`; it is a prefix of the buffer as long as Python's clamped reading of the slice bound `int(sample_rate*record_timeout)` for every timeout, so exactly that many samples whenever the bound is non-negative (an empty window for a timeout in (-1/16000, 0)); after emission the buffer is `old[16000:]` (empty when shorter); without emission the buffer is unchanged |
| Assembly.WindowsOverlap | demo.py:158-166 | when the window is at least one second long, the last `W-16000` samples of a window equal the first `W-16000` samples of the next, whatever frames arrived in between |
| Assembly.TrimmedSamplesWereWindowed | demo.py:165-166 | when the window is at least one second long, the 16000 trimmed samples are the head of the window just emitted, so trimming drops no unprocessed audio |
| Assembly.ShortWindowLeavesGap | demo.py:165-166 | when the window is shorter than one second, the buffer splits into window, a non-empty gap, and the trimmed buffer |
| Assembly.ThreeSecondsGiveTwoWindows | demo.py:163-166 | 48000 samples with `record_timeout = 2` yield the windows `[0,32000)` and `[16000,48000)`, then no window, leaving the last second buffered |
| Preprocess.Peak | demo.py:98 | `max(abs(audio))` bounds every sample's amplitude and is reached by some sample |
| Preprocess.Normalize | demo.py:97-102 | normalisation fails (NumPy's error) exactly on an empty window, keeps the length, and returns a silent window unchanged |
| Preprocess.NormalizedPeak | demo.py:98-100 | a window with non-zero peak comes out with peak amplitude exactly 0.9 |
| Preprocess.ProcessAudio | demo.py:87-102 | preprocessing fails exactly when the (noise-reduced, if a profile exists) audio is empty; without a profile the length is kept |
| Segmentation.Update | demo.py:118-131 | sets the last phrase time to `now`; grows the transcript by one line iff a prior time exists and the gap is strictly greater than the timeout, else keeps the length; every line before the last is unchanged, the last line is `text`, and on append all old lines are kept |
| Segmentation.Feed | demo.py:172-174 | empty text leaves lines and timestamp unchanged; non-empty text is an `Update`; the transcript stays non-empty |
| Segmentation.Replay | demo.py:172-174 | starting from a non-empty transcript (initially `['']`, demo.py:25), any run of guarded recognitions leaves it non-empty |
| Segmentation.ReplayKeepsHistory | demo.py:118-131 | over any run of events the transcript never shrinks, grows by at most one line per event, and keeps every line before the last unchanged |
| Segmentation.LineCountIsBoundaries | demo.py:121-131 | the number of lines after a run equals the starting count plus the number of non-empty events whose gap exceeded the timeout |
| Segmentation.PhraseTimeoutBoundary | demo.py:121-131 | with a 3 s timeout, the first phrase replaces the empty line; a second phrase 2.9 s or exactly 3.0 s later replaces it; one 3.1 s later appends |
| Segmentation.GrowingPhraseStaysOnOneLine | demo.py:118-131 | "hello" at 0 s, an empty result, then "hello world" at 1 s give the single line "hello world" with last phrase time 1 s |
| Microphone.ContainsIff | demo.py:61 | Python's `sub in name` holds iff `sub` occurs at some position of `name` |
| Microphone.InputDevices | demo.py:48 | the comprehension yields, in increasing order, exactly the indices of devices with `max_input_channels > 0` |
| Microphone.NoInputDevicesIff | demo.py:48-51 | the filtered list is empty iff no device has input channels |
| Microphone.FindByName | demo.py:60-63 | the scan picks the first input device whose name contains the microphone name, or reports no match iff no input device's name contains it |
| Microphone.SelectInputDevice | demo.py:47-65 | fails iff no device has input channels; any chosen index has input channels; on Linux with a name configured, `'list'` returns without choosing, and otherwise the first containing input device is chosen or no device is; elsewhere the first input device is chosen |
| Transcriber.RealTimeTranscriber.constructor | demo.py:21-27 | empty queue, empty buffer (created at demo.py:153), transcript `['']`, no last phrase time, no noise profile |
| Transcriber.RealTimeTranscriber.CaptureNoiseProfile | demo.py:83-84 | the one-second recording becomes the noise profile |
| Transcriber.RealTimeTranscriber.AudioCallback | demo.py:69-74 | a block with a non-zero sample is appended to the queue; an all-zero block leaves the queue unchanged |
| Transcriber.RealTimeTranscriber.DrainQueue | demo.py:158-160 | the queue ends empty and the buffer is the old buffer followed by every queued block in FIFO order |
| Transcriber.RealTimeTranscriber.AssembleWindow | demo.py:163-166 | the window and new buffer are those of `Assembly.Step`; the dropped samples are a prefix of the old buffer and are recorded as discarded |
| Transcriber.RealTimeTranscriber.UpdateTranscription | demo.py:118-131 | lines and last phrase time become `Segmentation.Update` of the old ones |
| Transcriber.RealTimeTranscriber.Tick | demo.py:156-178 | drains the queue, then assembles at most one window from the drained buffer; preprocessing failure is reported; a recognised text updates the transcript only if non-empty; otherwise the transcript is unchanged; the no-loss invariant is kept |

## Left out

- Speech recognition (`_transcribe_audio`, demo.py:104-116) is the external Whisper model. It is the function parameter `transcribe` of `Tick`, whose failures count as the empty string, as the `except` branch does.
- Noise reduction (demo.py:90-95) is a foreign library call. It is the function parameter `reduceNoise`, a total function, so an exception raised by `nr.reduce_noise`, which would end `run`, is not modelled.
- Preprocess.ProcessAudio: about the noise-reduced path it states only when it fails, because the routine's output is opaque.
- Floating point is modelled as `real`. float32 samples, float time differences and rounding in `0.9 * audio / max_amp` and `sample_rate * record_timeout` are not modelled, and neither are NaN samples (NumPy's `any` counts them as non-zero).
- The audio streams, the recording of the noise profile (demo.py:79-83), the `sleep(0.1)`, the screen clearing and printing (demo.py:133-135, 175-178, 192-194), argparse, model loading and the `KeyboardInterrupt`/`finally` cleanup are I/O and timing plumbing. The recorded profile is a parameter of `CaptureNoiseProfile`.
- The infinite `while True` loop of `run` is modelled one pass at a time by `Tick`. A `PreprocessFailed` result stands for the exception that ends the loop.
- The real producer thread and `queue.Queue` synchronisation are not modelled. The queue is a sequence, and callbacks and drains are sequential steps.
- Transcriber.RealTimeTranscriber.AudioCallback: the driver status warning (demo.py:71-72) is printing only. The `frames` and `time` arguments are unused. Blocks are taken as already flat, single-channel sequences, so `flatten()` at demo.py:159 is the identity.
- Microphone.SelectInputDevice: the chosen index is returned rather than stored in `device_index`. The printing of the device list is left out. `hasattr(self.args, 'default_microphone')` is the `Some?` of an optional argument, and the platform test is the parameter `isLinux`.
- `--energy_threshold` is parsed but never used in the source.
- backend.py (PDF and OCR glue) and app.py (a Flask upload route) are not part of this model.
