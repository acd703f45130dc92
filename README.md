# Push-to-talk dictation: session control core

This project models the control core of a push-to-talk dictation program. A
hotkey (F9) toggles recording. While recording, a capture thread pulls
fixed-size chunks of 16-bit mono PCM at 16 kHz from the microphone. When
recording stops, the buffer is checked, handed to a speech engine, and the
text the engine returns is typed at the cursor.

The model keeps the object `DictationTranscriber` and its three session
fields, `is_recording`, `audio_frames` and `recording_error`. Audio devices,
timing and threads are abstracted away.

- `Pcm` (pure). It models `b''.join`, `np.frombuffer(..., int16)`,
  normalisation by 32768 and the volume test. Decoding is little-endian: `np.int16`
  is the machine's native byte order, and the model assumes a little-endian
  machine. Decoding an odd number of
  bytes is an error, because numpy raises in that case. The volume test is
  done in exact arithmetic: `1000 * Σ|s| < 32768 * n`. `TooQuietIsMeanBelowThreshold`
  proves this equals "the mean absolute normalised amplitude is below 0.001"
  over the reals. An empty sample array is never "too quiet": numpy's mean of
  an empty array is NaN, and NaN compares false.
- `Segments` (pure). It models `str.strip()`, using Python's whitespace set,
  and `" ".join(...)`.
- `Capture` (pure specification of the capture loop). `Run` is `_record`
  written as a function over the events the loop sees:
  - a read that returns a chunk;
  - a read that raises `OSError`;
  - a read that raises any other exception;
  - `Stop`, the other thread clearing `is_recording`.

  The inputs are the session and the consecutive-error counter. `Expected` is
  an independent description by position: the first event that ends the
  loop, the chunks read before it, and whether that event is a fault.
  `RunMeetsReference` proves the two agree.
- `Pipeline` (pure). `Process` is the ordered decision `stop_recording` makes
  after capture ends. The checks run in this order: error, empty buffer,
  decoding, volume, engine, empty text.
- `Transcriber` (imperative). The class `DictationTranscriber` has the
  session fields and a log `typed` of the strings handed to `type_text`.
  - `StartRecording`, `WarmUp`, `Record`, `StopRecording`, `FinishStop`,
    `TypeText` and `OnHotkey` mirror the Python methods as loops and field
    updates.
  - Each one is proved against the functions above.
  - `Valid()` (`is_recording ==> !recording_error`) is kept by every method.
  - `DictateTwice` runs two sessions in a row. Each one types
    `"hello world"`, and nothing carries over from the first session to the
    second.

The threads are serialised. `StartRecording` covers the handler's start path
up to spawning the capture thread. `Record` is that thread's loop. A `Stop`
event in `Record`'s input is the point where the handler clears
`is_recording`; after that it continues with `FinishStop`. Two flags stand for
the start path's failures. `initOk` is whether creating the PyAudio instance
succeeds. That call comes before the `try` block, so its failure raises out of
`start_recording` with `is_recording` already set; `on_hotkey`'s `except`
catches it. `setupOk` is whether the `try` block succeeds. Any exception there
clears this flag: the open itself, a cue, or starting the thread. The handler
then rolls `is_recording` back. Warm-up
read outcomes come from a function parameter. The speech engine is a
function parameter from waveform to segment texts or a raised error.

Observations from the code that the model records:

- Two or more segments always give a non-empty text, even when every segment
  is blank: two blank segments join to `" "`, which is typed
  (`SegmentTextNonEmptyIff`).
- The capture loop sets the error flag and clears `is_recording` at the same
  moment. After a fault, the next hotkey press therefore *starts* a new
  session; it does not stop the old one. The discard branch of
  `stop_recording` (error flag set while still recording) is reachable only
  when the capture thread faults between the guard at line 118 and the error
  check at line 140, for example during the 0.1 s sleep or while the stream is
  being closed. `StopRecording` models that branch for any starting state.
  Every state the serialised methods reach satisfies `Valid()`, and
  `StopRecording` proves that from such a state the outcome is never
  `Discarded`.
- When creating the PyAudio instance fails, the transcriber stays
  "recording" with no capture thread. The next hotkey press stops a session
  that captured nothing and ends with "No audio recorded"
  (`InitFailureThenStop`).
- A faulted capture is not discarded when the fault happens. Its frames stay
  in `audio_frames` until the next start clears them. The model follows the
  code in this.

## Model

| member | source | states |
|---|---|---|
| `Pcm.WarmupChunks` | voice_to_text.py:72 | `int(RATE / CHUNK * 1.0)` is 15 |
| `Pcm.Concat` | voice_to_text.py:153 | the joined buffer is as long as all chunks together |
| `Pcm.Int16LE` | voice_to_text.py:154 | a byte pair decodes to a value in the int16 range, congruent to its unsigned value mod 65536 |
| `Pcm.Samples` | voice_to_text.py:154 | an even byte string gives half as many samples, the i-th made from bytes 2i and 2i+1, in order |
| `Pcm.DecodePcm` | voice_to_text.py:154 | decoding fails exactly on an odd byte count, and otherwise gives one sample per two bytes |
| `Pcm.SampleBytes` | voice_to_text.py:154 | an int16 sample is two bytes |
| `Pcm.EncodePcm` | voice_to_text.py:154 | encoding gives two bytes per sample |
| `Pcm.DecodeEncode` | voice_to_text.py:154 | encoding int16 samples and decoding them gives the samples back |
| `Pcm.EncodeDecode` | voice_to_text.py:154 | decoding an even byte string gives int16 samples that encode back to the same bytes |
| `Pcm.SampleRoundTrip` | voice_to_text.py:154 | a single sample survives encoding and decoding |
| `Pcm.BytesRoundTrip` | voice_to_text.py:154 | a single byte pair survives decoding and encoding |
| `Pcm.Normalise` | voice_to_text.py:154 | normalisation keeps the length and the order and divides each sample by 32768 |
| `Pcm.NormaliseRange` | voice_to_text.py:154 | every normalised int16 sample lies in [-1, 1) |
| `Pcm.NormalisedBuffer` | voice_to_text.py:153-154 | a buffer with an even byte count decodes to TotalBytes/2 normalised samples, each in [-1, 1) |
| `Pcm.SumAbsNormalised` | voice_to_text.py:154-157 | the sum of absolute normalised values is the integer sum of absolute samples divided by 32768 |
| `Pcm.TooQuiet` | voice_to_text.py:156-158 | there are samples and 1000 times the sum of absolute samples is below 32768 times their number |
| `Pcm.TooQuietIsMeanBelowThreshold` | voice_to_text.py:157-158 | the integer quiet test holds iff there are samples and the real mean absolute normalised amplitude is below 0.001 |
| `Segments.IsSpace` | voice_to_text.py:173 | the characters Python's `str.isspace` accepts: tab to carriage return, U+001C to U+001F, space, next line U+0085, and the Unicode space, line and paragraph separators |
| `Segments.LeadingSpaces` | voice_to_text.py:173 | the longest whitespace prefix: all whitespace and followed by a non-space |
| `Segments.TrailingSpaces` | voice_to_text.py:173 | the longest whitespace suffix: all whitespace and preceded by a non-space |
| `Segments.Strip` | voice_to_text.py:173 | a stripped text is empty or starts and ends with a non-whitespace character |
| `Segments.StripTrimsExactly` | voice_to_text.py:173 | the input is a whitespace prefix, then the stripped text, then a whitespace suffix, and the result is empty iff the input is all whitespace |
| `Segments.StripIdempotent` | voice_to_text.py:173 | stripping twice equals stripping once |
| `Segments.StripAll` | voice_to_text.py:173 | each segment text is stripped, one for one, in order |
| `Segments.Join` | voice_to_text.py:173 | `sep.join(xs)`: the pieces in order with one separator between each neighbouring pair |
| `Segments.JoinLength` | voice_to_text.py:173 | the join is the pieces' lengths plus one separator between each neighbouring pair |
| `Segments.JoinSnoc` | voice_to_text.py:173 | a further piece lands at the end, after one separator, so pieces keep the list order |
| `Segments.JoinEmptyIff` | voice_to_text.py:173 | with a non-empty separator the join is empty iff there are no pieces or one empty piece |
| `Segments.SegmentText` | voice_to_text.py:173 | the stripped segment texts joined with single spaces |
| `Segments.SegmentTextNonEmptyIff` | voice_to_text.py:173-181 | the text is non-empty, and so typed, iff there are at least two segments or one that is not all whitespace |
| `Segments.SegmentTextSnoc` | voice_to_text.py:173 | a later segment's stripped text follows the earlier text after a single space |
| `Segments.HelloWorld` | voice_to_text.py:173 | `"hello "` and `" world"` give `"hello world"` |
| `Capture.Run` | voice_to_text.py:92-114 | the loop as a function of the events it sees: a chunk is appended and resets the counter; an OSError counts, and the fifth in a row sets the error flag and ends recording; any other exception does the same at once; a stop ends recording |
| `Capture.FirstEnd` | voice_to_text.py:97-114 | the first event that stops or faults the loop, with no such event before it |
| `Capture.OkChunksStep` | voice_to_text.py:99-103 | one more event adds its chunk at the end, and moves the error counter one up on an OSError or to 0 otherwise |
| `Capture.RunFrom` | voice_to_text.py:97-114 | after a prefix that has not ended the loop, the frames hold the prefix's chunks and the counter holds its trailing OSErrors |
| `Capture.FirstEndSkips` | voice_to_text.py:97-114 | skipping events that do not end the loop leaves the first ending event the same |
| `Capture.RunMeetsReference` | voice_to_text.py:92-114 | the loop ends in exactly the state the positional description gives |
| `Capture.RunAppendsOkChunks` | voice_to_text.py:99-101 | the final frames are the old frames followed by the successful reads' chunks before the ending event, in order |
| `Capture.RunFaultsIff` | voice_to_text.py:102-114 | the error flag is set iff, before any stop, a read raises a non-OSError or completes five OSErrors in a row |
| `Capture.FewerThanFiveNeverFault` | voice_to_text.py:102-109 | fewer than five OSErrors in a row and no other exception never fault the session |
| `Capture.TrailingRun` | voice_to_text.py:101-103 | m OSErrors in a row give a trailing error count of at least m |
| `Capture.FiveInARowFault` | voice_to_text.py:103-108 | five OSErrors in a row before any stop fault the session and clear recording, whatever was read before them |
| `Capture.RunWithoutEnd` | voice_to_text.py:97-101 | with no stop and no fault the loop is still recording and has kept every chunk |
| `Capture.RunKeepsHealthy` | voice_to_text.py:106-113 | the loop never leaves a session that is both recording and faulted |
| `Capture.ReadThenHiccup` | voice_to_text.py:97-109 | a chunk and then one OSError keep the chunk and keep recording |
| `Capture.HiccupReadStop` | voice_to_text.py:97-103 | an OSError, a chunk, then a stop keep the chunk and end recording without fault |
| `Pipeline.Waveform` | voice_to_text.py:153-154 | the joined buffer decoded as int16 samples, or nothing for an odd byte count |
| `Pipeline.PassesChecks` | voice_to_text.py:139-158 | no capture error, some frames, a buffer that decodes, and audio that is not too quiet |
| `Pipeline.Process` | voice_to_text.py:139-181 | each outcome for exactly one condition: discarded iff error; "no audio" iff no error and no frames; a bad buffer iff it then fails to decode; "too quiet" iff it then fails the volume test; the engine is called iff all checks pass; the text is typed iff it is non-empty |
| `Pipeline.WholeSamplesDecode` | voice_to_text.py:153-154 | chunks of whole samples always decode |
| `Pipeline.FullChunksReachEngine` | voice_to_text.py:146-165 | for full 2048-byte chunks the engine is called iff the audio is not too quiet |
| `Pipeline.LoudChunkPasses` | voice_to_text.py:153-158 | one chunk with sample 16384 decodes and passes every check |
| `Pipeline.HelloWorldTyped` | voice_to_text.py:165-179 | loud audio and segments `"hello "`, `" world"` type `"hello world"` |
| `Pipeline.NoSegmentsNoSpeech` | voice_to_text.py:173-181 | loud audio and no segments give "no speech" and nothing typed |
| `Transcriber.DictationTranscriber.constructor` | voice_to_text.py:29-34 | a new transcriber is idle, has no frames and no error, and has typed nothing |
| `Transcriber.DictationTranscriber.Valid` | voice_to_text.py:41-43 | a session that is recording has no capture error |
| `Transcriber.DictationTranscriber.StartRecording` | voice_to_text.py:36-90 | no field changes while recording; otherwise empty frames and no error; a failed PyAudio creation raises and leaves recording set; otherwise recording iff the `try` block succeeded |
| `Transcriber.DictationTranscriber.WarmUp` | voice_to_text.py:71-77 | exactly 15 reads, in order, none kept and no field changed |
| `Transcriber.DictationTranscriber.Record` | voice_to_text.py:92-114 | the new session fields are `Run` of the old ones with the counter at 0 |
| `Transcriber.DictationTranscriber.StopRecording` | voice_to_text.py:116-186 | nothing changes when not recording; otherwise recording ends, the outcome is `Process`, frames are cleared only on error, and the text is typed only on success; from a `Valid` state the outcome is never `Discarded` |
| `Transcriber.DictationTranscriber.FinishStop` | voice_to_text.py:139-186 | the outcome is `Process` of the error flag and frames, which are cleared only on error; the log gains the text only when one is typed |
| `Transcriber.DictationTranscriber.TypeText` | voice_to_text.py:188-193 | the string is appended to what has been typed |
| `Transcriber.DictationTranscriber.OnHotkey` | voice_to_text.py:199-208 | other keys change nothing; the hotkey starts when idle, staying recording unless the `try` block failed, and stops, with `Process`'s outcome, when recording |
| `Transcriber.DictateHelloWorld` | voice_to_text.py:199-208 | from idle, a press, a loud chunk and a second press type `"hello world"` once and leave the transcriber idle and healthy |
| `Transcriber.DictateTwice` | voice_to_text.py:36-43 | two dictations in a row type `"hello world"` twice: the second start clears what the first left |
| `Transcriber.StopSeenByLoop` | voice_to_text.py:97-101 | a stop seen by the capture loop keeps the chunk read before it, which is then transcribed and typed |
| `Transcriber.InitFailureThenStop` | voice_to_text.py:41-46 | a failed PyAudio creation raises, and the next stop ends with "no audio" |

## Left out

- Opening, reading, stopping and closing the PyAudio stream, and `p.terminate()`, are operating-system I/O. Creating the instance is the `initOk` flag, opening the stream the `setupOk` flag; reads are event values.
- The capture thread, the shared `is_recording` flag and the `time.sleep` calls are concurrency and timing. The threads are serialised, with `Stop` marking the flag being cleared.
- The loss or race of a chunk read while `stop_recording` is already processing the buffer depends on thread timing and cannot be expressed in the serialised model.
- The two `paplay` cues and the 0.5 s pause are fire-and-forget external processes. Their failure only clears `setupOk`.
- The Whisper model load and `transcribe` call, with beam size 5 and voice-activity filtering, are a foreign library. The engine is a function parameter.
- The keyboard listener, `pynput` typing and its failure path are user-interface I/O. `TypeText` only records the string it was given.
- The Ctrl+C shutdown path in `start` is process-level signal handling.
- `Pcm.TooQuietIsMeanBelowThreshold`: float32 rounding in `astype(np.float32) / 32768.0` and `np.abs(...).mean()` is not modelled. The volume test is exact over the integers and reals, an idealisation of the float code.
- Printing, `traceback` output and elapsed-time measurement are logging only.
- The broad `except` in `on_hotkey` only prints. The one exception that reaches it, from creating the PyAudio instance, is `StartRecording`'s `raised` result.
- Decoding assumes a little-endian machine. On a big-endian machine `np.int16` would read each byte pair the other way round.
