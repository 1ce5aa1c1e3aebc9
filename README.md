# Live transcription backend, modelled in Dafny

This project models the Python backend of a live speech-to-text demo. A
browser streams 16 kHz, 16-bit mono PCM over a WebSocket. The server feeds
each chunk either to Vosk or to whisper.cpp, and replies with a tagged
result. A benchmark script compares the two engines on a recorded file.
What is modelled is the deterministic part between those foreign calls:
- the byte buffers that feed whisper.cpp;
- the filter that picks the transcript out of whisper-cli's output;
- the per-connection message loop and the process-wide active-model
  switch;
- the bounded history of chunk-processing times;
- the benchmark's chunking and transcript assembly, and its winner rule.

Vosk, the whisper-cli subprocess and the clock are oracles, passed in as
parameters:
- The subprocess is a function from the audio written to the WAV file to
  `ProcessRun`: `Finished(returncode, stdout)`, or `Failed(error)` when
  `subprocess.run` raises.
- In the server, each binary chunk carries its environment (`ChunkEnv`).
  Vosk is a function of every chunk the current recogniser has been given.
  It returns whether `AcceptWaveform` accepted the chunk together with the
  decoded `Result()`/`PartialResult()`, or the exception it raised. A reset
  makes a recogniser that has heard nothing, so the answers after a reset
  depend only on the chunks that came after it.
- In the benchmark, Vosk's answers are a function of the chunks it has been
  fed so far.
- Python's `str.strip`, `split('\n')`, `sep.join` and `startswith` are
  defined on `seq<char>` in `PyStr`. Whitespace is the set of code points
  for which `str.isspace` holds.

Files:
- `common.dfy` (`Common`): bytes, `Option`, the two engines, Python's
  `s[-n:]` (`KeepLast`), suffixes and the concatenation of chunk lists.
- `pystr.dfy` (`PyStr`): the string operations.
- `whisper_stream.dfy` (`WhisperStream`): `SimpleWhisperStreamer`, the
  `WhisperStreamer` writer step, and the parse of whisper-cli's output.
- `main.dfy` (`Backend`): `PerformanceMonitor`, the two transcribers,
  `set_model` and `websocket_transcribe`.
- `benchmark.dfy` (`Benchmark`): `benchmark_vosk`, the transcript assembly
  of `benchmark_whisper`, and `compare_models`.

## Model

| member | source | states |
|---|---|---|
| Common.KeepLast | backend/whisper_stream.py:233-234 | `buffer[-n:]` has `min(len, n)` elements and is a suffix of `buffer` |
| PyStr.TrimLeft | backend/whisper_stream.py:238 | the left half of `strip()`: a suffix of the input that is empty or starts with a non-space |
| PyStr.TrimLeftSpaces | backend/whisper_stream.py:238 | everything the left trim drops is whitespace |
| PyStr.TrimRight | backend/whisper_stream.py:238 | the right half of `strip()`: a prefix of the input that is empty or ends with a non-space |
| PyStr.TrimRightSpaces | backend/whisper_stream.py:238 | everything the right trim drops is whitespace |
| PyStr.Strip | backend/whisper_stream.py:238-241 | `strip()` returns a string that is empty or has no whitespace at either end |
| PyStr.StripFramed | backend/whisper_stream.py:238-241 | `strip()` returns a contiguous stretch of its input, and only whitespace lies outside it |
| PyStr.StripStripped | backend/whisper_stream.py:240-241 | a string with no whitespace at either end is its own `strip()` |
| PyStr.StripIdempotent | backend/whisper_stream.py:240-241 | `strip()` is idempotent |
| PyStr.StripTrailingSpace | backend/benchmark.py:123-140 | a tidy non-empty string followed by one space strips back to itself |
| PyStr.IndexOf | backend/whisper_stream.py:238 | the newline search returns the first occurrence, or the length when there is none |
| PyStr.IsSpace | backend/whisper_stream.py:238 | defines the characters `str.isspace` accepts, written out by code point |
| PyStr.Split | backend/whisper_stream.py:238 | `split('\n')` always yields at least one piece (`"".split('\n') == [""]`) |
| PyStr.SplitPieces | backend/whisper_stream.py:238 | no piece of `split('\n')` contains a newline |
| PyStr.JoinSplit | backend/whisper_stream.py:238 | joining the pieces of `split('\n')` with newlines gives back the string |
| PyStr.SplitJoin | backend/whisper_stream.py:238 | splitting a newline-join of newline-free pieces gives the pieces back |
| PyStr.StartsWith | backend/whisper_stream.py:240 | defines `str.startswith` on a prefix |
| PyStr.Join | backend/benchmark.py:82 | defines `sep.join`: the pieces with `sep` between consecutive ones |
| PyStr.JoinAppend | backend/benchmark.py:82 | `' '.join(xs + [x]) == ' '.join(xs) + ' ' + x` for non-empty `xs` |
| WhisperStream.OutputLines | backend/whisper_stream.py:238 | defines `stdout.strip().split('\n')` |
| WhisperStream.IsTranscriptLine | backend/whisper_stream.py:239-240 | defines a qualifying line: non-blank after `strip()` and not starting with `[` |
| WhisperStream.FirstLineIndex | backend/whisper_stream.py:239-241 | the index of the first line that is non-blank and does not start with `[`, or the number of lines when there is none |
| WhisperStream.FirstLineIndexUnique | backend/whisper_stream.py:239-241 | that characterisation fixes the index |
| WhisperStream.FirstTranscriptLine | backend/whisper_stream.py:236-243 | none exactly when the exit code is non-zero or no line qualifies; otherwise the stripped first qualifying line, tested with `[` before stripping; the text is non-empty and already stripped |
| WhisperStream.ParseTranscript | backend/whisper_stream.py:236-243 | the for-loop with early return computes `FirstTranscriptLine` |
| WhisperStream.Due | backend/whisper_stream.py:190-195 | defines `should_transcribe`: at least 1.0 s since the last transcription and more than 32000 bytes buffered |
| WhisperStream.TranscribeResult | backend/whisper_stream.py:197-243 | defines what `transcribe` returns: none when not due, the subprocess's exception, or the parsed first line |
| WhisperStream.BufferAfter | backend/whisper_stream.py:199-234 | after a finished run, whatever its exit code, the buffer is its last `min(len, 64000)` bytes; it is unchanged when not due or when the run raised |
| WhisperStream.TranscribedTextIsStripped | backend/whisper_stream.py:240-241 | text returned by `transcribe` is never empty and is already stripped |
| WhisperStream.SimpleWhisperStreamer.constructor | backend/whisper_stream.py:181-184 | empty buffer, last transcription time 0 |
| WhisperStream.SimpleWhisperStreamer.FeedAudio | backend/whisper_stream.py:186-188 | the new bytes are appended, the old buffer is an unchanged prefix, the time is untouched |
| WhisperStream.SimpleWhisperStreamer.ShouldTranscribe | backend/whisper_stream.py:190-195 | due exactly when `now - last >= 1.0` and the buffer holds more than 32000 bytes |
| WhisperStream.SimpleWhisperStreamer.Transcribe | backend/whisper_stream.py:197-243 | when not due, returns none and changes nothing; otherwise stamps the time, then raises the subprocess's exception or trims the buffer and returns the parsed line; the buffer stays a suffix of all audio fed |
| WhisperStream.SimpleWhisperStreamer.Reset | backend/whisper_stream.py:252-255 | empty buffer and last transcription time 0 |
| WhisperStream.WriterKeep | backend/whisper_stream.py:98-111 | one writer pass leaves at most 64000 bytes, always a suffix of the old buffer plus the chunk; below 32000 bytes nothing is cut, and from 32000 bytes on the last `min(len, 64000)` bytes are kept |
| WhisperStream.WriterAfter | backend/whisper_stream.py:94-111 | defines the writer buffer after a sequence of chunks, one `WriterKeep` pass each, in queue order |
| WhisperStream.WavAfter | backend/whisper_stream.py:94-111 | defines the WAV contents after a sequence of chunks: the buffer of the last pass that reached 32000 bytes, or the old contents when none did |
| WhisperStream.WriterAfterSnoc | backend/whisper_stream.py:94-111 | one more chunk is one more writer pass on the buffer, and rewrites the WAV contents exactly when the grown buffer reaches 32000 bytes |
| WhisperStream.WriterAfterSuffix | backend/whisper_stream.py:98-111 | after any number of passes the buffer is a suffix of the old buffer followed by all the chunks |
| WhisperStream.WriterQuietBelowOneSecond | backend/whisper_stream.py:101-111 | while fewer than 32000 bytes have arrived in all, the buffer is everything so far and the WAV file is not rewritten |
| WhisperStream.WriterStepValid | backend/whisper_stream.py:97-111 | after one pass the buffer is still a suffix of all chunks taken, and the WAV contents a suffix of the chunks taken when it was written |
| WhisperStream.WhisperStreamer.constructor | backend/whisper_stream.py:34-37 | not running, empty queue |
| WhisperStream.WhisperStreamer.Start | backend/whisper_stream.py:40-53 | a no-op when already running; otherwise running, with an empty writer buffer and the queue kept |
| WhisperStream.WhisperStreamer.Stop | backend/whisper_stream.py:59-61 | `is_running` false, nothing else changes |
| WhisperStream.WhisperStreamer.FeedAudio | backend/whisper_stream.py:74-77 | the chunk is enqueued only while running |
| WhisperStream.WhisperStreamer.AudioWriterStep | backend/whisper_stream.py:94-114 | stopped or empty queue: nothing changes; otherwise the head chunk is taken and appended; at 32000 bytes or more it is written out and cut to the last 64000 bytes; the invariant (at most 64000 bytes, a suffix of all chunks taken) holds |
| WhisperStream.WhisperStreamer.TakeNext | backend/whisper_stream.py:94-114 | one pass on the head chunk advances the buffer and the WAV contents by one step of their folds |
| WhisperStream.WhisperStreamer.RunAudioWriter | backend/whisper_stream.py:94-114 | while running, the loop drains the queue in order and keeps the invariant; the buffer is `WriterAfter` and the WAV contents `WavAfter` of the old buffer over the old queue; when stopped nothing changes |
| Backend.KeepLastAppend | backend/main.py:69-73 | append then drop the oldest past 100 keeps the last 100 of the longer history |
| Backend.PerformanceMonitor.constructor | backend/main.py:48-52 | empty history |
| Backend.PerformanceMonitor.RecordChunkTime | backend/main.py:69-73 | the duration becomes the last entry; the history is always the last `min(n, 100)` durations recorded, in order |
| Backend.Get | backend/main.py:104 | defines `dict.get(key, default)` |
| Backend.VoskText | backend/main.py:104 | text from `"text"`, else from `"partial"`, else `""` |
| Backend.VoskReply | backend/main.py:92-104 | `final` exactly when `AcceptWaveform` accepted the chunk, else `partial`, never `buffering` |
| Backend.WhisperReply | backend/main.py:139-141 | `partial` exactly when the streamer returned non-empty text, with that text; otherwise `buffering` with `""`; never `final` |
| Backend.VoskChunkResult | backend/main.py:92-104 | defines what Vosk's `process_chunk` returns: the recogniser's exception, or the reply `VoskReply` builds from its answer to all chunks heard |
| Backend.WhisperChunkResult | backend/main.py:130-141 | defines what Whisper's `process_chunk` returns: the streamer's exception, or the reply `WhisperReply` builds from `transcribe`'s result |
| Backend.WhisperBufferingMeansNoText | backend/main.py:130-141 | a Whisper result is `buffering` exactly when the streamer returned nothing |
| Backend.FreshState | backend/main.py:79-85 | a new transcriber of the requested kind has recorded nothing |
| Backend.ResetState | backend/main.py:109-112 | `reset` keeps the kind and the monitor history; Vosk has heard nothing, the Whisper buffer is empty and its time 0 |
| Backend.ChunkResult | backend/main.py:87-143 | defines what `process_chunk` returns from a transcriber state, for either kind |
| Backend.ChunkState | backend/main.py:87-143 | `process_chunk` keeps the kind and records the time exactly when no exception was raised |
| Backend.WhisperThrottled | backend/main.py:130-141 | within one interval of the last transcription a Whisper chunk is only buffered: reply `buffering`, time stamp unchanged, time recorded |
| Backend.VoskResetForgets | backend/main.py:109-112 | after a reset, Vosk answers as a recogniser that has heard only the new chunk |
| Backend.VoskTranscriber.constructor | backend/main.py:79-85 | a fresh recogniser and monitor |
| Backend.VoskTranscriber.ProcessChunk | backend/main.py:87-107 | the recogniser has heard the chunk; the result is its exception or follows `VoskReply` on its answer to all chunks heard; the time is recorded exactly when no exception was raised |
| Backend.VoskTranscriber.Reset | backend/main.py:109-112 | a recogniser that has heard nothing |
| Backend.WhisperTranscriber.constructor | backend/main.py:118-123 | a fresh monitor and an empty streamer |
| Backend.WhisperTranscriber.ProcessChunk | backend/main.py:125-143 | the chunk is fed, then `transcribe` runs; its exception propagates with no time recorded; otherwise the reply follows `WhisperReply` and the time is recorded; the new buffer is `BufferAfter` and the time stamp moves exactly when a transcription was due |
| Backend.WhisperTranscriber.Reset | backend/main.py:145-147 | the streamer is cleared |
| Backend.NewTranscriber | backend/main.py:195-198 | a fresh transcriber of the requested kind, in the state `FreshState` |
| Backend.ProcessChunk | backend/main.py:206-213 | the transcriber of either kind returns `ChunkResult` and moves to `ChunkState` of its old state |
| Backend.ResetTranscriber | backend/main.py:249-251 | the transcriber of either kind moves to `ResetState` of its old state, which keeps its monitor history |
| Backend.ModelNamed | backend/main.py:226 | accepts only `"vosk"` and `"whisper"`, each naming its own engine |
| Backend.ModelNameRoundTrip | backend/main.py:226 | each engine's API name is accepted as that engine |
| Backend.RequestedModel | backend/main.py:170-171 | a missing key means `"vosk"`; otherwise only the two names are accepted |
| Backend.Lookup | backend/main.py:220-225 | defines `message.get(key)`, with a missing key as none |
| Backend.Classify | backend/main.py:220-226 | `reset` exactly when the action is `"reset"`; a switch exactly when the action is `"switch_model"` and the model names an engine; anything else is ignored |
| Backend.PlainConcat | backend/main.py:202-239 | concatenating two runs of ordinary replies gives ordinary replies |
| Backend.StoppedBy | backend/main.py:204-243 | defines which message can end the loop which way: a disconnect, invalid JSON, a non-object, or a chunk whose transcriber raised |
| Backend.StepConn | backend/main.py:204-239 | defines one pass of the receive loop on the model and the transcriber state: the reply sent, and whether and how the loop ends |
| Backend.StepConnFacts | backend/main.py:204-239 | a pass follows the model switch, sends the replies owed, never a greeting or an error, stops exactly on a disconnect, a malformed frame or a raising chunk, and keeps the transcriber kind equal to the model |
| Backend.RunConn | backend/main.py:202-239 | defines the loop over the received messages: each in turn until one ends it; later messages are not read |
| Backend.RunConnStopped | backend/main.py:202-243 | messages after the one that ended the loop change nothing |
| Backend.RunConnFacts | backend/main.py:202-243 | no message handled before the last ends the loop; a stopped loop's last message is the one that stopped it; a listening loop has read everything; the model follows the switches in order; one reply or error per chunk, reset, valid switch and malformed frame |
| Backend.SentFacts | backend/main.py:189-248 | a connection greets once, first; sends an error only last and only after an exception; one message besides the greeting per reply owed |
| Backend.Server.constructor | backend/main.py:33 | the default model is Vosk |
| Backend.Server.SetModel | backend/main.py:167-175 | switches to, and reports, a valid requested model; otherwise reports an invalid model and leaves `current_model` unchanged |
| Backend.Server.Dispatch | backend/main.py:204-239 | one received message does to the model, the transcriber and the messages sent what `StepConn` says; the transcriber stays of the active kind |
| Backend.Server.ReceiveLoop | backend/main.py:202-239 | the loop computes `RunConn` from the model and transcriber state it starts with |
| Backend.Server.Serve | backend/main.py:178-251 | the connection sends the greeting, `RunConn`'s replies and an error after an exception; an ending connection's transcriber is `ResetState` of the loop's last state; and every fact of `SentFacts` and `RunConnFacts` about the greeting, the error, the count, the model and where the loop stopped |
| Benchmark.Chunks | backend/benchmark.py:39-40 | defines the slices `audio_data[i:i + chunk_size]` for `i` in `range(0, len, chunk_size)` |
| Benchmark.ChunksConcat | backend/benchmark.py:39-40 | the chunks concatenate back to the audio |
| Benchmark.ChunksCount | backend/benchmark.py:39-40 | there are `ceil(len / chunk_size)` chunks: none for no audio, otherwise `(n - 1) * size < len <= n * size` |
| Benchmark.ChunksShape | backend/benchmark.py:39-40 | every chunk is non-empty and at most `chunk_size` long; all but the last are exactly `chunk_size` |
| Benchmark.ChunksStep | backend/benchmark.py:39-40 | the slice at `i` followed by the chunks from `i + chunk_size` are the chunks from `i` |
| Benchmark.TextOf | backend/benchmark.py:46-47 | `result.get('text')`, with a missing text as `""` |
| Benchmark.Fed | backend/benchmark.py:39-40 | defines the chunks fed for any `chunk_size`: none for a negative one, as `range` yields nothing |
| Benchmark.CollectedTexts | backend/benchmark.py:44-47 | at most one text per chunk, none empty |
| Benchmark.ChunkTimes | backend/benchmark.py:51-52 | one recorded time per chunk |
| Benchmark.ChunkTimesAt | backend/benchmark.py:42-52 | the time of chunk `k` is the one measured while chunk `k` was fed |
| Benchmark.VoskTexts | backend/benchmark.py:44-57 | defines the texts of a run: the non-empty accepted texts, then the non-empty final text |
| Benchmark.VoskTextsNonEmpty | backend/benchmark.py:44-57 | no joined text is empty; there is at most one more text than there are chunks |
| Benchmark.FeedChunks | backend/benchmark.py:39-52 | the loop feeds exactly the chunks, in order, with one time per chunk, and collects the non-empty accepted texts |
| Benchmark.BenchmarkVosk | backend/benchmark.py:39-82 | raises exactly when `chunk_size` is zero (`range`) or the audio is empty (the RTF divides by a zero duration); otherwise the chunk times match the chunks and the transcription is the `' '`-join of the non-empty accepted texts, then the non-empty final text |
| Benchmark.Qualified | backend/benchmark.py:121-123 | the stripped qualifying lines, each non-empty with no whitespace at either end |
| Benchmark.TranscriptLines | backend/benchmark.py:119-123 | defines the kept lines: none on a non-zero exit code, else the stripped qualifying lines |
| Benchmark.Terminated | backend/benchmark.py:123 | defines the lines each followed by one space |
| Benchmark.TerminatedJoin | backend/benchmark.py:123 | the lines each followed by a space are their `' '`-join with one trailing space |
| Benchmark.JoinTidy | backend/benchmark.py:140 | a `' '`-join of tidy pieces has no whitespace at either end |
| Benchmark.TerminatedStrip | backend/benchmark.py:123-140 | the final `strip()` removes exactly the trailing space |
| Benchmark.TerminatedStep | backend/benchmark.py:121-123 | one loop pass adds the stripped line and a space exactly when the line qualifies |
| Benchmark.AppendLines | backend/benchmark.py:121-123 | the `+=` loop builds each qualifying stripped line followed by a space |
| Benchmark.WhisperTranscription | backend/benchmark.py:118-140 | empty on a non-zero exit code; otherwise the stripped qualifying lines joined by single spaces, with no trailing space |
| Benchmark.FirstLineIndexSnoc | backend/benchmark.py:121-122 | adding a line moves the first qualifying line only when there was none |
| Benchmark.QualifiedHead | backend/benchmark.py:121-123 | the first kept line is the first qualifying line; none are kept exactly when none qualify |
| Benchmark.StreamerLineStartsBenchmark | backend/benchmark.py:119-123 | for the same output, the live streamer returns exactly the first line the benchmark keeps |
| Benchmark.Winner | backend/benchmark.py:158-161 | Vosk exactly when its RTF is strictly lower; a tie goes to Whisper |
| Benchmark.WinnerNotSlower | backend/benchmark.py:158-161 | the winner's RTF is never higher than the other's |

## Left out

- Threads, the `queue.Queue` timeouts and blocking, and `_run_whisper` with its process polling, are concurrency. The writer is modelled as single passes over a queue held in a field. `RunAudioWriter` stops when the queue is empty, where the thread would wait.
- `WhisperStreamer.get_result`, the result queue and `process`/`temp_wav_path` handling in `start`/`stop` are not modelled. The WAV file is modelled only as the frames last written to it.
- I/O is not modelled:
  - WAV writing and reading, temporary files and `os.unlink`;
  - the whisper-cli and taskpolicy command lines and the subprocess itself, which is an oracle;
  - any exception from writing a WAV file, including the one `_audio_writer` prints and skips.
- Vosk's `Model` and `KaldiRecognizer` are oracles. `SetWords`, `FinalResult` parsing beyond its `text` and the unused `partial` in `benchmark_vosk` are not modelled.
- The clock is passed in as `real` values. `transcribe` reads it twice: `probeTime` for `should_transcribe` and `stampTime` for the stamp.
- The metrics are not modelled, because they are floating-point numerics and host probes:
  - `get_metrics`, with psutil CPU and memory, `numpy.mean` and `round`;
  - durations, RTF divisions and the "faster by" ratio;
  - `processing_time_ms`, `start_time` and `token_counts`.

  RTF values are ordered reals.
- FastAPI and uvicorn routing, CORS, `/` and `GET /api/model`, startup, printing, and JSON encoding and decoding are not modelled:
  - Received messages are the `Inbound` datatype. A text frame is already classified as a JSON object, another JSON value or invalid JSON.
  - A JSON value is either a string or something else, so a non-string model name is simply not a valid one.
  - `set_model`'s invalid-model reply is the tuple `({"error": "Invalid model"}, 400)`. FastAPI would encode it as a JSON array with status 200, not as a 400 response. The model keeps only the `InvalidModel` outcome, not the encoding.
- The text of `str(e)` in error messages is abstracted to a `Fault` value. A failure to send that message, which the server ignores, is not modelled.
- A disconnect is modelled as the `WebSocketDisconnect` exception raised by `receive`. The framework's own handling of a disconnect message is not part of this model.
- `VoskTranscriber`'s `RuntimeError` when no Vosk model is loaded is not modelled. Startup loads the model or the server never starts.
- `load_test_audio`, `main()`, `benchmark_results.json`, and `benchmark_whisper`'s timing and audio-duration reading are I/O.
- `Backend.Server.Serve` models one connection over a finite list of received messages. "Listening" means the list ran out while the loop was still waiting.
- Backend.Server.ReceiveLoop: `current_model` is one global shared by every connection and by `POST /api/model`, and any of them may change it while this loop is suspended at an `await`. The model assumes no other connection or request runs meanwhile, so its promise that the transcriber's kind equals `current_model` holds only for a connection served alone. Nothing in the source keeps the two equal in general.
- Benchmark.BenchmarkVosk: the benchmark's recogniser always answers. An exception from `AcceptWaveform` or `FinalResult` is not modelled there, unlike the server's Vosk, which may raise.
- `benchmark_whisper` reads its audio duration from the WAV file, so its own division by a zero duration, and the zero RTF that `compare_models` could divide by, are I/O and floating-point concerns that are not modelled.
- Python's whitespace set is written out by code point, with no Unicode database. Bytes are values 0 to 255, and the PCM sample structure is not interpreted.
