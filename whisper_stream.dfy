/** Model of backend/whisper_stream.py: the two byte-buffer policies that
    feed whisper.cpp, and the filter that picks the transcript out of the
    whisper-cli output. The subprocess is an oracle: a function from the
    audio written to the WAV file to the outcome of the run. */
module WhisperStream {
  import opened Common
  import opened PyStr

  const SampleRate := 16000
  /** Bytes per 16-bit sample. */
  const SampleWidth := 2
  /** One second of 16 kHz 16-bit mono audio, in bytes (32000). */
  const OneSecondBytes := SampleRate * SampleWidth
  /** Two seconds of audio (64000 bytes): the context kept after each use of a buffer. */
  const TwoSecondsBytes := SampleRate * SampleWidth * 2
  /** Seconds between two transcriptions of `SimpleWhisperStreamer`. */
  const TranscribeInterval: real := 1.0

  /** What `subprocess.run` gives back: a finished process, or the
      exception it raised (a timeout, a missing executable). */
  datatype ProcessRun = Finished(returncode: int, stdout: string) | Failed(error: string)

  /** A call that either returns a value or raises an exception. */
  datatype Attempt<T> = Done(value: T) | Raised(error: string)

  // ---------------------------------------------------------------------
  // Picking the transcript out of whisper-cli's standard output
  // ---------------------------------------------------------------------

  /** A line is transcript text when it is not blank and does not start
      with `[` (a timestamp or a notice); the `[` test is made on the line
      as it is, before stripping. */
  predicate IsTranscriptLine(line: string) {
    Strip(line) != [] && !StartsWith(line, '[')
  }

  /** `stdout.strip().split('\n')` */
  function OutputLines(stdout: string): seq<string> {
    Split(Strip(stdout))
  }

  /** Index of the first transcript line, or `|lines|` when there is none. */
  function FirstLineIndex(lines: seq<string>): (k: nat)
    ensures k <= |lines|
    ensures forall j :: 0 <= j < k ==> !IsTranscriptLine(lines[j])
    ensures k < |lines| ==> IsTranscriptLine(lines[k])
  {
    if lines == [] then 0
    else if IsTranscriptLine(lines[0]) then 0
    else 1 + FirstLineIndex(lines[1..])
  }

  /** Two indices that both satisfy the characterisation of the first
      transcript line are the same. */
  lemma FirstLineIndexUnique(lines: seq<string>, k: nat)
    requires k <= |lines|
    requires forall j :: 0 <= j < k ==> !IsTranscriptLine(lines[j])
    requires k < |lines| ==> IsTranscriptLine(lines[k])
    ensures FirstLineIndex(lines) == k
  {
  }

  /** What `SimpleWhisperStreamer.transcribe` makes of a finished run: the
      stripped first transcript line, or nothing for a non-zero exit code
      or an output without one. */
  function FirstTranscriptLine(returncode: int, stdout: string): (r: Option<string>)
    ensures r.None? <==> returncode != 0 || FirstLineIndex(OutputLines(stdout)) == |OutputLines(stdout)|
    ensures r.Some? ==> r.value == Strip(OutputLines(stdout)[FirstLineIndex(OutputLines(stdout))])
    ensures r.Some? ==> r.value != [] && Strip(r.value) == r.value
  {
    if returncode != 0 then None
    else
      var lines := OutputLines(stdout);
      var k := FirstLineIndex(lines);
      if k < |lines| then
        var line := lines[k];
        assert IsTranscriptLine(line);
        StripIdempotent(line);
        Some(Strip(line))
      else None
  }

  /** The parse loop of `transcribe`: returns at the first transcript line. */
  method ParseTranscript(returncode: int, stdout: string) returns (r: Option<string>)
    ensures r == FirstTranscriptLine(returncode, stdout)
  {
    if returncode != 0 {
      return None;
    }
    var pieces := OutputLines(stdout);
    for i := 0 to |pieces|
      invariant i <= FirstLineIndex(pieces)
    {
      var line := pieces[i];
      if IsTranscriptLine(line) {
        assert FirstLineIndex(pieces) == i;
        return Some(Strip(line));
      }
    }
    assert FirstLineIndex(pieces) == |pieces|;
    return None;
  }

  // ---------------------------------------------------------------------
  // SimpleWhisperStreamer
  // ---------------------------------------------------------------------

  /** The test of `should_transcribe`: at least one interval since the
      last transcription, and more than one second of audio buffered. */
  predicate Due(buffer: seq<byte>, last: real, now: real) {
    now - last >= TranscribeInterval && |buffer| > SampleRate * 2
  }

  /** The value `transcribe` returns or raises, for the buffer and last
      transcription time it starts from and the clock reading `now` that
      `should_transcribe` takes. */
  function TranscribeResult(buffer: seq<byte>, last: real, now: real,
                            cli: seq<byte> -> ProcessRun): Attempt<Option<string>>
  {
    if !Due(buffer, last, now) then Done(None)
    else match cli(buffer)
      case Failed(e) => Raised(e)
      case Finished(rc, out) => Done(FirstTranscriptLine(rc, out))
  }

  /** The buffer `transcribe` leaves behind: trimmed to its last two
      seconds once whisper-cli has finished, whatever its exit code. */
  function BufferAfter(buffer: seq<byte>, last: real, now: real,
                       cli: seq<byte> -> ProcessRun): (r: seq<byte>)
    ensures IsSuffix(r, buffer)
    ensures Due(buffer, last, now) && cli(buffer).Finished? ==> |r| == Min(|buffer|, TwoSecondsBytes)
    ensures !(Due(buffer, last, now) && cli(buffer).Finished?) ==> r == buffer
  {
    if Due(buffer, last, now) && cli(buffer).Finished? then KeepLast(buffer, TwoSecondsBytes)
    else buffer
  }

  /** A `transcribe` that yields text never yields an empty or unstripped one. */
  lemma TranscribedTextIsStripped(buffer: seq<byte>, last: real, now: real,
                                  cli: seq<byte> -> ProcessRun)
    ensures var res := TranscribeResult(buffer, last, now, cli);
            res.Done? && res.value.Some? ==> res.value.value != [] && Strip(res.value.value) == res.value.value
  {
  }

  /** Accumulates audio and runs whisper-cli on it about once a second. */
  class SimpleWhisperStreamer {
    var audioBuffer: seq<byte>
    var lastTranscribeTime: real
    /** All audio fed since construction or the last reset. */
    ghost var fed: seq<byte>

    /** The buffer always holds the most recent part of the audio fed. */
    ghost predicate Valid()
      reads this
    {
      IsSuffix(audioBuffer, fed)
    }

    constructor ()
      ensures Valid()
      ensures audioBuffer == [] && lastTranscribeTime == 0.0 && fed == []
    {
      audioBuffer := [];
      lastTranscribeTime := 0.0;
      fed := [];
    }

    /** `feed_audio`: the new bytes go at the end; the old buffer is an
        unchanged prefix of the new one. */
    method FeedAudio(audioData: seq<byte>)
      requires Valid()
      modifies this
      ensures Valid()
      ensures audioBuffer == old(audioBuffer) + audioData
      ensures fed == old(fed) + audioData
      ensures lastTranscribeTime == old(lastTranscribeTime)
    {
      SuffixExtend(audioBuffer, fed, audioData);
      audioBuffer := audioBuffer + audioData;
      fed := fed + audioData;
    }

    /** `should_transcribe`, with the clock reading `now` as a parameter. */
    method ShouldTranscribe(now: real) returns (b: bool)
      ensures b <==> now - lastTranscribeTime >= TranscribeInterval && |audioBuffer| > SampleRate * 2
    {
      if now - lastTranscribeTime >= TranscribeInterval {
        return |audioBuffer| > SampleRate * 2;
      }
      return false;
    }

    /** `transcribe`. The clock is read twice: `probeTime` by
        `should_transcribe`, `stampTime` for `last_transcribe_time`.
        whisper-cli reads the whole buffer, written to a WAV file. */
    method Transcribe(probeTime: real, stampTime: real, cli: seq<byte> -> ProcessRun)
      returns (r: Attempt<Option<string>>)
      requires Valid()
      modifies this
      ensures Valid() && fed == old(fed)
      ensures r == TranscribeResult(old(audioBuffer), old(lastTranscribeTime), probeTime, cli)
      ensures audioBuffer == BufferAfter(old(audioBuffer), old(lastTranscribeTime), probeTime, cli)
      ensures lastTranscribeTime
              == if Due(old(audioBuffer), old(lastTranscribeTime), probeTime) then stampTime
                 else old(lastTranscribeTime)
    {
      var due := ShouldTranscribe(probeTime);
      if !due {
        return Done(None);
      }
      lastTranscribeTime := stampTime;
      var run := cli(audioBuffer);
      match run
      case Failed(e) =>
        return Raised(e);
      case Finished(returncode, stdout) =>
        var kept := KeepLast(audioBuffer, TwoSecondsBytes);
        SuffixTrans(kept, audioBuffer, fed);
        audioBuffer := kept;
        var text := ParseTranscript(returncode, stdout);
        return Done(text);
    }

    /** `reset`: clears the buffer and the transcription time. */
    method Reset()
      modifies this
      ensures Valid()
      ensures audioBuffer == [] && lastTranscribeTime == 0.0 && fed == []
    {
      audioBuffer, lastTranscribeTime, fed := [], 0.0, [];
      assert audioBuffer[0..] == [];
    }
  }

  // ---------------------------------------------------------------------
  // WhisperStreamer
  // ---------------------------------------------------------------------

  /** The buffer one pass of `_audio_writer` leaves: the chunk appended,
      then, once there is a second of audio, cut to its last two seconds.
      It never exceeds two seconds and is always the end of what it was
      built from. */
  function WriterKeep(accumulated: seq<byte>, chunk: seq<byte>): (r: seq<byte>)
    ensures |r| <= TwoSecondsBytes
    ensures IsSuffix(r, accumulated + chunk)
    ensures |accumulated + chunk| < OneSecondBytes ==> r == accumulated + chunk
    ensures |accumulated + chunk| >= OneSecondBytes ==> |r| == Min(|accumulated + chunk|, TwoSecondsBytes)
  {
    var grown := accumulated + chunk;
    if |grown| >= OneSecondBytes then KeepLast(grown, TwoSecondsBytes) else grown
  }

  /** The writer's buffer after it has taken `chunks`, in order, starting
      from `accumulated`. */
  function WriterAfter(accumulated: seq<byte>, chunks: seq<seq<byte>>): seq<byte> {
    if chunks == [] then accumulated
    else WriterKeep(WriterAfter(accumulated, chunks[..|chunks| - 1]), chunks[|chunks| - 1])
  }

  /** The frames in the WAV file after the writer has taken `chunks`: those
      of the last pass that reached one second, else `wav` as it was. */
  function WavAfter(accumulated: seq<byte>, wav: seq<byte>, chunks: seq<seq<byte>>): seq<byte> {
    if chunks == [] then wav
    else
      var grown := WriterAfter(accumulated, chunks[..|chunks| - 1]) + chunks[|chunks| - 1];
      if |grown| >= OneSecondBytes then grown else WavAfter(accumulated, wav, chunks[..|chunks| - 1])
  }

  /** Taking one more chunk is one more writer pass. */
  lemma {:induction false} WriterAfterSnoc(accumulated: seq<byte>, wav: seq<byte>, chunks: seq<seq<byte>>, chunk: seq<byte>)
    ensures WriterAfter(accumulated, chunks + [chunk]) == WriterKeep(WriterAfter(accumulated, chunks), chunk)
    ensures WavAfter(accumulated, wav, chunks + [chunk])
            == if |WriterAfter(accumulated, chunks) + chunk| >= OneSecondBytes
               then WriterAfter(accumulated, chunks) + chunk
               else WavAfter(accumulated, wav, chunks)
  {
    assert (chunks + [chunk])[..|chunks|] == chunks;
  }

  /** Whatever the writer has taken, its buffer is the end of the audio it
      started from followed by every chunk taken. */
  lemma {:induction false} WriterAfterSuffix(accumulated: seq<byte>, chunks: seq<seq<byte>>)
    ensures IsSuffix(WriterAfter(accumulated, chunks), accumulated + Flatten(chunks))
  {
    if chunks != [] {
      var init := chunks[..|chunks| - 1];
      var last := chunks[|chunks| - 1];
      WriterAfterSuffix(accumulated, init);
      assert chunks == init + [last];
      FlattenAppend(init, last);
      assert accumulated + Flatten(chunks) == (accumulated + Flatten(init)) + last;
      SuffixExtend(WriterAfter(accumulated, init), accumulated + Flatten(init), last);
      SuffixTrans(WriterAfter(accumulated, chunks), WriterAfter(accumulated, init) + last,
                  accumulated + Flatten(chunks));
    }
  }

  /** Below one second of audio in all, the writer only accumulates: the
      buffer is everything taken and the WAV file is not written. */
  lemma {:induction false} WriterQuietBelowOneSecond(accumulated: seq<byte>, wav: seq<byte>, chunks: seq<seq<byte>>)
    requires |accumulated + Flatten(chunks)| < OneSecondBytes
    ensures WriterAfter(accumulated, chunks) == accumulated + Flatten(chunks)
    ensures WavAfter(accumulated, wav, chunks) == wav
  {
    if chunks != [] {
      var init := chunks[..|chunks| - 1];
      var last := chunks[|chunks| - 1];
      assert chunks == init + [last];
      FlattenAppend(init, last);
      assert accumulated + Flatten(chunks) == (accumulated + Flatten(init)) + last;
      WriterQuietBelowOneSecond(accumulated, wav, init);
    }
  }

  /** The state one pass of `_audio_writer` leaves satisfies the streamer's
      invariant again. */
  lemma {:induction false} WriterStepValid(accumulated: seq<byte>, chunk: seq<byte>, taken: seq<seq<byte>>,
                        writtenAt: nat, wavFrames: seq<byte>)
    requires IsSuffix(accumulated, Flatten(taken))
    requires writtenAt <= |taken| && IsSuffix(wavFrames, Flatten(taken[..writtenAt]))
    ensures IsSuffix(WriterKeep(accumulated, chunk), Flatten(taken + [chunk]))
    ensures IsSuffix(accumulated + chunk, Flatten((taken + [chunk])[..|taken| + 1]))
    ensures IsSuffix(wavFrames, Flatten((taken + [chunk])[..writtenAt]))
  {
    FlattenAppend(taken, chunk);
    SuffixExtend(accumulated, Flatten(taken), chunk);
    SuffixTrans(WriterKeep(accumulated, chunk), accumulated + chunk, Flatten(taken + [chunk]));
    assert (taken + [chunk])[..|taken| + 1] == taken + [chunk];
    assert (taken + [chunk])[..writtenAt] == taken[..writtenAt];
  }

  /** The queue-fed streamer. The writer thread's local `accumulated_audio`
      is the field `accumulated`; the frames last written to the temporary
      WAV file are `wavFrames`. */
  class WhisperStreamer {
    var isRunning: bool
    var audioQueue: seq<seq<byte>>
    var accumulated: seq<byte>
    var wavFrames: seq<byte>
    /** The chunks the writer has taken off the queue since `start`. */
    ghost var taken: seq<seq<byte>>
    /** How many of them had been taken when the WAV file was last written. */
    ghost var writtenAt: nat

    /** The writer keeps at most two seconds, always the latest audio it
        took; the WAV file holds the latest audio as of its last write,
        and at least one second of it once written. */
    ghost predicate Valid()
      reads this
    {
      && |accumulated| <= TwoSecondsBytes
      && IsSuffix(accumulated, Flatten(taken))
      && writtenAt <= |taken|
      && IsSuffix(wavFrames, Flatten(taken[..writtenAt]))
      && (wavFrames == [] || |wavFrames| >= OneSecondBytes)
    }

    constructor ()
      ensures Valid() && !isRunning
      ensures audioQueue == [] && accumulated == [] && wavFrames == [] && taken == []
    {
      isRunning := false;
      audioQueue := [];
      accumulated := [];
      wavFrames := [];
      taken := [];
      writtenAt := 0;
      new;
      assert taken[..0] == [];
    }

    /** `start`: does nothing when already running; otherwise the writer
        starts with an empty buffer and a fresh, empty WAV file. */
    method Start()
      requires Valid()
      modifies this
      ensures Valid() && isRunning
      ensures old(isRunning) ==> unchanged(this)
      ensures !old(isRunning) ==>
        audioQueue == old(audioQueue) && accumulated == [] && wavFrames == [] && taken == []
    {
      if isRunning {
        return;
      }
      isRunning := true;
      accumulated := [];
      wavFrames := [];
      taken := [];
      writtenAt := 0;
    }

    /** `stop`: clears `is_running`; nothing else of the model changes. */
    method Stop()
      requires Valid()
      modifies this
      ensures Valid() && !isRunning
      ensures audioQueue == old(audioQueue) && accumulated == old(accumulated)
      ensures wavFrames == old(wavFrames) && taken == old(taken)
    {
      isRunning := false;
    }

    /** `feed_audio`: enqueues the chunk only while running. */
    method FeedAudio(audioData: seq<byte>)
      requires Valid()
      modifies this
      ensures Valid() && isRunning == old(isRunning)
      ensures audioQueue == if old(isRunning) then old(audioQueue) + [audioData] else old(audioQueue)
      ensures accumulated == old(accumulated) && wavFrames == old(wavFrames) && taken == old(taken)
    {
      if isRunning {
        audioQueue := audioQueue + [audioData];
      }
    }

    /** One pass of the `_audio_writer` loop. While running, a chunk taken
        off the queue is appended; once the buffer holds a second of audio
        it is written to the WAV file and cut to its last two seconds. An
        empty queue (the `get` timing out) or a stopped streamer changes
        nothing. */
    method AudioWriterStep() returns (wrote: bool)
      requires Valid()
      modifies this
      ensures Valid() && isRunning == old(isRunning)
      ensures !old(isRunning) || old(audioQueue) == [] ==> unchanged(this) && !wrote
      ensures old(isRunning) && old(audioQueue) != [] ==>
        var chunk := old(audioQueue)[0];
        && audioQueue == old(audioQueue)[1..]
        && taken == old(taken) + [chunk]
        && wrote == (|old(accumulated) + chunk| >= OneSecondBytes)
        && accumulated == WriterKeep(old(accumulated), chunk)
        && wavFrames == (if wrote then old(accumulated) + chunk else old(wavFrames))
    {
      wrote := false;
      if !isRunning || audioQueue == [] {
        return;
      }
      var chunk := audioQueue[0];
      audioQueue := audioQueue[1..];
      var buffer := accumulated + chunk;
      var frames := wavFrames;
      if |buffer| >= SampleRate * SampleWidth * 1 {
        wrote := true;
        frames := buffer;
        var keepBytes := SampleRate * SampleWidth * 2;
        if |buffer| > keepBytes {
          buffer := KeepLast(buffer, keepBytes);
        }
      }
      WriterStepValid(accumulated, chunk, taken, writtenAt, wavFrames);
      assert buffer == WriterKeep(accumulated, chunk);
      accumulated := buffer;
      wavFrames := frames;
      if wrote {
        writtenAt := |taken| + 1;
      }
      taken := taken + [chunk];
    }

    /** One pass of the writer while running with a chunk queued, as one
        more step of the fold over the chunks drained so far. */
    method TakeNext(ghost acc0: seq<byte>, ghost wav0: seq<byte>, ghost drained: seq<seq<byte>>)
      requires Valid() && isRunning && audioQueue != []
      requires accumulated == WriterAfter(acc0, drained) && wavFrames == WavAfter(acc0, wav0, drained)
      modifies this
      ensures Valid() && isRunning
      ensures audioQueue == old(audioQueue)[1..]
      ensures taken == old(taken) + [old(audioQueue)[0]]
      ensures accumulated == WriterAfter(acc0, drained + [old(audioQueue)[0]])
      ensures wavFrames == WavAfter(acc0, wav0, drained + [old(audioQueue)[0]])
    {
      WriterAfterSnoc(acc0, wav0, drained, audioQueue[0]);
      var wrote := AudioWriterStep();
    }

    /** The `_audio_writer` loop, run until the queue is empty (where the
        thread would wait on the queue) or the streamer is stopped. */
    method RunAudioWriter()
      requires Valid()
      modifies this
      ensures Valid() && isRunning == old(isRunning)
      ensures old(isRunning) ==> audioQueue == [] && taken == old(taken) + old(audioQueue)
      ensures old(isRunning) ==> accumulated == WriterAfter(old(accumulated), old(audioQueue))
      ensures old(isRunning) ==> wavFrames == WavAfter(old(accumulated), old(wavFrames), old(audioQueue))
      ensures !old(isRunning) ==> unchanged(this)
    {
      if !isRunning {
        return;
      }
      ghost var acc0, wav0, queue0, taken0 := accumulated, wavFrames, audioQueue, taken;
      ghost var n: nat := 0;
      while audioQueue != []
        invariant Valid() && isRunning
        invariant n <= |queue0| && audioQueue == queue0[n..]
        invariant taken == taken0 + queue0[..n]
        invariant accumulated == WriterAfter(acc0, queue0[..n])
        invariant wavFrames == WavAfter(acc0, wav0, queue0[..n])
        decreases |audioQueue|
      {
        assert queue0[..n + 1] == queue0[..n] + [queue0[n]];
        TakeNext(acc0, wav0, queue0[..n]);
        n := n + 1;
      }
      assert queue0[..n] == queue0;
    }
  }
}
