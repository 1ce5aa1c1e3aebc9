/** Model of backend/benchmark.py: cutting the test recording into
    fixed-size chunks for Vosk, collecting the texts Vosk returns, building
    the Whisper transcription from the whisper-cli output, and picking the
    faster model. Vosk, whisper-cli and the clock are oracles. */
module Benchmark {
  import opened Common
  import opened PyStr
  import opened WhisperStream

  // ---------------------------------------------------------------------
  // Chunking
  // ---------------------------------------------------------------------

  /** The slices `audio[i:i + size]` for `i` in `range(0, len(audio), size)`,
      in order. */
  function Chunks(audio: seq<byte>, size: nat): seq<seq<byte>>
    requires size > 0
    decreases |audio|
  {
    if audio == [] then []
    else if |audio| <= size then [audio]
    else [audio[..size]] + Chunks(audio[size..], size)
  }

  /** The chunks put back together are the recording. */
  lemma {:induction false} ChunksConcat(audio: seq<byte>, size: nat)
    requires size > 0
    ensures Flatten(Chunks(audio, size)) == audio
    decreases |audio|
  {
    if |audio| > size {
      var rest := Chunks(audio[size..], size);
      ChunksConcat(audio[size..], size);
      assert ([audio[..size]] + rest)[1..] == rest;
      assert audio == audio[..size] + audio[size..];
    } else if audio != [] {
      assert [audio][1..] == [];
    }
  }

  /** There are `ceil(len(audio) / size)` chunks: none for an empty
      recording, otherwise the least count whose `size`-byte slots hold it. */
  lemma {:induction false} ChunksCount(audio: seq<byte>, size: nat)
    requires size > 0
    ensures |Chunks(audio, size)| == 0 <==> audio == []
    ensures audio != [] ==> (|Chunks(audio, size)| - 1) * size < |audio| <= |Chunks(audio, size)| * size
    decreases |audio|
  {
    if |audio| > size {
      ChunksCount(audio[size..], size);
      var m := |Chunks(audio[size..], size)|;
      assert |Chunks(audio, size)| == m + 1;
      assert (m + 1) * size == m * size + size;
      assert (m - 1) * size == m * size - size;
    }
  }

  /** Every chunk is non-empty and at most `size` long, and every chunk
      but the last is exactly `size` long. */
  ghost predicate WellCut(c: seq<seq<byte>>, size: nat) {
    forall k :: 0 <= k < |c| ==> 0 < |c[k]| <= size && (k < |c| - 1 ==> |c[k]| == size)
  }

  lemma {:induction false} ChunksShape(audio: seq<byte>, size: nat)
    requires size > 0
    ensures WellCut(Chunks(audio, size), size)
    decreases |audio|
  {
    if |audio| > size {
      var rest := Chunks(audio[size..], size);
      ChunksShape(audio[size..], size);
      var c := Chunks(audio, size);
      assert c == [audio[..size]] + rest;
      forall k | 0 <= k < |c|
        ensures 0 < |c[k]| <= size && (k < |c| - 1 ==> |c[k]| == size)
      {
        if k > 0 {
          assert c[k] == rest[k - 1];
        }
      }
    }
  }

  /** Slicing off the chunk at `i` leaves the chunks of the rest. */
  lemma {:induction false} ChunksStep(audio: seq<byte>, i: nat, size: nat)
    requires size > 0 && i < |audio|
    ensures Chunks(audio[i..], size)
            == [audio[i..Min(i + size, |audio|)]] + Chunks(audio[Min(i + size, |audio|)..], size)
  {
    if |audio| - i > size {
      assert audio[i..][..size] == audio[i..i + size];
      assert audio[i..][size..] == audio[i + size..];
    } else {
      assert audio[i..Min(i + size, |audio|)] == audio[i..];
      assert audio[|audio|..] == [];
    }
  }

  // ---------------------------------------------------------------------
  // benchmark_vosk
  // ---------------------------------------------------------------------

  /** What Vosk and the clock give for one chunk: whether `AcceptWaveform`
      took it, the decoded `Result()` (read only when it did) and the
      seconds the chunk took. */
  datatype VoskAnswer = VoskAnswer(accepted: bool, result: map<string, string>, elapsed: real)

  /** The per-chunk times and the joined transcription of a Vosk run. */
  datatype VoskRun = VoskRun(chunkTimes: seq<real>, transcription: string)

  /** `result.get('text')`, with a missing text read as `""`: both are
      false as a condition. */
  function TextOf(result: map<string, string>): (t: string)
    ensures "text" in result ==> t == result["text"]
    ensures "text" !in result ==> t == ""
  {
    if "text" in result then result["text"] else ""
  }

  /** The chunks the loop feeds: none when `range` is empty because the
      step is negative. */
  function Fed(audio: seq<byte>, chunkSize: int): seq<seq<byte>> {
    if chunkSize > 0 then Chunks(audio, chunkSize) else []
  }

  /** The texts collected while `fed` is fed, chunk by chunk: the
      non-empty text of the result of each accepted chunk. The recogniser
      answers as a function of everything it has been fed. */
  function CollectedTexts(fed: seq<seq<byte>>, recognize: seq<seq<byte>> -> VoskAnswer): (r: seq<string>)
    ensures |r| <= |fed|
    ensures forall k :: 0 <= k < |r| ==> r[k] != ""
  {
    if fed == [] then []
    else
      var answer := recognize(fed);
      CollectedTexts(fed[..|fed| - 1], recognize)
      + (if answer.accepted && TextOf(answer.result) != "" then [TextOf(answer.result)] else [])
  }

  /** The time recorded for each chunk fed, in order. */
  function ChunkTimes(fed: seq<seq<byte>>, recognize: seq<seq<byte>> -> VoskAnswer): (r: seq<real>)
    ensures |r| == |fed|
  {
    if fed == [] then [] else ChunkTimes(fed[..|fed| - 1], recognize) + [recognize(fed).elapsed]
  }

  /** The time of chunk `k` is the one measured when the recogniser had
      been fed the chunks up to and including it. */
  lemma {:induction false} ChunkTimesAt(fed: seq<seq<byte>>, recognize: seq<seq<byte>> -> VoskAnswer, k: nat)
    requires k < |fed|
    ensures ChunkTimes(fed, recognize)[k] == recognize(fed[..k + 1]).elapsed
  {
    if k < |fed| - 1 {
      ChunkTimesAt(fed[..|fed| - 1], recognize, k);
      assert fed[..|fed| - 1][..k + 1] == fed[..k + 1];
    } else {
      assert fed[..k + 1] == fed;
    }
  }

  /** All texts of a run: the collected ones, then the non-empty text of
      `FinalResult()`. */
  function VoskTexts(fed: seq<seq<byte>>, recognize: seq<seq<byte>> -> VoskAnswer,
                     finalize: seq<seq<byte>> -> map<string, string>): seq<string>
  {
    CollectedTexts(fed, recognize)
    + (if TextOf(finalize(fed)) != "" then [TextOf(finalize(fed))] else [])
  }

  /** No text of a run is empty, so the joined transcription has no doubled
      or dangling separators. */
  lemma VoskTextsNonEmpty(fed: seq<seq<byte>>, recognize: seq<seq<byte>> -> VoskAnswer,
                          finalize: seq<seq<byte>> -> map<string, string>)
    ensures var ts := VoskTexts(fed, recognize, finalize);
            |ts| <= |fed| + 1 && forall k :: 0 <= k < |ts| ==> ts[k] != ""
  {
  }

  /** The chunking loop and result collection of `benchmark_vosk`. A zero
      `chunk_size` makes `range` raise; empty audio has a zero duration,
      so the real-time factor divides by zero once the final result is
      in. */
  method BenchmarkVosk(audio: seq<byte>, chunkSize: int,
                       recognize: seq<seq<byte>> -> VoskAnswer,
                       finalize: seq<seq<byte>> -> map<string, string>) returns (r: Attempt<VoskRun>)
    ensures r.Raised? <==> chunkSize == 0 || audio == []
    ensures r.Done? ==> r.value.chunkTimes == ChunkTimes(Fed(audio, chunkSize), recognize)
    ensures r.Done? ==> r.value.transcription == Join(" ", VoskTexts(Fed(audio, chunkSize), recognize, finalize))
  {
    if chunkSize == 0 {
      return Raised("range() arg 3 must not be zero");
    }
    var chunkTimes: seq<real> := [];
    var results: seq<string> := [];
    // The chunks the recogniser has been given.
    var fed: seq<seq<byte>> := [];
    if chunkSize > 0 {
      fed, chunkTimes, results := FeedChunks(audio, chunkSize, recognize);
    }
    assert fed == Fed(audio, chunkSize) && results == CollectedTexts(fed, recognize);
    var finalResult := finalize(fed);
    if TextOf(finalResult) != "" {
      results := results + [finalResult["text"]];
    }
    assert results == VoskTexts(fed, recognize, finalize);
    if |audio| == 0 {
      return Raised("float division by zero");
    }
    return Done(VoskRun(chunkTimes, Join(" ", results)));
  }

  /** The `for` loop of `benchmark_vosk` for a positive `chunk_size`. */
  method FeedChunks(audio: seq<byte>, chunkSize: nat, recognize: seq<seq<byte>> -> VoskAnswer)
    returns (fed: seq<seq<byte>>, chunkTimes: seq<real>, results: seq<string>)
    requires chunkSize > 0
    ensures fed == Chunks(audio, chunkSize)
    ensures chunkTimes == ChunkTimes(fed, recognize)
    ensures results == CollectedTexts(fed, recognize)
  {
    fed, chunkTimes, results := [], [], [];
    var i := 0;
    while i < |audio|
      invariant 0 <= i
      invariant Chunks(audio, chunkSize) == fed + Chunks(audio[Min(i, |audio|)..], chunkSize)
      invariant chunkTimes == ChunkTimes(fed, recognize)
      invariant results == CollectedTexts(fed, recognize)
      decreases |audio| - i
    {
      var next := Min(i + chunkSize, |audio|);
      var chunk := audio[i..next];
      ChunksStep(audio, i, chunkSize);
      assert Chunks(audio, chunkSize) == (fed + [chunk]) + Chunks(audio[next..], chunkSize);
      ghost var before := fed;
      fed := fed + [chunk];
      assert fed[..|fed| - 1] == before;
      var answer := recognize(fed);
      if answer.accepted {
        var result := answer.result;
        if TextOf(result) != "" {
          results := results + [result["text"]];
        }
      }
      chunkTimes := chunkTimes + [answer.elapsed];
      i := i + chunkSize;
    }
    assert Chunks(audio[Min(i, |audio|)..], chunkSize) == [];
    assert fed + [] == fed;
  }

  // ---------------------------------------------------------------------
  // benchmark_whisper
  // ---------------------------------------------------------------------

  /** A non-empty string with no whitespace at either end, as `strip()`
      leaves a non-blank line. */
  predicate Tidy(x: string) {
    x != [] && !IsSpace(x[0]) && !IsSpace(x[|x| - 1])
  }

  /** The stripped transcript lines of `lines`, in order. */
  function Qualified(lines: seq<string>): (r: seq<string>)
    ensures |r| <= |lines|
    ensures forall k :: 0 <= k < |r| ==> Tidy(r[k])
  {
    if lines == [] then []
    else
      var line := lines[|lines| - 1];
      Qualified(lines[..|lines| - 1]) + (if IsTranscriptLine(line) then [Strip(line)] else [])
  }

  /** The lines `benchmark_whisper` keeps: none on a non-zero exit code. */
  function TranscriptLines(returncode: int, stdout: string): seq<string> {
    if returncode == 0 then Qualified(OutputLines(stdout)) else []
  }

  /** Each piece followed by one space, as `transcription += line + " "`
      builds it. */
  function Terminated(xs: seq<string>): string {
    if xs == [] then "" else Terminated(xs[..|xs| - 1]) + xs[|xs| - 1] + " "
  }

  lemma {:induction false} TerminatedJoin(xs: seq<string>)
    requires xs != []
    ensures Terminated(xs) == Join(" ", xs) + " "
  {
    var init := xs[..|xs| - 1];
    if init == [] {
      assert xs == [xs[0]];
    } else {
      TerminatedJoin(init);
      JoinAppend(" ", init, xs[|xs| - 1]);
      assert init + [xs[|xs| - 1]] == xs;
    }
  }

  /** Joining tidy pieces with spaces gives a tidy string. */
  lemma {:induction false} JoinTidy(xs: seq<string>)
    requires xs != []
    requires forall k :: 0 <= k < |xs| ==> Tidy(xs[k])
    ensures Tidy(Join(" ", xs))
  {
    var x := xs[0];
    assert Tidy(x);
    if |xs| > 1 {
      var rest := xs[1..];
      assert forall k :: 0 <= k < |rest| ==> Tidy(rest[k]) by {
        forall k | 0 <= k < |rest| ensures Tidy(rest[k]) {
          assert rest[k] == xs[k + 1];
        }
      }
      JoinTidy(rest);
      var tail := Join(" ", rest);
      var j := x + " " + tail;
      assert Join(" ", xs) == j;
      assert j[0] == x[0];
      assert j[|j| - 1] == tail[|tail| - 1];
    }
  }

  /** The final `strip()` removes exactly the trailing space. */
  lemma {:induction false} TerminatedStrip(xs: seq<string>)
    requires forall k :: 0 <= k < |xs| ==> Tidy(xs[k])
    ensures Strip(Terminated(xs)) == Join(" ", xs)
  {
    if xs == [] {
      StripStripped("");
    } else {
      TerminatedJoin(xs);
      JoinTidy(xs);
      StripTrailingSpace(Join(" ", xs));
    }
  }

  /** One more line read by the `for` loop of `benchmark_whisper`. */
  lemma {:induction false} TerminatedStep(lines: seq<string>, i: nat)
    requires i < |lines|
    ensures Terminated(Qualified(lines[..i + 1]))
            == Terminated(Qualified(lines[..i]))
               + (if IsTranscriptLine(lines[i]) then Strip(lines[i]) + " " else "")
  {
    var q := Qualified(lines[..i]);
    assert lines[..i + 1][..i] == lines[..i];
    if IsTranscriptLine(lines[i]) {
      assert (q + [Strip(lines[i])])[..|q|] == q;
    } else {
      assert q + [] == q;
    }
  }

  /** The stdout-to-transcription assembly of `benchmark_whisper`. */
  method WhisperTranscription(returncode: int, stdout: string) returns (transcription: string)
    ensures transcription == Join(" ", TranscriptLines(returncode, stdout))
    ensures returncode != 0 ==> transcription == ""
  {
    var acc := "";
    if returncode == 0 {
      acc := AppendLines(OutputLines(stdout));
    }
    TerminatedStrip(TranscriptLines(returncode, stdout));
    transcription := Strip(acc);
  }

  /** The `for` loop of `benchmark_whisper`: `transcription += line.strip() + " "`
      for each transcript line. */
  method AppendLines(lines: seq<string>) returns (acc: string)
    ensures acc == Terminated(Qualified(lines))
  {
    acc := "";
    for i := 0 to |lines|
      invariant acc == Terminated(Qualified(lines[..i]))
    {
      TerminatedStep(lines, i);
      var line := lines[i];
      if IsTranscriptLine(line) {
        acc := acc + Strip(line) + " ";
      }
    }
    assert lines[..|lines|] == lines;
  }

  /** The first transcript line of a longer list of lines: the one of
      the shorter list, else the added line if it is one. */
  lemma {:induction false} FirstLineIndexSnoc(init: seq<string>, x: string)
    ensures var k := FirstLineIndex(init);
            FirstLineIndex(init + [x])
            == if k < |init| then k else if IsTranscriptLine(x) then |init| else |init| + 1
  {
    var lines := init + [x];
    var k := FirstLineIndex(init);
    assert forall j :: 0 <= j < |init| ==> lines[j] == init[j];
    if k < |init| {
      FirstLineIndexUnique(lines, k);
    } else if IsTranscriptLine(x) {
      FirstLineIndexUnique(lines, |init|);
    } else {
      FirstLineIndexUnique(lines, |lines|);
    }
  }

  /** The first kept line is the first transcript line. */
  lemma {:induction false} QualifiedHead(lines: seq<string>)
    ensures Qualified(lines) == [] <==> FirstLineIndex(lines) == |lines|
    ensures Qualified(lines) != [] ==> Qualified(lines)[0] == Strip(lines[FirstLineIndex(lines)])
  {
    if lines != [] {
      var init := lines[..|lines| - 1];
      var x := lines[|lines| - 1];
      assert lines == init + [x];
      QualifiedHead(init);
      FirstLineIndexSnoc(init, x);
    }
  }

  /** The live streamer's transcript is the first word group of the
      benchmark's: both read the same lines of the same output. */
  lemma StreamerLineStartsBenchmark(returncode: int, stdout: string)
    ensures var ts := TranscriptLines(returncode, stdout);
            FirstTranscriptLine(returncode, stdout) == if ts == [] then None else Some(ts[0])
  {
    if returncode == 0 {
      QualifiedHead(OutputLines(stdout));
    }
  }

  // ---------------------------------------------------------------------
  // compare_models
  // ---------------------------------------------------------------------

  /** The real-time factor of `engine` among the two measured. */
  function Rtf(engine: Engine, voskRtf: real, whisperRtf: real): real {
    if engine == Vosk then voskRtf else whisperRtf
  }

  /** The winner rule of `compare_models`: Vosk only when strictly faster. */
  function Winner(voskRtf: real, whisperRtf: real): (w: Engine)
    ensures w == Vosk <==> voskRtf < whisperRtf
    ensures voskRtf == whisperRtf ==> w == Whisper
  {
    if voskRtf < whisperRtf then Vosk else Whisper
  }

  /** The winner is never slower than the other model. */
  lemma WinnerNotSlower(voskRtf: real, whisperRtf: real)
    ensures var w := Winner(voskRtf, whisperRtf);
            Rtf(w, voskRtf, whisperRtf) <= Rtf(if w == Vosk then Whisper else Vosk, voskRtf, whisperRtf)
  {
  }
}
