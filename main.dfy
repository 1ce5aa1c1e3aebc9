/** Model of backend/main.py: the performance history, the tagging of each
    chunk's result, the active-model switch and the per-connection
    WebSocket loop. Recognisers, clocks and the transport are oracles:
    every received binary chunk carries the answers they give while it is
    handled. */
module Backend {
  import opened Common
  import opened WhisperStream

  // ---------------------------------------------------------------------
  // PerformanceMonitor
  // ---------------------------------------------------------------------

  /** The number of chunk durations the monitor keeps. */
  const HistoryLimit := 100

  /** Appending to a history and dropping its oldest entries when it is too
      long is the same as keeping the last `n` of the longer history. */
  lemma {:induction false} KeepLastAppend<T>(s: seq<T>, x: T, n: nat)
    requires n > 0
    ensures var h := KeepLast(s, n) + [x];
            KeepLast(s + [x], n) == if |h| > n then h[1..] else h
  {
    var h := KeepLast(s, n) + [x];
    if |s| >= n {
      assert h[1..] == s[|s| - n + 1..] + [x];
      assert (s + [x])[|s| + 1 - n..] == s[|s| + 1 - n..] + [x];
    }
  }

  class PerformanceMonitor {
    var chunkTimes: seq<real>
    /** Every duration ever recorded, in recording order. */
    ghost var recorded: seq<real>

    /** The list holds the last (at most) 100 recorded durations, in order. */
    ghost predicate Valid()
      reads this
    {
      chunkTimes == KeepLast(recorded, HistoryLimit)
    }

    constructor ()
      ensures Valid() && chunkTimes == [] && recorded == []
    {
      chunkTimes := [];
      recorded := [];
    }

    /** `record_chunk_time`: append, then drop the oldest entry past 100. */
    method RecordChunkTime(duration: real)
      requires Valid()
      modifies this
      ensures Valid() && recorded == old(recorded) + [duration]
      ensures 0 < |chunkTimes| <= HistoryLimit && chunkTimes[|chunkTimes| - 1] == duration
    {
      KeepLastAppend(recorded, duration, HistoryLimit);
      chunkTimes := chunkTimes + [duration];
      recorded := recorded + [duration];
      if |chunkTimes| > 100 {
        chunkTimes := chunkTimes[1..];
      }
    }
  }

  // ---------------------------------------------------------------------
  // One chunk's result
  // ---------------------------------------------------------------------

  datatype ResultType = Final | Partial | Buffering

  /** The `type` and `text` of the dictionary `process_chunk` returns
      (its metrics and rounded processing time are floating-point numerics
      and are not modelled). */
  datatype ChunkReply = ChunkReply(kind: ResultType, text: string)

  /** What Vosk answers for a chunk: whether `AcceptWaveform` took it, and
      the decoded JSON of the `Result()` or `PartialResult()` then called. */
  datatype VoskResponse = VoskResponse(accepted: bool, result: map<string, string>)

  /** What the oracles answer while one chunk is handled: Vosk's answer as
      a function of every chunk the current recogniser has been given, this
      one included (or the exception the native call raises), the two
      clock readings and the whisper-cli run of
      `SimpleWhisperStreamer.transcribe`, and the measured processing
      time. */
  datatype ChunkEnv = ChunkEnv(vosk: seq<seq<byte>> -> Attempt<VoskResponse>,
                               probeTime: real, stampTime: real,
                               cli: seq<byte> -> ProcessRun, elapsed: real)

  /** `d.get(key, default)` */
  function Get(d: map<string, string>, key: string, default: string): string {
    if key in d then d[key] else default
  }

  /** `result.get("text", result.get("partial", ""))` */
  function VoskText(result: map<string, string>): (t: string)
    ensures "text" in result ==> t == result["text"]
    ensures "text" !in result && "partial" in result ==> t == result["partial"]
    ensures "text" !in result && "partial" !in result ==> t == ""
  {
    Get(result, "text", Get(result, "partial", ""))
  }

  /** Vosk's result is final exactly when `AcceptWaveform` took the chunk. */
  function VoskReply(accepted: bool, result: map<string, string>): (r: ChunkReply)
    ensures r.kind == Final <==> accepted
    ensures r.kind != Buffering
    ensures r.text == VoskText(result)
  {
    ChunkReply(if accepted then Final else Partial, VoskText(result))
  }

  /** Whisper's result is partial when the streamer produced non-empty
      text, and buffering with empty text otherwise. */
  function WhisperReply(text: Option<string>): (r: ChunkReply)
    ensures r.kind != Final
    ensures r.kind == Partial <==> text.Some? && text.value != ""
    ensures r.kind == Partial ==> r.text == text.value
    ensures r.kind == Buffering ==> r.text == ""
  {
    if text.Some? && text.value != "" then ChunkReply(Partial, text.value)
    else ChunkReply(Buffering, "")
  }

  /** What `VoskTranscriber.process_chunk` returns or raises, for the
      chunks its recogniser has been given before this one. */
  function VoskChunkResult(heard: seq<seq<byte>>, audio: seq<byte>, env: ChunkEnv): Attempt<ChunkReply> {
    match env.vosk(heard + [audio])
    case Done(answer) => Done(VoskReply(answer.accepted, answer.result))
    case Raised(e) => Raised(e)
  }

  /** What `WhisperTranscriber.process_chunk` returns or raises, for the
      streamer buffer and transcription time it starts from. */
  function WhisperChunkResult(buffer: seq<byte>, last: real, audio: seq<byte>, env: ChunkEnv)
    : Attempt<ChunkReply>
  {
    match TranscribeResult(buffer + audio, last, env.probeTime, env.cli)
    case Done(t) => Done(WhisperReply(t))
    case Raised(e) => Raised(e)
  }

  /** Since the streamer never yields empty text, a Whisper result is
      buffering exactly when the streamer yielded nothing. */
  lemma WhisperBufferingMeansNoText(buffer: seq<byte>, last: real, audio: seq<byte>, env: ChunkEnv)
    requires WhisperChunkResult(buffer, last, audio, env).Done?
    ensures var reply := WhisperChunkResult(buffer, last, audio, env).value;
            reply.kind == Buffering
            <==> TranscribeResult(buffer + audio, last, env.probeTime, env.cli) == Done(None)
  {
    var t := TranscribeResult(buffer + audio, last, env.probeTime, env.cli);
    if t.value.Some? {
      TranscribedTextIsStripped(buffer + audio, last, env.probeTime, env.cli);
    }
  }

  // ---------------------------------------------------------------------
  // The state of a transcriber, and what one chunk or a reset does to it
  // ---------------------------------------------------------------------

  /** A snapshot of a transcriber: the chunks its Vosk recogniser has been
      given, or the buffer and last transcription time of its Whisper
      streamer; and every duration its monitor has recorded. */
  datatype TState =
    | VoskState(heard: seq<seq<byte>>, recorded: seq<real>)
    | WhisperState(buffer: seq<byte>, last: real, recorded: seq<real>)
  {
    function Kind(): Engine {
      if VoskState? then Vosk else Whisper
    }
  }

  /** A transcriber just created for `model`. */
  function FreshState(model: Engine): (s: TState)
    ensures s.Kind() == model
    ensures s.recorded == []
  {
    match model
    case Vosk => VoskState([], [])
    case Whisper => WhisperState([], 0.0, [])
  }

  /** `reset`: a new recogniser, or an empty streamer buffer and a zero
      transcription time; the monitor keeps its history. */
  function ResetState(s: TState): (r: TState)
    ensures r.Kind() == s.Kind() && r.recorded == s.recorded
    ensures r.VoskState? ==> r.heard == []
    ensures r.WhisperState? ==> r.buffer == [] && r.last == 0.0
  {
    match s
    case VoskState(_, recorded) => VoskState([], recorded)
    case WhisperState(_, _, recorded) => WhisperState([], 0.0, recorded)
  }

  /** What `process_chunk` returns or raises from the state `s`. */
  function ChunkResult(s: TState, audio: seq<byte>, env: ChunkEnv): Attempt<ChunkReply> {
    match s
    case VoskState(heard, _) => VoskChunkResult(heard, audio, env)
    case WhisperState(buffer, last, _) => WhisperChunkResult(buffer, last, audio, env)
  }

  /** The state `process_chunk` leaves: the recogniser has heard the chunk,
      or the streamer has buffered, maybe transcribed and trimmed it; the
      time is recorded only when no exception was raised. */
  function ChunkState(s: TState, audio: seq<byte>, env: ChunkEnv): (r: TState)
    ensures r.Kind() == s.Kind()
    ensures r.recorded == if ChunkResult(s, audio, env).Done? then s.recorded + [env.elapsed] else s.recorded
  {
    var recorded := if ChunkResult(s, audio, env).Done? then s.recorded + [env.elapsed] else s.recorded;
    match s
    case VoskState(heard, _) => VoskState(heard + [audio], recorded)
    case WhisperState(buffer, last, _) =>
      WhisperState(BufferAfter(buffer + audio, last, env.probeTime, env.cli),
                   if Due(buffer + audio, last, env.probeTime) then env.stampTime else last,
                   recorded)
  }

  /** Within one interval of the last transcription, a Whisper chunk is
      only buffered: the reply is `buffering` and the time stamp stays. */
  lemma WhisperThrottled(s: TState, audio: seq<byte>, env: ChunkEnv)
    requires s.WhisperState? && env.probeTime - s.last < TranscribeInterval
    ensures ChunkResult(s, audio, env) == Done(ChunkReply(Buffering, ""))
    ensures ChunkState(s, audio, env) == WhisperState(s.buffer + audio, s.last, s.recorded + [env.elapsed])
  {
  }

  /** After a reset, Vosk answers as for a first chunk. */
  lemma VoskResetForgets(s: TState, audio: seq<byte>, env: ChunkEnv)
    requires s.VoskState?
    ensures ChunkResult(ResetState(s), audio, env) == VoskChunkResult([], audio, env)
    ensures ChunkState(ResetState(s), audio, env).heard == [audio]
  {
  }

  // ---------------------------------------------------------------------
  // Transcribers
  // ---------------------------------------------------------------------

  class VoskTranscriber {
    const chunkSize: int
    const monitor: PerformanceMonitor
    /** The chunks the current `KaldiRecognizer` has been given. */
    var heard: seq<seq<byte>>

    ghost predicate Valid()
      reads this, monitor
    {
      monitor.Valid()
    }

    constructor (chunkSize: int)
      ensures Valid() && fresh(monitor)
      ensures this.chunkSize == chunkSize && heard == [] && monitor.recorded == []
    {
      this.chunkSize := chunkSize;
      monitor := new PerformanceMonitor();
      heard := [];
    }

    /** `process_chunk`. An exception from the recogniser skips the
        recording of the time. */
    method ProcessChunk(audioData: seq<byte>, env: ChunkEnv) returns (r: Attempt<ChunkReply>)
      requires Valid()
      modifies this, monitor
      ensures Valid()
      ensures r == VoskChunkResult(old(heard), audioData, env)
      ensures heard == old(heard) + [audioData]
      ensures monitor.recorded == if r.Done? then old(monitor.recorded) + [env.elapsed] else old(monitor.recorded)
    {
      var answer := env.vosk(heard + [audioData]);
      heard := heard + [audioData];
      match answer
      case Raised(e) =>
        return Raised(e);
      case Done(response) =>
        var resultType := if response.accepted then Final else Partial;
        monitor.RecordChunkTime(env.elapsed);
        return Done(ChunkReply(resultType, Get(response.result, "text", Get(response.result, "partial", ""))));
    }

    /** `reset`: a new recogniser, which has heard nothing. */
    method Reset()
      requires Valid()
      modifies this
      ensures Valid() && heard == []
    {
      heard := [];
    }
  }

  class WhisperTranscriber {
    const monitor: PerformanceMonitor
    const streamer: SimpleWhisperStreamer

    ghost predicate Valid()
      reads this, monitor, streamer
    {
      monitor.Valid() && streamer.Valid()
    }

    constructor ()
      ensures Valid() && fresh(monitor) && fresh(streamer)
      ensures monitor.recorded == [] && streamer.audioBuffer == [] && streamer.lastTranscribeTime == 0.0
    {
      monitor := new PerformanceMonitor();
      streamer := new SimpleWhisperStreamer();
    }

    /** `process_chunk`: feed the streamer, try to transcribe, record the
        time. An exception from the streamer skips the recording. */
    method ProcessChunk(audioData: seq<byte>, env: ChunkEnv) returns (r: Attempt<ChunkReply>)
      requires Valid()
      modifies monitor, streamer
      ensures Valid()
      ensures r == WhisperChunkResult(old(streamer.audioBuffer), old(streamer.lastTranscribeTime), audioData, env)
      ensures streamer.audioBuffer
              == BufferAfter(old(streamer.audioBuffer) + audioData, old(streamer.lastTranscribeTime), env.probeTime, env.cli)
      ensures streamer.lastTranscribeTime
              == if Due(old(streamer.audioBuffer) + audioData, old(streamer.lastTranscribeTime), env.probeTime)
                 then env.stampTime else old(streamer.lastTranscribeTime)
      ensures streamer.fed == old(streamer.fed) + audioData
      ensures monitor.recorded == if r.Done? then old(monitor.recorded) + [env.elapsed] else old(monitor.recorded)
    {
      streamer.FeedAudio(audioData);
      var text := streamer.Transcribe(env.probeTime, env.stampTime, env.cli);
      match text
      case Raised(e) =>
        return Raised(e);
      case Done(t) =>
        monitor.RecordChunkTime(env.elapsed);
        return Done(ChunkReply(if t.Some? && t.value != "" then Partial else Buffering,
                               if t.Some? then t.value else ""));
    }

    /** `reset`: clears the streamer. */
    method Reset()
      requires Valid()
      modifies streamer
      ensures Valid() && |streamer.audioBuffer| == 0 && streamer.lastTranscribeTime == 0.0
    {
      streamer.Reset();
    }
  }

  /** The `transcriber` of one connection. */
  datatype Transcriber = VoskT(vosk: VoskTranscriber) | WhisperT(whisper: WhisperTranscriber) {
    function Kind(): Engine {
      if VoskT? then Vosk else Whisper
    }

    ghost function Repr(): set<object> {
      match this
      case VoskT(v) => {v, v.monitor}
      case WhisperT(w) => {w, w.monitor, w.streamer}
    }

    ghost predicate Valid()
      reads Repr()
    {
      match this
      case VoskT(v) => v.Valid()
      case WhisperT(w) => w.Valid()
    }

    /** The snapshot of this transcriber. */
    ghost function State(): (s: TState)
      reads Repr()
      ensures s.Kind() == Kind()
    {
      match this
      case VoskT(v) => VoskState(v.heard, v.monitor.recorded)
      case WhisperT(w) => WhisperState(w.streamer.audioBuffer, w.streamer.lastTranscribeTime, w.monitor.recorded)
    }
  }

  /** `VoskTranscriber(chunk_size=4000)` or `WhisperTranscriber()`. */
  method NewTranscriber(model: Engine) returns (t: Transcriber)
    ensures fresh(t.Repr()) && t.Valid() && t.Kind() == model && t.State() == FreshState(model)
  {
    if model == Vosk {
      var v := new VoskTranscriber(4000);
      t := VoskT(v);
    } else {
      var w := new WhisperTranscriber();
      t := WhisperT(w);
    }
  }

  /** `transcriber.process_chunk(audio_chunk)` */
  method ProcessChunk(t: Transcriber, audioData: seq<byte>, env: ChunkEnv) returns (r: Attempt<ChunkReply>)
    requires t.Valid()
    modifies t.Repr()
    ensures t.Valid()
    ensures r == ChunkResult(old(t.State()), audioData, env)
    ensures t.State() == ChunkState(old(t.State()), audioData, env)
  {
    match t
    case VoskT(v) =>
      r := v.ProcessChunk(audioData, env);
    case WhisperT(w) =>
      r := w.ProcessChunk(audioData, env);
  }

  /** `transcriber.reset()` */
  method ResetTranscriber(t: Transcriber)
    requires t.Valid()
    modifies t.Repr()
    ensures t.Valid() && t.State() == ResetState(old(t.State()))
  {
    match t
    case VoskT(v) => v.Reset();
    case WhisperT(w) => w.Reset();
  }

  // ---------------------------------------------------------------------
  // Messages
  // ---------------------------------------------------------------------

  /** A decoded JSON value, as far as the server looks at it: a string, or
      anything else. */
  datatype Json = JString(s: string) | JOther

  /** A text frame as `json.loads` sees it. */
  datatype TextFrame = JsonObject(fields: map<string, Json>) | JsonNonObject | Unparseable

  /** What `websocket.receive()` delivers. `Disconnect` is the client going
      away (`WebSocketDisconnect`); `Other` is a message with neither
      `bytes` nor `text`. */
  datatype Inbound = Binary(audio: seq<byte>, env: ChunkEnv) | Text(frame: TextFrame) | Disconnect | Other

  /** The exceptions that end a connection with an error message:
      invalid JSON, a JSON value other than an object (which has no
      `get`), and an exception raised while transcribing. */
  datatype Fault = BadJson | NotAnObject | Recognizer(error: string)

  datatype ServerMessage =
    | Connected(model: Engine)
    | Result(reply: ChunkReply)
    | ResetDone
    | ModelSwitched(model: Engine)
    | Error(fault: Fault)

  /** How a pass of the receive loop left the connection. */
  datatype Ending = Listening | Disconnected | Crashed(fault: Fault)

  /** The name the API uses for a model. */
  function ModelName(m: Engine): string {
    match m
    case Vosk => "vosk"
    case Whisper => "whisper"
  }

  /** `value in ["vosk", "whisper"]`, as the model it names. */
  function ModelNamed(value: Json): (r: Option<Engine>)
    ensures r.Some? <==> value == JString("vosk") || value == JString("whisper")
    ensures r.Some? ==> value == JString(ModelName(r.value))
  {
    if value == JString("vosk") then Some(Vosk)
    else if value == JString("whisper") then Some(Whisper)
    else None
  }

  lemma ModelNameRoundTrip(m: Engine)
    ensures ModelNamed(JString(ModelName(m))) == Some(m)
  {
  }

  /** `d.get(key)` */
  function Lookup(d: map<string, Json>, key: string): Option<Json> {
    if key in d then Some(d[key]) else None
  }

  /** The model `set_model` is asked for: `data.get("model", "vosk")`. */
  function RequestedModel(data: map<string, Json>): (r: Option<Engine>)
    ensures "model" !in data ==> r == Some(Vosk)
    ensures "model" in data ==> (r.Some? <==> data["model"] == JString("vosk") || data["model"] == JString("whisper"))
    ensures "model" in data && r.Some? ==> data["model"] == JString(ModelName(r.value))
  {
    ModelNamed(if "model" in data then data["model"] else JString("vosk"))
  }

  /** What a control message asks the loop to do. */
  datatype Control = ResetRequest | SwitchRequest(model: Engine) | Ignored

  function Classify(message: map<string, Json>): (c: Control)
    ensures c == ResetRequest <==> Lookup(message, "action") == Some(JString("reset"))
    ensures c.SwitchRequest? <==> Lookup(message, "action") == Some(JString("switch_model"))
                                  && "model" in message && ModelNamed(message["model"]).Some?
    ensures c.SwitchRequest? ==> message["model"] == JString(ModelName(c.model))
  {
    var action := Lookup(message, "action");
    if action == Some(JString("reset")) then ResetRequest
    else if action == Some(JString("switch_model")) then
      match Lookup(message, "model")
      case Some(v) => (match ModelNamed(v) case Some(m) => SwitchRequest(m) case None => Ignored)
      case None => Ignored
    else Ignored
  }

  /** The active model after one received message. */
  function StepModel(model: Engine, ev: Inbound): Engine {
    match ev
    case Text(JsonObject(message)) =>
      (match Classify(message) case SwitchRequest(m) => m case _ => model)
    case _ => model
  }

  /** The active model after a run of received messages, in order. */
  function ModelAfter(model: Engine, evs: seq<Inbound>): Engine {
    if evs == [] then model else StepModel(ModelAfter(model, evs[..|evs| - 1]), evs[|evs| - 1])
  }

  /** How many messages the server sends in answer to one received
      message: one per binary chunk (its result, or the error that ends the
      connection), per reset, per valid switch and per malformed text
      frame; none otherwise. */
  function RepliesTo(ev: Inbound): nat {
    match ev
    case Binary(_, _) => 1
    case Text(JsonObject(message)) => if Classify(message) == Ignored then 0 else 1
    case Text(_) => 1
    case Disconnect => 0
    case Other => 0
  }

  function ReplyCount(evs: seq<Inbound>): nat {
    if evs == [] then 0 else ReplyCount(evs[..|evs| - 1]) + RepliesTo(evs[|evs| - 1])
  }

  /** Messages other than the greeting and the error report. */
  ghost predicate Plain(msgs: seq<ServerMessage>) {
    forall k :: 0 <= k < |msgs| ==> !msgs[k].Connected? && !msgs[k].Error?
  }

  lemma {:induction false} PlainConcat(a: seq<ServerMessage>, b: seq<ServerMessage>)
    requires Plain(a) && Plain(b)
    ensures Plain(a + b)
  {
    forall k | 0 <= k < |a + b| ensures !(a + b)[k].Connected? && !(a + b)[k].Error? {
      if k >= |a| {
        assert (a + b)[k] == b[k - |a|];
      }
    }
  }

  /** The messages that end the receive loop whatever the transcriber
      does: a disconnect, or a text frame that is not a JSON object. */
  predicate Ends(ev: Inbound) {
    ev.Disconnect? || (ev.Text? && !ev.frame.JsonObject?)
  }

  /** `ending` is the way `ev` ends the loop: a disconnect, invalid JSON, a
      JSON value that is not an object, or an exception raised while a
      chunk was transcribed. */
  predicate StoppedBy(ev: Inbound, ending: Ending) {
    match ending
    case Listening => false
    case Disconnected => ev.Disconnect?
    case Crashed(BadJson) => ev.Text? && ev.frame.Unparseable?
    case Crashed(NotAnObject) => ev.Text? && ev.frame.JsonNonObject?
    case Crashed(Recognizer(_)) => ev.Binary?
  }

  // ---------------------------------------------------------------------
  // The connection, as values
  // ---------------------------------------------------------------------

  /** The state the receive loop works on: the global `current_model` and
      the snapshot of the connection's transcriber. */
  datatype Conn = Conn(model: Engine, st: TState)

  /** One pass of the loop: the new state, the messages sent, and whether
      the loop goes on. */
  datatype Step = Step(conn: Conn, out: seq<ServerMessage>, ending: Ending)

  /** What the loop body of `websocket_transcribe` does with one received
      message. A crash leaves its error message to the handler. */
  function StepConn(c: Conn, ev: Inbound): Step {
    match ev
    case Binary(audio, env) =>
      var st := ChunkState(c.st, audio, env);
      (match ChunkResult(c.st, audio, env)
       case Done(reply) => Step(Conn(c.model, st), [Result(reply)], Listening)
       case Raised(e) => Step(Conn(c.model, st), [], Crashed(Recognizer(e))))
    case Text(frame) =>
      (match frame
       case Unparseable => Step(c, [], Crashed(BadJson))
       case JsonNonObject => Step(c, [], Crashed(NotAnObject))
       case JsonObject(message) =>
         (match Classify(message)
          case ResetRequest => Step(Conn(c.model, ResetState(c.st)), [ResetDone], Listening)
          case SwitchRequest(m) => Step(Conn(m, FreshState(m)), [ModelSwitched(m)], Listening)
          case Ignored => Step(c, [], Listening)))
    case Disconnect => Step(c, [], Disconnected)
    case Other => Step(c, [], Listening)
  }

  /** One pass follows the model switches, sends the replies `RepliesTo`
      counts (a crash's error message aside) and never the greeting or an
      error, stops exactly on the messages that end the loop or on a
      chunk that raised, and keeps the transcriber of the active kind. */
  lemma StepConnFacts(c: Conn, ev: Inbound)
    ensures var s := StepConn(c, ev);
            && s.conn.model == StepModel(c.model, ev)
            && |s.out| + (if s.ending.Crashed? then 1 else 0) == RepliesTo(ev)
            && Plain(s.out)
            && (s.ending.Listening? || StoppedBy(ev, s.ending))
            && (s.ending.Listening? <==> !Ends(ev) && !(ev.Binary? && s.ending.Crashed?))
            && (c.st.Kind() == c.model ==> s.conn.st.Kind() == s.conn.model)
  {
  }

  /** Where the receive loop is after some received messages: the state,
      the replies sent, how many messages it has handled and how the last
      pass ended. */
  datatype ConnRun = ConnRun(conn: Conn, replies: seq<ServerMessage>, handled: nat, ending: Ending)

  /** The receive loop over `evs`: each message is handled in turn until a
      pass ends the connection; later messages are never read. */
  function RunConn(c: Conn, evs: seq<Inbound>): ConnRun {
    if evs == [] then ConnRun(c, [], 0, Listening)
    else
      var p := RunConn(c, evs[..|evs| - 1]);
      if !p.ending.Listening? then p
      else
        var s := StepConn(p.conn, evs[|evs| - 1]);
        ConnRun(s.conn, p.replies + s.out, |evs|, s.ending)
  }

  /** Messages after the one that ended the connection change nothing. */
  lemma {:induction false} RunConnStopped(c: Conn, evs: seq<Inbound>, k: nat)
    requires k <= |evs| && !RunConn(c, evs[..k]).ending.Listening?
    ensures RunConn(c, evs) == RunConn(c, evs[..k])
    decreases |evs|
  {
    if k < |evs| {
      var init := evs[..|evs| - 1];
      assert init[..k] == evs[..k];
      RunConnStopped(c, init, k);
    } else {
      assert evs[..k] == evs;
    }
  }

  /** The receive loop handles messages in order and stops at the first
      exception: no message it handled before the last one ends the loop;
      when it stops, the last message handled is the one that stopped it;
      while it listens it has read everything. The replies are ordinary
      messages, the model follows the switches, and one reply (or the
      error) is owed for each chunk, reset, valid switch and malformed
      frame handled. */
  lemma {:induction false} RunConnFacts(c: Conn, evs: seq<Inbound>)
    requires c.st.Kind() == c.model
    ensures var r := RunConn(c, evs);
            && r.handled <= |evs|
            && (r.ending.Listening? ==> r.handled == |evs|)
            && (!r.ending.Listening? ==> 1 <= r.handled && StoppedBy(evs[r.handled - 1], r.ending))
            && (forall k :: 0 <= k < r.handled && (r.ending.Listening? || k < r.handled - 1) ==> !Ends(evs[k]))
            && Plain(r.replies)
            && r.conn.model == ModelAfter(c.model, evs[..r.handled])
            && r.conn.st.Kind() == r.conn.model
            && |r.replies| + (if r.ending.Crashed? then 1 else 0) == ReplyCount(evs[..r.handled])
  {
    if evs != [] {
      var init := evs[..|evs| - 1];
      var ev := evs[|evs| - 1];
      RunConnFacts(c, init);
      var p := RunConn(c, init);
      assert forall k :: 0 <= k < |init| ==> init[k] == evs[k];
      assert init[..p.handled] == evs[..p.handled];
      if p.ending.Listening? {
        var s := StepConn(p.conn, ev);
        StepConnFacts(p.conn, ev);
        PlainConcat(p.replies, s.out);
        assert evs[..|evs|] == evs;
        assert evs[..|evs|][..|evs| - 1] == init;
        assert init[..|init|] == init;
      }
    }
  }

  /** Everything one connection sends: the greeting, the loop's replies,
      and the error message of an exception other than a disconnect. */
  function Sent(model: Engine, run: ConnRun): seq<ServerMessage> {
    [Connected(model)] + run.replies + (if run.ending.Crashed? then [Error(run.ending.fault)] else [])
  }

  /** A connection greets exactly once, first; sends an error only last
      and only after an exception; and sends one message besides the
      greeting for each chunk, reset, valid switch and malformed frame it
      handled. It stops on the first message that ends it. */
  lemma SentFacts(model: Engine, evs: seq<Inbound>)
    ensures var run := RunConn(Conn(model, FreshState(model)), evs);
            var sent := Sent(model, run);
            && run.handled <= |evs|
            && sent[0] == Connected(model)
            && (forall k :: 1 <= k < |sent| ==> !sent[k].Connected?)
            && (run.ending.Crashed? ==> sent[|sent| - 1] == Error(run.ending.fault))
            && (forall k :: 1 <= k < |sent| && sent[k].Error? ==> run.ending.Crashed? && k == |sent| - 1)
            && |sent| == 1 + ReplyCount(evs[..run.handled])
            && run.conn.model == ModelAfter(model, evs[..run.handled])
            && (run.ending.Listening? ==> run.handled == |evs|)
            && (!run.ending.Listening? ==> 1 <= run.handled && StoppedBy(evs[run.handled - 1], run.ending))
            && (forall k :: 0 <= k < run.handled && (run.ending.Listening? || k < run.handled - 1) ==> !Ends(evs[k]))
  {
    var run := RunConn(Conn(model, FreshState(model)), evs);
    RunConnFacts(Conn(model, FreshState(model)), evs);
    var sent := Sent(model, run);
    assert forall k :: 1 <= k < 1 + |run.replies| ==> sent[k] == run.replies[k - 1];
  }

  // ---------------------------------------------------------------------
  // The server
  // ---------------------------------------------------------------------

  /** Possible responses of `POST /api/model`. */
  datatype ModelResponse = Switched(model: Engine) | InvalidModel

  class Server {
    /** The global `current_model`. */
    var currentModel: Engine

    constructor ()
      ensures currentModel == Vosk
    {
      currentModel := Vosk;
    }

    /** `set_model`: only "vosk" or "whisper" (the default when the key is
        missing) are accepted; anything else leaves the model as it was. */
    method SetModel(data: map<string, Json>) returns (response: ModelResponse)
      modifies this
      ensures RequestedModel(data).Some? ==> response == Switched(RequestedModel(data).value)
      ensures RequestedModel(data).None? ==> response == InvalidModel
      ensures currentModel == if response.Switched? then response.model else old(currentModel)
    {
      var model := if "model" in data then data["model"] else JString("vosk");
      if model == JString("vosk") || model == JString("whisper") {
        currentModel := if model == JString("vosk") then Vosk else Whisper;
        return Switched(currentModel);
      }
      return InvalidModel;
    }

    /** One pass of the receive loop of `websocket_transcribe`: it does
        what `StepConn` says to the model and the transcriber. The error
        message and the final reset of an ending connection are the
        handlers' (see `Serve`). */
    method Dispatch(t: Transcriber, ev: Inbound) returns (t': Transcriber, out: seq<ServerMessage>, ending: Ending)
      requires t.Valid() && t.Kind() == currentModel
      modifies this, t.Repr()
      ensures t'.Valid() && t'.Kind() == currentModel
      ensures t' == t || fresh(t'.Repr())
      ensures var s := StepConn(Conn(old(currentModel), old(t.State())), ev);
              currentModel == s.conn.model && t'.State() == s.conn.st && out == s.out && ending == s.ending
    {
      t', out, ending := t, [], Listening;
      match ev
      case Binary(audio, env) =>
        var result := ProcessChunk(t, audio, env);
        match result {
          case Done(reply) =>
            out := [Result(reply)];
          case Raised(e) =>
            ending := Crashed(Recognizer(e));
        }
      case Text(frame) =>
        match frame {
          case Unparseable =>
            ending := Crashed(BadJson);
          case JsonNonObject =>
            ending := Crashed(NotAnObject);
          case JsonObject(message) =>
            if Lookup(message, "action") == Some(JString("reset")) {
              ResetTranscriber(t);
              out := [ResetDone];
            } else if Lookup(message, "action") == Some(JString("switch_model")) {
              var newModel := Lookup(message, "model");
              if newModel == Some(JString("vosk")) || newModel == Some(JString("whisper")) {
                currentModel := if newModel == Some(JString("vosk")) then Vosk else Whisper;
                t' := NewTranscriber(currentModel);
                out := [ModelSwitched(currentModel)];
              }
            }
        }
      case Disconnect =>
        ending := Disconnected;
      case Other =>
    }

    /** `websocket_transcribe` for one connection, over the messages it
        receives in order: the greeting, the receive loop, then an error
        message for an exception other than a disconnect and, for an
        ending connection, the reset of its transcriber. When the messages
        run out the connection is still listening. */
    method Serve(events: seq<Inbound>)
      returns (sent: seq<ServerMessage>, handled: nat, ending: Ending, t: Transcriber)
      modifies this
      ensures fresh(t.Repr()) && t.Valid() && t.Kind() == currentModel
      ensures var run := RunConn(Conn(old(currentModel), FreshState(old(currentModel))), events);
              && handled == run.handled && ending == run.ending && currentModel == run.conn.model
              && sent == Sent(old(currentModel), run)
              && t.State() == if ending.Listening? then run.conn.st else ResetState(run.conn.st)
      ensures handled <= |events|
      ensures sent[0] == Connected(old(currentModel))
      ensures forall k :: 1 <= k < |sent| ==> !sent[k].Connected?
      ensures ending.Crashed? ==> sent[|sent| - 1] == Error(ending.fault)
      ensures forall k :: 1 <= k < |sent| && sent[k].Error? ==> ending.Crashed? && k == |sent| - 1
      ensures |sent| == 1 + ReplyCount(events[..handled])
      ensures currentModel == ModelAfter(old(currentModel), events[..handled])
      ensures ending.Listening? ==> handled == |events|
      ensures !ending.Listening? ==> 1 <= handled && StoppedBy(events[handled - 1], ending)
      ensures forall k :: 0 <= k < handled && (ending.Listening? || k < handled - 1) ==> !Ends(events[k])
    {
      var greeting := Connected(currentModel);
      t := NewTranscriber(currentModel);
      SentFacts(currentModel, events);
      var replies;
      t, replies, handled, ending := ReceiveLoop(t, events);
      sent := [greeting] + replies;
      if ending.Crashed? {
        sent := sent + [Error(ending.fault)];
      }
      if !ending.Listening? {
        ResetTranscriber(t);
      }
    }

    /** The `while True` loop of `websocket_transcribe`, which stops at the
        first exception or when the messages run out: it computes
        `RunConn`. */
    method ReceiveLoop(t0: Transcriber, events: seq<Inbound>)
      returns (t: Transcriber, replies: seq<ServerMessage>, handled: nat, ending: Ending)
      requires t0.Valid() && t0.Kind() == currentModel
      modifies this, t0.Repr()
      ensures t.Valid() && t.Kind() == currentModel
      ensures t == t0 || fresh(t.Repr())
      ensures RunConn(Conn(old(currentModel), old(t0.State())), events)
              == ConnRun(Conn(currentModel, t.State()), replies, handled, ending)
    {
      ghost var c0 := Conn(currentModel, t0.State());
      t, replies, handled, ending := t0, [], 0, Listening;
      while handled < |events| && ending.Listening?
        invariant handled <= |events|
        invariant t.Valid() && t.Kind() == currentModel
        invariant t == t0 || fresh(t.Repr())
        invariant RunConn(c0, events[..handled]) == ConnRun(Conn(currentModel, t.State()), replies, handled, ending)
        decreases |events| - handled, ending.Listening?
      {
        var out;
        t, out, ending := Dispatch(t, events[handled]);
        assert events[..handled + 1][..handled] == events[..handled];
        replies := replies + out;
        handled := handled + 1;
      }
      if handled < |events| {
        RunConnStopped(c0, events, handled);
      } else {
        assert events[..handled] == events;
      }
    }
  }
}
