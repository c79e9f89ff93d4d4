/** Sequences of bridge calls and what they add up to. */
module Scenarios {
  import opened Values
  import opened Transcribe
  import opened Listeners
  import opened WhisperBridge

  /** Chunks arriving faster than transcription: three chunks reach the
      handler while the first one's transcription runs. Only the first is
      ever sent to the pipeline; the second is overwritten by the third,
      which stays in the buffer after the first settles, never dispatched. */
  method SlowTranscriptionKeepsNewest(options: Options, c1: Blob, c2: Blob, c3: Blob, raw: RawResult)
      returns (calls: seq<PipelineCall>, buffered: seq<Blob>, busy: bool)
    requires c1.size > 0 && c2.size > 0 && c3.size > 0
    ensures calls == [Construct(DEFAULT_MODEL), Infer(c1, MergeOptions(options))]
    ensures buffered == [c3]
    ensures !busy
  {
    var b := new Bridge();
    var started := b.StartRecording(options, Succeeds, Succeeds, {});
    assert b.pipelineCalls == [Construct(DEFAULT_MODEL)];
    assert b.transcriberLoaded && b.sessionStarted && !b.inflight;
    b.OnChunk(c1);
    assert b.pipelineCalls == [Construct(DEFAULT_MODEL), Infer(c1, MergeOptions(options))];
    b.OnChunk(c2);
    b.OnChunk(c3);
    b.OnChunkTranscribed(Ok(raw), {});
    calls, buffered, busy := b.pipelineCalls, b.pending, b.inflight;
  }

  /** Stopping does not clear the in-flight flag: when a session is stopped
      with a transcription running and a new one is started, the new
      session's first chunk is only buffered, and no new transcription
      starts until the old one settles. */
  method StaleFlagAcrossSessions(first: Options, second: Options, c1: Blob, c2: Blob)
      returns (calls: seq<PipelineCall>, buffered: seq<Blob>, busy: bool)
    requires c1.size > 0 && c2.size > 0
    ensures calls == [Construct(DEFAULT_MODEL), Infer(c1, MergeOptions(first))]
    ensures buffered == [c2]
    ensures busy
  {
    var b := new Bridge();
    var started := b.StartRecording(first, Succeeds, Succeeds, {});
    b.OnChunk(c1);
    var stopped := b.StopRecording();
    assert stopped == "stopped";
    var restarted := b.StartRecording(second, Succeeds, Succeeds, {});
    assert restarted == Ok("recording_started");
    b.OnChunk(c2);
    calls, buffered, busy := b.pipelineCalls, b.pending, b.inflight;
  }

  /** A transcription that settles after its session stopped still reaches
      the transcription listeners, as a partial result. */
  method LateResultStillEmitted(listener: ListenerId, options: Options, c: Blob, text: string)
      returns (delivered: seq<Event>)
    requires c.size > 0
    ensures delivered == [Delivered(listener, TranscriptionEvent(text, true, []), false)]
  {
    var b := new Bridge();
    b.OnTranscription(Callable(listener));
    var started := b.StartRecording(options, Succeeds, Succeeds, {});
    assert b.transcriberLoaded && b.sessionStarted && !b.inflight;
    assert b.events == [] && b.transcriptionListeners == [listener];
    b.OnChunk(c);
    assert b.outstanding == [Invoked(c)];
    var stopped := b.StopRecording();
    assert !b.recording;
    b.OnChunkTranscribed(Ok(RawResult(Some(text), None, None)), {});
    delivered := b.events;
  }

  /** Stopping twice in a row: the second stop always finds nothing to stop. */
  method StopTwice(b: Bridge) returns (first: string, second: string)
    requires b.Valid()
    modifies b
    ensures b.Valid()
    ensures first == (if old(b.recording) then "stopped" else "not_recording")
    ensures second == "not_recording"
  {
    first := b.StopRecording();
    second := b.StopRecording();
  }

  /** Loading the same model twice without a re-download request: once the
      first load succeeded, the second neither calls the pipeline nor emits,
      so the two together add at most one construction and one
      `loading`/`loaded` pair. */
  method LoadTwice(b: Bridge, variant: Option<string>, construction: Attempt, throwing: set<ListenerId>)
      returns (first: Outcome<LoadReply>, second: Outcome<LoadReply>)
    requires b.Valid()
    modifies b
    ensures b.Valid()
    ensures first.Ok? ==> second == Ok(LoadReply("already_loaded", ModelId(variant)))
    ensures first.Ok? && old(b.ReloadSuppressed(ModelId(variant), false)) ==>
      b.events == old(b.events) && b.pipelineCalls == old(b.pipelineCalls)
    ensures first.Ok? && !old(b.ReloadSuppressed(ModelId(variant), false)) ==>
      b.pipelineCalls == old(b.pipelineCalls) + [Construct(ModelId(variant))] &&
      b.events == old(b.events)
                  + FanOut(old(b.progressListeners), ProgressEvent(Loading(ModelId(variant), 0)), throwing)
                  + FanOut(old(b.progressListeners), ProgressEvent(Loaded(ModelId(variant), 1)), throwing)
  {
    first := b.LoadModel(variant, false, construction, throwing);
    second := b.LoadModel(variant, false, construction, throwing);
  }

  /** The listener lists are emptied before the session is stopped, so the
      recorder's `onstop` that follows a reset reaches nobody. */
  method ClearThenRecorderStops(b: Bridge, throwing: set<ListenerId>) returns (s: string)
    requires b.Valid() && b.sessionStarted
    modifies b
    ensures b.Valid()
    ensures s == "cleared"
    ensures b.events == old(b.events)
    ensures !b.recording && !b.transcriberLoaded && b.loadedModelName == None
  {
    s := b.ClearState();
    b.OnRecorderSignal(OnStop, throwing);
  }

  /** A chunk whose transcription fails leaves the session recording and
      the in-flight flag clear, and reports a progress `error`. */
  method FailedChunkKeepsRecording(b: Bridge, c: Blob, error: string, throwing: set<ListenerId>)
    requires b.Valid() && b.recording && !b.inflight && c.size > 0
    modifies b
    ensures b.Valid()
    ensures b.recording && !b.inflight
    ensures old(b.transcriberLoaded) ==>
      b.events == old(b.events) + FanOut(b.progressListeners, ProgressEvent(ErrorStatus(error)), throwing)
    ensures !old(b.transcriberLoaded) ==>
      b.events == old(b.events) + FanOut(b.progressListeners, ProgressEvent(ErrorStatus(MODEL_NOT_LOADED)), throwing)
  {
    b.OnChunk(c);
    b.OnChunkTranscribed(Err(error), throwing);
  }
}
