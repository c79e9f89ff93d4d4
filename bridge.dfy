/** The bridge's module-level state and the operations that change it: the
    model lifecycle, the listener registry, the microphone streaming
    coordinator and the facade calls built on them. */
module WhisperBridge {
  import opened Values
  import opened Transcribe
  import opened Listeners

  /** A transcription the chunk handler has dispatched and not yet seen settle:
      either the pipeline was invoked on the chunk, or the transcription was
      rejected before reaching the pipeline, because no model was loaded. */
  datatype Call = Invoked(audio: Blob) | Rejected(error: string)

  /** How a dispatched transcription settles, given what the pipeline
      delivers: a rejected call fails with its own error whatever the
      pipeline would have done; an invoked one is normalised on success. */
  function Settle(call: Call, inference: Outcome<RawResult>): (r: Outcome<TranscriptionResult>)
    ensures call.Rejected? ==> r == Err(call.error)
    ensures call.Invoked? && inference.Err? ==> r == Err(inference.error)
    ensures call.Invoked? && inference.Ok? ==> r == Ok(Normalize(inference.value))
  {
    match call
    case Rejected(e) => Err(e)
    case Invoked(_) =>
      match inference
      case Ok(raw) => Ok(Normalize(raw))
      case Err(e) => Err(e)
  }

  /** The partial-result event the chunk handler emits for a normalised result. */
  function PartialEvent(res: TranscriptionResult): (p: Payload) {
    TranscriptionEvent(res.text, true, res.segments)
  }

  /** The progress status each recorder callback reports. */
  function SignalProgress(signal: RecorderSignal): (p: Progress) {
    match signal
    case OnStart => RecordingStarted
    case OnStop => RecordingStopped
    case OnError => RecordError
  }

  class Bridge {
    /** `transcriber != null` */
    var transcriberLoaded: bool
    var loadedModelName: Option<string>

    var transcriptionListeners: seq<ListenerId>
    var progressListeners: seq<ListenerId>

    /** `mediaStream != null`, `mediaRecorder != null` */
    var hasStream: bool
    var hasRecorder: bool
    var recording: bool

    /** `_inflight`: a chunk transcription is running. */
    var inflight: bool

    /** A chunk handler exists: some session has been started. Its captured
        `options` and its `chunks` array are the next two fields. */
    var sessionStarted: bool
    var sessionOptions: Options
    var pending: seq<Blob>

    /** The chunk transcriptions dispatched and not yet settled. */
    var outstanding: seq<Call>

    /** Every listener call, in order. */
    var events: seq<Event>
    /** Every call into the pipeline library, in order. */
    var pipelineCalls: seq<PipelineCall>

    /** The invariant every operation keeps: at most one chunk transcription
        is outstanding, and exactly one while `inflight`; the buffer holds at
        most one chunk; a model id is recorded exactly when a model is loaded;
        the capture handles are held exactly while recording. */
    ghost predicate Valid()
      reads this
    {
      |outstanding| == (if inflight then 1 else 0) &&
      |pending| <= 1 &&
      (transcriberLoaded <==> loadedModelName.Some?) &&
      hasStream == recording && hasRecorder == recording &&
      (recording ==> sessionStarted)
    }

    /** The state when the module is first evaluated. */
    constructor ()
      ensures Valid()
      ensures !transcriberLoaded && loadedModelName == None
      ensures transcriptionListeners == [] && progressListeners == []
      ensures !hasStream && !hasRecorder && !recording && !inflight
      ensures !sessionStarted && pending == [] && outstanding == []
      ensures events == [] && pipelineCalls == []
    {
      transcriberLoaded, loadedModelName := false, None;
      transcriptionListeners, progressListeners := [], [];
      hasStream, hasRecorder, recording, inflight := false, false, false, false;
      sessionStarted, sessionOptions, pending, outstanding := false, map[], [], [];
      events, pipelineCalls := [], [];
    }

    // ---------------------------------------------------------------
    // Listener registry

    /** Calls each of `listeners` with `payload`, in order; a listener that
        throws is logged and the loop goes on. */
    method Emit(listeners: seq<ListenerId>, payload: Payload, throwing: set<ListenerId>)
      modifies this`events
      ensures events == old(events) + FanOut(listeners, payload, throwing)
    {
      var i := 0;
      while i < |listeners|
        invariant 0 <= i <= |listeners|
        invariant events == old(events) + FanOut(listeners[..i], payload, throwing)
      {
        var cb := listeners[i];
        events := events + [Delivered(cb, payload, cb in throwing)];
        assert listeners[..i + 1][..i] == listeners[..i];
        i := i + 1;
      }
      assert listeners[..i] == listeners;
    }

    method EmitTranscription(payload: Payload, throwing: set<ListenerId>)
      modifies this`events
      ensures events == old(events) + FanOut(transcriptionListeners, payload, throwing)
    {
      Emit(transcriptionListeners, payload, throwing);
    }

    method EmitProgress(p: Progress, throwing: set<ListenerId>)
      modifies this`events
      ensures events == old(events) + FanOut(progressListeners, ProgressEvent(p), throwing)
    {
      Emit(progressListeners, ProgressEvent(p), throwing);
    }

    /** Registers a transcription listener; anything but a function is
        refused with a warning and leaves the list as it was. */
    method OnTranscription(cb: Callback)
      requires Valid()
      modifies this`transcriptionListeners
      ensures Valid()
      ensures cb.Callable? ==> transcriptionListeners == old(transcriptionListeners) + [cb.id]
      ensures cb.NotCallable? ==> transcriptionListeners == old(transcriptionListeners)
    {
      if cb.Callable? {
        transcriptionListeners := transcriptionListeners + [cb.id];
      }
    }

    /** Registers a progress listener, as `OnTranscription` does. */
    method OnProgress(cb: Callback)
      requires Valid()
      modifies this`progressListeners
      ensures Valid()
      ensures cb.Callable? ==> progressListeners == old(progressListeners) + [cb.id]
      ensures cb.NotCallable? ==> progressListeners == old(progressListeners)
    {
      if cb.Callable? {
        progressListeners := progressListeners + [cb.id];
      }
    }

    // ---------------------------------------------------------------
    // Model lifecycle

    /** A load of `modelId` is skipped: that model is loaded and no
        re-download is asked for. */
    predicate ReloadSuppressed(modelId: string, redownload: bool)
      reads this
    {
      transcriberLoaded && loadedModelName == Some(modelId) && !redownload
    }

    /** Loads the model named by `variant` (the default one when it is not
        truthy). `construction` is how building the pipeline settles. */
    method LoadModel(variant: Option<string>, redownload: bool, construction: Attempt, throwing: set<ListenerId>)
        returns (r: Outcome<LoadReply>)
      requires Valid()
      modifies this`transcriberLoaded, this`loadedModelName, this`events, this`pipelineCalls
      ensures Valid()
      ensures var id := ModelId(variant);
        old(ReloadSuppressed(id, redownload)) ==>
          r == Ok(LoadReply("already_loaded", id)) && unchanged(this)
      ensures var id := ModelId(variant);
        !old(ReloadSuppressed(id, redownload)) ==>
          pipelineCalls == old(pipelineCalls) + [Construct(id)]
      ensures var id := ModelId(variant);
        !old(ReloadSuppressed(id, redownload)) && construction.Succeeds? ==>
          r == Ok(LoadReply("loaded", id)) &&
          transcriberLoaded && loadedModelName == Some(id) &&
          events == old(events)
                    + FanOut(progressListeners, ProgressEvent(Loading(id, 0)), throwing)
                    + FanOut(progressListeners, ProgressEvent(Loaded(id, 1)), throwing)
      ensures var id := ModelId(variant);
        !old(ReloadSuppressed(id, redownload)) && construction.Fails? ==>
          r == Err(construction.error) &&
          !transcriberLoaded && loadedModelName == None &&
          events == old(events)
                    + FanOut(progressListeners, ProgressEvent(Loading(id, 0)), throwing)
                    + FanOut(progressListeners, ProgressEvent(ErrorStatus(construction.error)), throwing)
    {
      var modelId := ModelId(variant);
      if ReloadSuppressed(modelId, redownload) {
        return Ok(LoadReply("already_loaded", modelId));
      }
      EmitProgress(Loading(modelId, 0), throwing);
      pipelineCalls := pipelineCalls + [Construct(modelId)];
      match construction {
        case Succeeds =>
          transcriberLoaded := true;
          loadedModelName := Some(modelId);
          EmitProgress(Loaded(modelId, 1), throwing);
          r := Ok(LoadReply("loaded", modelId));
        case Fails(e) =>
          transcriberLoaded := false;
          loadedModelName := None;
          EmitProgress(ErrorStatus(e), throwing);
          r := Err(e);
      }
    }

    /** Drops the references to the model; the pipeline is not told. */
    method UnloadModels() returns (s: string)
      requires Valid()
      modifies this`transcriberLoaded, this`loadedModelName
      ensures Valid()
      ensures s == "unloaded" && !transcriberLoaded && loadedModelName == None
    {
      transcriberLoaded := false;
      loadedModelName := None;
      s := "unloaded";
    }

    // ---------------------------------------------------------------
    // One-shot transcription

    /** Transcribes one blob with `options` merged over the defaults;
        `inference` is how the pipeline's call settles. */
    method TranscribeBlob(blob: Blob, options: Options, inference: Outcome<RawResult>)
        returns (r: Outcome<TranscriptionResult>)
      modifies this`pipelineCalls
      ensures !transcriberLoaded ==>
        r == Err(MODEL_NOT_LOADED) && pipelineCalls == old(pipelineCalls)
      ensures transcriberLoaded ==>
        pipelineCalls == old(pipelineCalls) + [Infer(blob, MergeOptions(options))] &&
        r == Settle(Invoked(blob), inference)
    {
      if !transcriberLoaded {
        return Err(MODEL_NOT_LOADED);
      }
      var opts := MergeOptions(options);
      pipelineCalls := pipelineCalls + [Infer(blob, opts)];
      match inference {
        case Ok(raw) => r := Ok(Normalize(raw));
        case Err(e) => r := Err(e);
      }
    }

    /** Fetches the file (`fetched` is how that settles) and transcribes it;
        a failure at either step is passed to the caller. */
    method TranscribeFromFile(fetched: Outcome<Blob>, options: Options, inference: Outcome<RawResult>)
        returns (r: Outcome<TranscriptionResult>)
      modifies this`pipelineCalls
      ensures fetched.Err? ==> r == Err(fetched.error) && pipelineCalls == old(pipelineCalls)
      ensures fetched.Ok? && !transcriberLoaded ==>
        r == Err(MODEL_NOT_LOADED) && pipelineCalls == old(pipelineCalls)
      ensures fetched.Ok? && transcriberLoaded ==>
        pipelineCalls == old(pipelineCalls) + [Infer(fetched.value, MergeOptions(options))] &&
        (inference.Ok? ==> r == Ok(Normalize(inference.value))) &&
        (inference.Err? ==> r == Err(inference.error))
    {
      if fetched.Err? {
        return Err(fetched.error);
      }
      var res := TranscribeBlob(fetched.value, options, inference);
      if res.Err? {
        return Err(res.error);
      }
      var v := res.value;
      r := Ok(TranscriptionResult(v.text, v.segments, v.raw));
    }

    /** Transcribes the file with `{task: 'transcribe'}` and reports the
        language the pipeline put in its raw result, or null. */
    method DetectLanguage(fetched: Outcome<Blob>, inference: Outcome<RawResult>)
        returns (r: Outcome<Option<string>>)
      modifies this`pipelineCalls
      ensures fetched.Err? ==> r == Err(fetched.error) && pipelineCalls == old(pipelineCalls)
      ensures fetched.Ok? && !transcriberLoaded ==>
        r == Err(MODEL_NOT_LOADED) && pipelineCalls == old(pipelineCalls)
      ensures fetched.Ok? && transcriberLoaded ==>
        pipelineCalls == old(pipelineCalls) + [Infer(fetched.value, MergeOptions(map["task" := Str("transcribe")]))] &&
        (inference.Ok? ==> r == Ok(inference.value.language)) &&
        (inference.Err? ==> r == Err(inference.error))
    {
      if fetched.Err? {
        return Err(fetched.error);
      }
      var res := TranscribeBlob(fetched.value, map["task" := Str("transcribe")], inference);
      if res.Err? {
        return Err(res.error);
      }
      r := Ok(res.value.raw.language);
    }

    // ---------------------------------------------------------------
    // Streaming coordinator

    /** Opens a capture session with `options`; `capture` is how the request
        for the microphone settles. */
    method StartMicStreaming(options: Options, capture: Attempt) returns (r: Outcome<string>)
      requires Valid()
      modifies this`hasStream, this`hasRecorder, this`recording, this`sessionStarted,
               this`sessionOptions, this`pending
      ensures Valid()
      ensures old(recording) ==> r == Ok("already_recording") && unchanged(this)
      ensures !old(recording) && capture.Fails? ==> r == Err(capture.error) && unchanged(this)
      ensures !old(recording) && capture.Succeeds? ==>
        r == Ok("recording_started") &&
        recording && hasStream && hasRecorder &&
        sessionStarted && sessionOptions == options && pending == []
    {
      if recording {
        return Ok("already_recording");
      }
      if capture.Fails? {
        return Err(capture.error);
      }
      hasStream := true;
      pending := [];
      sessionOptions := options;
      sessionStarted := true;
      hasRecorder := true;
      recording := true;
      r := Ok("recording_started");
    }

    /** The `dataavailable` handler of the current session, for one captured
        chunk. While a transcription is in flight the chunk replaces the
        buffer; otherwise it is dispatched, and it settles later through
        `OnChunkTranscribed`. */
    method OnChunk(chunk: Blob)
      requires Valid() && sessionStarted
      modifies this`pending, this`inflight, this`outstanding, this`pipelineCalls
      ensures Valid()
      ensures chunk.size == 0 ==> unchanged(this)
      ensures chunk.size > 0 && old(inflight) ==>
        pending == [chunk] && inflight &&
        outstanding == old(outstanding) && pipelineCalls == old(pipelineCalls)
      ensures chunk.size > 0 && !old(inflight) ==>
        inflight && pending == old(pending) && |outstanding| == 1
      ensures chunk.size > 0 && !old(inflight) && transcriberLoaded ==>
        outstanding == [Invoked(chunk)] &&
        pipelineCalls == old(pipelineCalls) + [Infer(chunk, MergeOptions(sessionOptions))]
      ensures chunk.size > 0 && !old(inflight) && !transcriberLoaded ==>
        outstanding == [Rejected(MODEL_NOT_LOADED)] && pipelineCalls == old(pipelineCalls)
    {
      if chunk.size > 0 {
        if inflight {
          // keep the newest chunk only
          pending := [];
          pending := pending + [chunk];
          return;
        }
        inflight := true;
        if transcriberLoaded {
          pipelineCalls := pipelineCalls + [Infer(chunk, MergeOptions(sessionOptions))];
          outstanding := outstanding + [Invoked(chunk)];
        } else {
          outstanding := outstanding + [Rejected(MODEL_NOT_LOADED)];
        }
      }
    }

    /** The outstanding chunk transcription settles (`inference` is what the
        pipeline delivered): a result is emitted as a partial transcription,
        an error as a progress `error`; either way the in-flight flag clears.
        Whether a session is still recording plays no part. */
    method OnChunkTranscribed(inference: Outcome<RawResult>, throwing: set<ListenerId>)
      requires Valid() && outstanding != []
      modifies this`inflight, this`outstanding, this`events
      ensures Valid()
      ensures !inflight && outstanding == []
      ensures var settled := Settle(old(outstanding[0]), inference);
        (settled.Ok? ==>
           events == old(events) + FanOut(transcriptionListeners, PartialEvent(settled.value), throwing)) &&
        (settled.Err? ==>
           events == old(events) + FanOut(progressListeners, ProgressEvent(ErrorStatus(settled.error)), throwing))
    {
      var call := outstanding[0];
      outstanding := outstanding[1..];
      var settled := Settle(call, inference);
      match settled {
        case Ok(result) => EmitTranscription(PartialEvent(result), throwing);
        case Err(e) => EmitProgress(ErrorStatus(e), throwing);
      }
      inflight := false;
    }

    /** A recorder callback fires (`onstart`, `onstop` or `onerror`) and
        reports through the progress listeners registered at that moment. */
    method OnRecorderSignal(signal: RecorderSignal, throwing: set<ListenerId>)
      requires Valid() && sessionStarted
      modifies this`events
      ensures Valid()
      ensures events == old(events) + FanOut(progressListeners, ProgressEvent(SignalProgress(signal)), throwing)
    {
      EmitProgress(SignalProgress(signal), throwing);
    }

    /** Ends the session: releases the recorder and the stream. The in-flight
        flag, the outstanding transcription and the buffer are left as they are. */
    method StopRecording() returns (status: string)
      requires Valid()
      modifies this`recording, this`hasRecorder, this`hasStream
      ensures Valid()
      ensures !old(recording) ==> status == "not_recording" && unchanged(this)
      ensures old(recording) ==> status == "stopped" && !recording && !hasRecorder && !hasStream
    {
      if !recording {
        return "not_recording";
      }
      recording := false;
      hasRecorder := false;
      hasStream := false;
      status := "stopped";
    }

    /** Starts recording, loading the default model first when none is
        loaded; a failed load is passed to the caller and nothing is started. */
    method StartRecording(options: Options, construction: Attempt, capture: Attempt, throwing: set<ListenerId>)
        returns (r: Outcome<string>)
      requires Valid()
      modifies this`transcriberLoaded, this`loadedModelName, this`events, this`pipelineCalls,
               this`hasStream, this`hasRecorder, this`recording, this`sessionStarted,
               this`sessionOptions, this`pending
      ensures Valid()
      ensures old(transcriberLoaded) ==>
        events == old(events) && pipelineCalls == old(pipelineCalls) &&
        loadedModelName == old(loadedModelName)
      ensures !old(transcriberLoaded) ==>
        pipelineCalls == old(pipelineCalls) + [Construct(DEFAULT_MODEL)]
      ensures !old(transcriberLoaded) && construction.Fails? ==>
        r == Err(construction.error) && !transcriberLoaded &&
        recording == old(recording) && pending == old(pending) &&
        sessionOptions == old(sessionOptions) && sessionStarted == old(sessionStarted) &&
        events == old(events)
                  + FanOut(progressListeners, ProgressEvent(Loading(DEFAULT_MODEL, 0)), throwing)
                  + FanOut(progressListeners, ProgressEvent(ErrorStatus(construction.error)), throwing)
      ensures !old(transcriberLoaded) && construction.Succeeds? ==>
        loadedModelName == Some(DEFAULT_MODEL) &&
        events == old(events)
                  + FanOut(progressListeners, ProgressEvent(Loading(DEFAULT_MODEL, 0)), throwing)
                  + FanOut(progressListeners, ProgressEvent(Loaded(DEFAULT_MODEL, 1)), throwing)
      ensures old(transcriberLoaded) || construction.Succeeds? ==>
        transcriberLoaded &&
        (old(recording) ==>
           r == Ok("already_recording") && recording && pending == old(pending) &&
           sessionOptions == old(sessionOptions) && sessionStarted == old(sessionStarted)) &&
        (!old(recording) && capture.Fails? ==>
           r == Err(capture.error) && !recording && pending == old(pending) &&
           sessionOptions == old(sessionOptions) && sessionStarted == old(sessionStarted)) &&
        (!old(recording) && capture.Succeeds? ==>
           r == Ok("recording_started") && recording &&
           sessionStarted && sessionOptions == options && pending == [])
    {
      if !transcriberLoaded {
        var loaded := LoadModel(None, false, construction, throwing);
        if loaded.Err? {
          return Err(loaded.error);
        }
      }
      r := StartMicStreaming(options, capture);
    }

    /** Resets the bridge: empties both listener lists, then stops any
        session (ignoring its outcome), then drops the model. */
    method ClearState() returns (s: string)
      requires Valid()
      modifies this`transcriptionListeners, this`progressListeners, this`recording,
               this`hasRecorder, this`hasStream, this`transcriberLoaded, this`loadedModelName
      ensures Valid()
      ensures s == "cleared"
      ensures transcriptionListeners == [] && progressListeners == []
      ensures !recording && !hasRecorder && !hasStream
      ensures !transcriberLoaded && loadedModelName == None
    {
      transcriptionListeners := [];
      progressListeners := [];
      var _ := StopRecording();
      transcriberLoaded := false;
      loadedModelName := None;
      s := "cleared";
    }
  }
}
