/** The values that flow through the web bridge: JavaScript option values,
    audio blobs, raw and normalised pipeline results, listener events and the
    log of calls into the speech-recognition pipeline. */
module Values {

  datatype Option<+T> = None | Some(value: T) {
    /** JavaScript's `x ?? fallback` where `None` stands for null or undefined. */
    function OrElse(fallback: T): (r: T) {
      match this
      case Some(v) => v
      case None => fallback
    }
  }

  /** The settled value of a promise: fulfilled with a value, or rejected with
      the thrown value rendered by `String(err)`. */
  datatype Outcome<+T> = Ok(value: T) | Err(error: string)

  /** A foreign call whose fulfilled value the bridge does not look at. */
  datatype Attempt = Succeeds | Fails(error: string)

  /** The JavaScript values an option object may hold (non-integer numbers
      are not modelled). */
  datatype JsValue = Undefined | Null | Bool(b: bool) | Number(n: int) | Str(s: string)

  /** A plain JavaScript object: its own keys and their values. */
  type Options = map<string, JsValue>

  /** An audio Blob: an identity and its size in bytes; its contents are opaque. */
  datatype Blob = Blob(id: nat, size: nat)

  /** A pipeline-defined segment object, passed through uninterpreted. */
  datatype Segment = Segment(fields: map<string, JsValue>)

  /** What the pipeline returns; every field may be missing (null or undefined). */
  datatype RawResult = RawResult(text: Option<string>, segments: Option<seq<Segment>>, language: Option<string>)

  /** The stable `{text, segments, raw}` shape the bridge hands out. */
  datatype TranscriptionResult = TranscriptionResult(text: string, segments: seq<Segment>, raw: RawResult)

  /** A callback is identified by the reference the registry holds. */
  type ListenerId = nat

  /** What the host passes to a registration call: a function, or anything else. */
  datatype Callback = Callable(id: ListenerId) | NotCallable(value: JsValue)

  /** The payloads of `progress` events. */
  datatype Progress =
    | Loading(model: string, progress: int)
    | Loaded(model: string, progress: int)
    | ErrorStatus(error: string)
    | RecordingStarted
    | RecordingStopped
    | RecordError

  /** A payload on either channel: `progress`, or `transcription`. */
  datatype Payload =
    | ProgressEvent(progress: Progress)
    | TranscriptionEvent(text: string, isPartial: bool, segments: seq<Segment>)

  /** One call of one listener; `threw` is whether that listener threw
      (the exception is caught and only logged). */
  datatype Event = Delivered(listener: ListenerId, payload: Payload, threw: bool)

  /** A call into the external pipeline library. */
  datatype PipelineCall = Construct(model: string) | Infer(audio: Blob, options: Options)

  /** The `{status, model}` object a load resolves with. */
  datatype LoadReply = LoadReply(status: string, model: string)

  /** The recorder callbacks that report on the session through `progress`. */
  datatype RecorderSignal = OnStart | OnStop | OnError
}
