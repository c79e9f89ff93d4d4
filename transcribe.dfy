/** The pure parts of the bridge: choosing the model id, merging the
    transcription options with their defaults, and normalising what the
    pipeline returns. */
module Transcribe {
  import opened Values

  /** The model loaded when none is named. */
  const DEFAULT_MODEL: string := "Xenova/whisper-small"

  /** `String(err)` of the error thrown when a transcription is asked for
      before any model is loaded. */
  const MODEL_NOT_LOADED: string := "Error: Model not loaded. Call loadModel() first."

  /** The model id a load request names: the variant when it is truthy
      (present and non-empty), the default model otherwise. */
  function ModelId(variant: Option<string>): (id: string)
    ensures id != ""
    ensures variant.Some? && variant.value != "" ==> id == variant.value
    ensures variant == None || variant == Some("") ==> id == DEFAULT_MODEL
  {
    if variant.Some? && |variant.value| > 0 then variant.value else DEFAULT_MODEL
  }

  /** Reading `o.key`: the value when the key is present. */
  function Get(o: Options, key: string): (v: Option<JsValue>) {
    if key in o then Some(o[key]) else None
  }

  /** `o.key ?? fallback`: a missing key, undefined and null all give the fallback. */
  function Coalesce(v: Option<JsValue>, fallback: JsValue): (r: JsValue) {
    match v
    case None => fallback
    case Some(Undefined) => fallback
    case Some(Null) => fallback
    case Some(x) => x
  }

  /** The keys the bridge supplies defaults for. */
  const DefaultKeys: set<string> :=
    {"chunk_length_s", "stride_length_s", "task", "language", "return_timestamps"}

  /** The documented default of each such key. */
  function Default(key: string): (v: JsValue)
    requires key in DefaultKeys
  {
    if key == "chunk_length_s" then Number(30)
    else if key == "stride_length_s" then Number(5)
    else if key == "task" then Str("transcribe")
    else if key == "language" then Undefined
    else Bool(false)
  }

  /** The options object handed to the pipeline: the defaults, each written
      as `options.key ?? default`, followed by `...options`. Every key of
      `options` wins over its default, whatever its value, even undefined. */
  function MergeOptions(options: Options): (opts: Options)
    ensures opts.Keys == options.Keys + DefaultKeys
    ensures forall k :: k in options ==> opts[k] == options[k]
    ensures forall k :: k in DefaultKeys && k !in options ==> opts[k] == Default(k)
  {
    var defaults := map[
      "chunk_length_s" := Coalesce(Get(options, "chunk_length_s"), Number(30)),
      "stride_length_s" := Coalesce(Get(options, "stride_length_s"), Number(5)),
      "task" := Coalesce(Get(options, "task"), Str("transcribe")),
      "language" := Coalesce(Get(options, "language"), Undefined),
      "return_timestamps" := Coalesce(Get(options, "return_timestamps"), Bool(false))
    ];
    assert defaults.Keys == DefaultKeys;
    defaults + options
  }

  /** The defaults without the `??` in front of them. */
  function PlainDefaults(): (d: Options)
    ensures d.Keys == DefaultKeys
  {
    map k | k in DefaultKeys :: Default(k)
  }

  /** Because `...options` comes after the defaults, the `??` in each default
      never decides anything: the merge equals plain defaults overridden by
      every key present in `options`. */
  lemma CoalesceIsOverridden(options: Options)
    ensures MergeOptions(options) == PlainDefaults() + options
  {
  }

  /** A key present with the value undefined reaches the pipeline as
      undefined instead of its default. */
  lemma UndefinedOverridesDefault(options: Options, k: string)
    requires k in DefaultKeys && k in options && options[k] == Undefined
    ensures MergeOptions(options)[k] == Undefined
    ensures k != "language" ==> MergeOptions(options)[k] != Default(k)
  {
  }

  /** The normalised result: the text, or the empty string when the pipeline
      gave none; the segments, or none when it gave none; and the raw
      result itself. */
  function Normalize(raw: RawResult): (r: TranscriptionResult)
    ensures r.raw == raw
    ensures raw.text == None ==> r.text == ""
    ensures raw.text.Some? ==> r.text == raw.text.value
    ensures raw.segments.Some? ==> r.segments == raw.segments.value
    ensures raw.segments == None ==> r.segments == []
  {
    TranscriptionResult(raw.text.OrElse(""), raw.segments.OrElse([]), raw)
  }

}
