# flutter_whisper_kit web bridge, modelled in Dafny

The web package of flutter_whisper_kit ships one ES module,
`flutter_whisper_kit_web.js`, that exposes a speech-to-text pipeline to a
Flutter Web host as `window.flutterWhisperKit`. Beneath its glue to the
browser and to the Transformers.js pipeline the module is a small state
machine over module-level variables: the loaded model, two listener lists,
the microphone session, the in-flight flag and the per-session chunk
buffer. This project models that state machine and proves what the code
promises about it.

Layout:

- `values.dfy` (module `Values`): the data that flows through the bridge.
  This covers JavaScript option values, audio blobs, raw and normalised
  pipeline results, `progress`/`transcription` payloads, the log entry for
  one listener call, and the log entry for one call into the pipeline library.
- `transcribe.dfy` (module `Transcribe`): the pure parts. This covers the
  choice of model id, the merge of transcription options with their defaults
  (`?? default` followed by `...options`), and result normalisation.
- `listeners.dfy` (module `Listeners`): one emission as a value (`FanOut`),
  with lemmas on order, completeness and failure isolation.
- `bridge.dfy` (module `WhisperBridge`): class `Bridge`. Its fields are the
  module state. `events` logs every listener call, `pipelineCalls` logs
  every call into the pipeline library, and `outstanding` holds the chunk
  transcription that has been dispatched and not yet settled. `Valid()` is
  the invariant every method keeps: at most one chunk transcription is
  outstanding, exactly one while `inflight`; the buffer holds at most one
  chunk; a model name is recorded exactly when a model is loaded; the
  capture handles are held exactly while recording.
- `scenarios.dfy` (module `Scenarios`): sequences of calls and what they
  add up to.

Foreign effects are parameters:
- `construction` is how building the pipeline settles.
- `inference` is what one transcription call delivers.
- `capture` is how `getUserMedia` settles.
- `fetched` is how fetching a file settles.
- `throwing` is the set of listeners that throw when called.

The chunk handler's `await` is split in two: `OnChunk` dispatches a
transcription and `OnChunkTranscribed` settles it. Chunks can arrive and
sessions can stop and restart between those two steps. The calls the host
awaits itself (load, start, file transcription, language detection) are
each one step, with the settled foreign results as parameters.

Behaviour of the code worth knowing:
- Stopping does not reset the in-flight flag or the buffer.
- The buffered chunk is never dispatched. So with a slow transcription, three
  chunks give one pipeline call (`Scenarios.SlowTranscriptionKeepsNewest`).
- An `error` progress event carries only `error`, not the model id.
- `recording_stopped` is emitted by the recorder's `onstop` callback, not by
  the stop itself.
- The file transcription re-applies `segments ?? []` to an already
  normalised result (line 227); since `Normalize` always supplies segments,
  that step changes nothing, and `TranscribeFromFile` returns the normalised
  result as it is.

## Model

| member | source | states |
|---|---|---|
| `Transcribe.ModelId` | packages/flutter_whisper_kit_web/assets/flutter_whisper_kit_web.js:53 | the id is the variant when it is a non-empty string, else the default model; it is never empty |
| `Transcribe.MergeOptions` | packages/flutter_whisper_kit_web/assets/flutter_whisper_kit_web.js:94-102 | the merged keys are the given keys plus the five defaulted ones; every given key keeps its value, even undefined or null; every absent defaulted key gets 30, 5, 'transcribe', undefined or false |
| `Transcribe.CoalesceIsOverridden` | packages/flutter_whisper_kit_web/assets/flutter_whisper_kit_web.js:94-102 | because the spread comes last, the `??` fallbacks never decide anything: the merge equals plain defaults overridden by the given object |
| `Transcribe.UndefinedOverridesDefault` | packages/flutter_whisper_kit_web/assets/flutter_whisper_kit_web.js:96-101 | a defaulted key given as undefined reaches the pipeline as undefined, not as its default |
| `Transcribe.Normalize` | packages/flutter_whisper_kit_web/assets/flutter_whisper_kit_web.js:109-113 | text is the pipeline's text or '' when missing; segments are the pipeline's or empty when missing; raw is the pipeline result unchanged |
| `Listeners.FanOutAt` | packages/flutter_whisper_kit_web/assets/flutter_whisper_kit_web.js:33-47 | an emission makes exactly one call per registered listener; the i-th call goes to the i-th listener with the payload unchanged |
| `Listeners.FanOutReachesAll` | packages/flutter_whisper_kit_web/assets/flutter_whisper_kit_web.js:35-37 | whichever listeners throw, every registered listener is called, in registration order |
| `WhisperBridge.Settle` | packages/flutter_whisper_kit_web/assets/flutter_whisper_kit_web.js:157-168 | a transcription rejected for want of a model fails with that error; an invoked one fails with the pipeline's error or succeeds with the normalised pipeline result |
| `WhisperBridge.Bridge.constructor` | packages/flutter_whisper_kit_web/assets/flutter_whisper_kit_web.js:15-27 | no model, no listeners, no session, not in flight, empty logs |
| `WhisperBridge.Bridge.Emit` | packages/flutter_whisper_kit_web/assets/flutter_whisper_kit_web.js:33-47 | the event log grows by exactly the fan-out of the payload to the given listeners |
| `WhisperBridge.Bridge.EmitTranscription` | packages/flutter_whisper_kit_web/assets/flutter_whisper_kit_web.js:33-39 | the log grows by the fan-out to the transcription listeners; nothing else changes |
| `WhisperBridge.Bridge.EmitProgress` | packages/flutter_whisper_kit_web/assets/flutter_whisper_kit_web.js:41-47 | the log grows by the fan-out to the progress listeners; nothing else changes |
| `WhisperBridge.Bridge.OnTranscription` | packages/flutter_whisper_kit_web/assets/flutter_whisper_kit_web.js:257-263 | a function is appended at the end; anything else leaves the list unchanged |
| `WhisperBridge.Bridge.OnProgress` | packages/flutter_whisper_kit_web/assets/flutter_whisper_kit_web.js:266-272 | a function is appended at the end; anything else leaves the list unchanged |
| `WhisperBridge.Bridge.LoadModel` | packages/flutter_whisper_kit_web/assets/flutter_whisper_kit_web.js:51-85 | the same model, loaded, without re-download: `already_loaded`, no pipeline call, no event, no change. Otherwise one construction call, and `loading` at progress 0 to every progress listener. On success the model is recorded, `loaded` at progress 1 follows, and the reply is `loaded`. On failure both model fields are cleared, whatever was loaded before, `error` follows, and the error is returned |
| `WhisperBridge.Bridge.UnloadModels` | packages/flutter_whisper_kit_web/assets/flutter_whisper_kit_web.js:296-307 | both model fields are cleared, nothing else changes, and the result is 'unloaded' |
| `WhisperBridge.Bridge.TranscribeBlob` | packages/flutter_whisper_kit_web/assets/flutter_whisper_kit_web.js:89-114 | with no model: the not-loaded error and no pipeline call; otherwise one inference call with the merged options, and the normalised result or the pipeline's error |
| `WhisperBridge.Bridge.TranscribeFromFile` | packages/flutter_whisper_kit_web/assets/flutter_whisper_kit_web.js:222-232 | a fetch failure, a missing model or a pipeline failure is returned as the error; otherwise the normalised result |
| `WhisperBridge.Bridge.DetectLanguage` | packages/flutter_whisper_kit_web/assets/flutter_whisper_kit_web.js:275-289 | transcribes with `{task: 'transcribe'}` merged over the defaults and yields the raw result's language, or null when it has none; failures are returned |
| `WhisperBridge.Bridge.StartMicStreaming` | packages/flutter_whisper_kit_web/assets/flutter_whisper_kit_web.js:126-141 | while recording: `already_recording` and no change; a denied capture: the error and no change; otherwise recording with both handles, the session's options captured, an empty buffer, and `recording_started` |
| `WhisperBridge.Bridge.OnChunk` | packages/flutter_whisper_kit_web/assets/flutter_whisper_kit_web.js:143-156 | a zero-size chunk changes nothing. While in flight, the buffer becomes exactly `[chunk]` and no transcription starts. Otherwise the flag is set and exactly one transcription is dispatched: one inference call with the session's merged options, or a rejection when no model is loaded |
| `WhisperBridge.Bridge.OnChunkTranscribed` | packages/flutter_whisper_kit_web/assets/flutter_whisper_kit_web.js:157-171 | the flag clears and nothing stays outstanding. A success emits one partial transcription (`isPartial: true`) to every transcription listener; a failure emits one progress `error`. Recording is untouched, and a result that settles after a stop is still emitted |
| `WhisperBridge.Bridge.OnRecorderSignal` | packages/flutter_whisper_kit_web/assets/flutter_whisper_kit_web.js:175-177 | the recorder's callback reaches exactly the progress listeners registered at that moment |
| `WhisperBridge.Bridge.StopRecording` | packages/flutter_whisper_kit_web/assets/flutter_whisper_kit_web.js:184-202 | when not recording: `not_recording` and no change; otherwise recording ends, both handles are cleared, and `stopped` is returned; the flag and the buffer are left as they are |
| `WhisperBridge.Bridge.StartRecording` | packages/flutter_whisper_kit_web/assets/flutter_whisper_kit_web.js:235-247 | with no model, the default model is loaded first, and a failed load is returned without starting anything and with the session fields unchanged; then the start guard applies as in `StartMicStreaming`: while recording, or on a denied capture, the running session keeps its options, buffer and recording state |
| `WhisperBridge.Bridge.ClearState` | packages/flutter_whisper_kit_web/assets/flutter_whisper_kit_web.js:309-317 | both listener lists are empty, not recording, no handles, no model, 'cleared'; no event is emitted |
| `Scenarios.SlowTranscriptionKeepsNewest` | packages/flutter_whisper_kit_web/assets/flutter_whisper_kit_web.js:149-171 | three chunks during one slow transcription: only the first reaches the pipeline, the buffer ends as exactly the newest, and the flag is clear once it settles |
| `Scenarios.StaleFlagAcrossSessions` | packages/flutter_whisper_kit_web/assets/flutter_whisper_kit_web.js:184-197 | after a stop with a transcription in flight, a restarted session's first chunk is only buffered and starts no transcription |
| `Scenarios.LateResultStillEmitted` | packages/flutter_whisper_kit_web/assets/flutter_whisper_kit_web.js:159-165 | a transcription that settles after the stop still reaches the registered listener as a partial result |
| `Scenarios.StopTwice` | packages/flutter_whisper_kit_web/assets/flutter_whisper_kit_web.js:185 | the second of two stops in a row returns `not_recording` |
| `Scenarios.LoadTwice` | packages/flutter_whisper_kit_web/assets/flutter_whisper_kit_web.js:61-64 | after a successful load, loading the same id again returns `already_loaded`, calls no pipeline and emits no event: the two loads together add nothing when the model was already loaded, and otherwise exactly one construction and one `loading`/`loaded` pair |
| `Scenarios.ClearThenRecorderStops` | packages/flutter_whisper_kit_web/assets/flutter_whisper_kit_web.js:309-313 | the lists are emptied before the stop, so the recorder's `onstop` after a reset reaches nobody |
| `Scenarios.FailedChunkKeepsRecording` | packages/flutter_whisper_kit_web/assets/flutter_whisper_kit_web.js:166-171 | a failed chunk transcription leaves the session recording and the flag clear, and reports one progress `error`: the pipeline's error, or the not-loaded error when no model was loaded |

## Left out

- The CDN import of Transformers.js and its cache flags (lines 9-13) are configuration of a foreign library.
- Building the pipeline and running inference (lines 69, 106) are foreign calls. They appear only as logged calls (`pipelineCalls`) and as their settled outcomes.
- `_fetchToBlob` (lines 117-123) is network I/O. It appears only as the settled `fetched` outcome, with its error message taken as given.
- `getUserMedia` is reduced to the `capture` outcome. Not modelled: MIME negotiation, `MediaRecorder` construction, `start(chunkMs)` and the chunk timer. `chunkMs` stays in the options, as in the code, and so reaches the pipeline through the merge.
- A throwing `new MediaRecorder` (line 140) or `mediaRecorder.start(chunkMs)` (line 179) is not modelled. The first would leave the stream held with `recording` false; the second would leave `recording` true while the error goes to the caller. `Valid()`'s tie between the handles and `recording` holds only because the microphone request is the one failure point of a start in this model.
- A recorder's final `dataavailable` that fires after a new session has started would use the old session's buffer and options. `OnChunk` always uses the latest session's.
- The recorder callbacks appear only as the emission they perform (`OnRecorderSignal`). The `record_error` payload's browser event object is not modelled.
- `deviceName`, `loggingCallback` and all console logging are left out. They are host I/O with no effect on state.
- The `confidence: 1.0` of language detection is left out; it is a fixed floating-point constant.
- The `repo` option of `loadModel` is left out; the code computes it and never uses it.
- Concurrent host calls are not modelled: two overlapping loads, or a start racing another start past the `recording` guard. Each host-awaited call is one step.
- Listeners are opaque. A listener that calls back into the bridge while an emission runs is not modelled. JavaScript's `forEach` would not visit listeners added during that emission.
- Option values cover undefined, null, booleans, integers and strings. Non-integer numbers and nested objects are left out.
- The pipeline result's fields are typed text, segments and language, each possibly missing. A field of some other type is left out.
- `WhisperBridge.Bridge.LoadModel`: one `throwing` set covers both emissions of a load. A listener that throws on one emission and not the other is not modelled. The calls made are the same either way.
