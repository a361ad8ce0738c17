# Transcription worker and translation panel, modelled in Dafny

This project models the sequential core of a browser speech-to-text app. It covers two pieces.

**The transcription worker** (`src/utils/whisper.worker.js`) loads a Whisper pipeline once and caches it. It runs the pipeline over the submitted audio and reports to the host thread through `postMessage`: LOADING, DOWNLOADING, RESULT, RESULT_PARTIAL and INFERENCE_DONE messages. Its `GenerationTracker` does two things during a run:
- it counts decoding steps and posts a preview of the best beam on every 10th step;
- after every completed chunk it re-decodes the whole chunk list into timestamped segments `{index, text, start, end}`.

**The translation panel** (`src/components/Information.jsx`) holds the request state: `translating`, `toLanguage` and `translation`. It submits at most one translation request at a time, and only once a target language is chosen. It reacts to "update" and "complete" messages from the translation worker and selects the text to display.

Files:
- `wrappers.dfy`: `Option`, which stands for `null`/`undefined`.
- `transcript.dfy`: `Math.round` on reals, `String.prototype.trim`, `processChunk` and `getLastChunkTimestamp`.
- `tracker.dfy`: the worker's message vocabulary and the `Channel` class, which keeps the log of posted messages. Also the `GenerationTracker` class and a functional description of the tracker (`Step`, `Run`, `RunLog`). The class methods are proved against that description, and the throttling and reconciliation lemmas are proved about it.
- `worker.dfy`: the pipeline singleton (`GetInstance`), `load_model_callback`, `transcribe` and the worker's message listener. Also the lemmas on the order and number of the messages one request posts.
- `information.dfy`: the panel's request state machine, both as a class and as functions over `RequestState`, with the single-flight and missing-language lemmas. Also the `textElement` selector and the one-time creation of the translation worker.

Modelling choices:
- Timestamps are `real`. `Math.round(x)` is `(x + 0.5).Floor`, which agrees with JavaScript for negative halves too: `Math.round(-2.5)` is `-2`.
- The tokenizer's `decode` and `_decode_asr` are uninterpreted function fields of a `Tokenizer` value.
- Loading the model is a `LoadRun`: the progress events the loader reports, and the pipeline it yields, or `None` when it throws.
- Running the model is the sequence of callback events it makes: a decoding step with its beams, or a completed chunk.
- `postMessage` appends to a log.
- The panel's methods require and keep `Valid()`: at most one worker has been created, and every registered listener has an identity handed out before. The constructor establishes it, and every method keeps it.

Where the code's behaviour is easy to misread, the model follows the code:
- `processChunk` also uses the fallback end when the raw end rounds to 0. This is because `Math.round(end) || …` treats 0 as missing.
- When the pipeline fails to load, `transcribe` still posts "Éxito". It then throws a TypeError while building the `GenerationTracker` around `undefined`. So no INFERENCE_DONE is posted, and the model returns `LoadFailed` at that point.
- `getInstance` only checks whether a pipeline is cached. Two calls made before the first load finishes each start a load.
- The request state is the single value `translating`, which is null, false or true. Once set, it never becomes null again.

## Model

| member | source | states |
|---|---|---|
| Transcript.Round | src/utils/whisper.worker.js:175 | `Math.round` yields the integer nearest to its argument, with halves rounded up |
| Transcript.RoundUnique | src/utils/whisper.worker.js:175-176 | the nearest integer is unique, so any integer within half of `x` is `Round(x)` |
| Transcript.Trim | src/utils/whisper.worker.js:174 | `text.trim()` strips only whitespace, from both ends, and the result neither starts nor ends with whitespace |
| Transcript.TrimIdempotent | src/utils/whisper.worker.js:174 | trimming a trimmed text changes nothing |
| Transcript.ProcessChunk | src/utils/whisper.worker.js:168-178 | keeps the index and trims the text. `start` is the integer nearest the raw start. `end` is the integer nearest the raw end when that end exists and does not round to 0; otherwise it is the integer nearest `start + 0.9 * stride` |
| Transcript.ProcessChunks | src/utils/whisper.worker.js:149-151 | one segment per decoded chunk; segment `i` has index `i` and the trimmed text of chunk `i` |
| Transcript.LastChunkTimestamp | src/utils/whisper.worker.js:161-165 | 0 exactly when no segment has been processed, and undefined otherwise |
| Transcript.ProcessChunkRoundsBothEnds | src/utils/whisper.worker.js:175-176 | raw (2.3, 4.96) becomes the segment [2, 5] |
| Transcript.ProcessChunkMissingEnd | src/utils/whisper.worker.js:176 | raw (10.2, no end) with stride 5 becomes [10, 15] |
| Transcript.ProcessChunkEndRoundingToZero | src/utils/whisper.worker.js:176 | an end of 0.2 rounds to 0, so start 3 takes the fallback end 8 |
| Transcript.ProcessChunkTrimsText | src/utils/whisper.worker.js:174 | " hola " becomes the segment text "hola" |
| Tracker.PartialMessage | src/utils/whisper.worker.js:122-133 | a preview carries the decoded best beam and has no end. Its start is 0 exactly when no segment exists, and undefined otherwise |
| Tracker.ResultMessage | src/utils/whisper.worker.js:153-157 | a RESULT carries the rebuilt list and `isDone` false. `completedUntilTimestamp` is 0 exactly when that list is empty, and undefined otherwise |
| Tracker.StepPreviews | src/utils/whisper.worker.js:116-121 | one event posts a preview exactly when it is a decoding step that brings the counter to a multiple of 10; only decoding steps advance the counter |
| Tracker.StepResults | src/utils/whisper.worker.js:137-158 | one event posts a RESULT exactly when it is a completed chunk |
| Tracker.RunThrottles | src/utils/whisper.worker.js:116-121 | over any run, the step counter grows by the number of decoding steps. The previews posted are the multiples of 10 the counter passes |
| Tracker.PreviewsFromStart | src/utils/whisper.worker.js:116-133 | from a fresh tracker, N decoding steps post exactly ⌊N/10⌋ previews |
| Tracker.RunReconciles | src/utils/whisper.worker.js:137-151 | the chunk list is the old list followed by the run's chunks, in order. The segments are rebuilt from that whole list, so they depend on nothing else |
| Tracker.RunResultCount | src/utils/whisper.worker.js:137-158 | every completed chunk posts exactly one RESULT |
| Tracker.RunLogKinds | src/utils/whisper.worker.js:116-158 | while the pipeline runs, the tracker posts only RESULT and RESULT_PARTIAL messages |
| Tracker.GenerationTracker.constructor | src/utils/whisper.worker.js:99-108 | starts with no chunks, no segments and a zero counter |
| Tracker.GenerationTracker.SendFinalResult | src/utils/whisper.worker.js:111-113 | posts INFERENCE_DONE and nothing else |
| Tracker.GenerationTracker.CallbackFunction | src/utils/whisper.worker.js:116-134 | adds exactly 1 to the counter. It posts one preview of `beams[0]` when the new counter is a multiple of 10, and nothing otherwise |
| Tracker.GenerationTracker.ChunkCallback | src/utils/whisper.worker.js:137-158 | appends the chunk last. It replaces the segments by the decoding of the whole list and posts them as one RESULT |
| Worker.ProgressEventsCount | src/utils/whisper.worker.js:70-76 | the reports `load_model_callback` forwards are the "progress" reports, each as many times as the loader made it, and no other report |
| Worker.ProgressEventsAppend | src/utils/whisper.worker.js:70-76 | the forwarded reports of two runs of reports are those of the first run, then those of the second, so the reports keep their order |
| Worker.DownloadMessages | src/utils/whisper.worker.js:70-76 | a run of load reports posts as many DOWNLOADING messages as it has "progress" reports, and only DOWNLOADING messages |
| Worker.DownloadMessagesInOrder | src/utils/whisper.worker.js:70-76 | the i-th DOWNLOADING message carries the file, progress, loaded and total of the i-th "progress" report |
| Worker.LoadModelCallback | src/utils/whisper.worker.js:70-76 | forwards a "progress" event as one DOWNLOADING message and ignores every other status |
| Worker.TranscriptionPipeline.constructor | src/utils/whisper.worker.js:11 | the cache starts empty |
| Worker.TranscriptionPipeline.GetInstance | src/utils/whisper.worker.js:14-20 | loads only when nothing is cached. A cached pipeline is returned unchanged and nothing is posted. A load that throws leaves the cache empty, so the next call loads again |
| Worker.RunPipeline | src/utils/whisper.worker.js:55-64 | feeding the pipeline's events to the tracker yields exactly the state and the log of the functional description |
| Worker.LoadStage | src/utils/whisper.worker.js:35-47 | posts "Cargando", the downloads of a load when nothing is cached, then "Éxito"; the cache then holds the cached pipeline or the loaded one |
| Worker.RunAndFinish | src/utils/whisper.worker.js:52-66 | a fresh tracker fed the run posts exactly the run's log of the functional description, then INFERENCE_DONE |
| Worker.Transcribe | src/utils/whisper.worker.js:34-67 | posts "Cargando", the downloads of a load, "Éxito", then the run's results and INFERENCE_DONE. When no pipeline could be loaded it stops after "Éxito" with `LoadFailed` |
| Worker.OnMessage | src/utils/whisper.worker.js:24-31 | only an inference request starts a transcription. It posts that transcription's log and leaves the cache holding the pipeline it used, or empty when the load failed. Any other message changes nothing |
| Worker.LoadingPartOrdered | src/utils/whisper.worker.js:35-47 | the loading messages are in phase order: "Cargando", then DOWNLOADING messages, then "Éxito" |
| Worker.TranscribeMessageOrder | src/utils/whisper.worker.js:35-66 | "Cargando" comes first and only once. DOWNLOADING messages come next, then "Éxito" (posted after a failed load too), then results and previews, then INFERENCE_DONE |
| Worker.TranscribeDoneOnce | src/utils/whisper.worker.js:35-66 | when a pipeline was available, INFERENCE_DONE is the last message and appears exactly once. Otherwise it never appears, and the log ends with "Éxito" |
| Worker.TranscribeResultCounts | src/utils/whisper.worker.js:52-66 | a completed request holds ⌊N/10⌋ previews for N decoding steps and one RESULT per chunk |
| Information.Texts | src/components/Information.jsx:72 | the transcript's texts, in order |
| Information.TextElementOf | src/components/Information.jsx:46-49 | the segment texts on the transcription tab. On any other tab, the translation, or "Traducción no disponible" when it is null or empty |
| Information.SingleFlight | src/components/Information.jsx:64-69 | a run of actions posts at most one request more than the "complete" messages it receives, and none more when a request is already in flight |
| Information.NoLanguageNoRequest | src/components/Information.jsx:64-67 | while no language but the sentinel "Select language" is chosen, no request is ever posted |
| Information.RequestsWellFormed | src/components/Information.jsx:69-75 | every request carries the transcript texts in order, `src_lang` "eng_latin" and a chosen target language |
| Information.CompleteReenables | src/components/Information.jsx:34-35 | after "complete", submitting with a chosen language posts a request |
| Information.InformationPanel.constructor | src/components/Information.jsx:6-12 | first render: transcription tab, no translation, "Select language", `translating` null, no worker |
| Information.InformationPanel.MountEffect | src/components/Information.jsx:14-21 | creates the worker only when there is none, so at most one ever exists. Registers one new listener |
| Information.InformationPanel.Cleanup | src/components/Information.jsx:42-43 | removes exactly the listener that this run of the effect registered |
| Information.InformationPanel.MountThenUnmount | src/components/Information.jsx:14-44 | mount followed by cleanup leaves the worker and its listeners as they were |
| Information.InformationPanel.OnMessageReceived | src/components/Information.jsx:22-38 | "update" replaces the translation and "complete" sets `translating` to false. Every other status changes nothing. Keeps the panel invariant |
| Information.InformationPanel.GenerateTranslation | src/components/Information.jsx:64-76 | when a request is in flight or no language is chosen, changes nothing and posts nothing. Otherwise sets `translating` and posts one request with the texts, "eng_latin" and the target language. Keeps the panel invariant |
| Information.InformationPanel.SetToLanguage | src/components/Information.jsx:9 | the chosen language replaces `toLanguage`. Keeps the panel invariant |
| Information.InformationPanel.SetTab | src/components/Information.jsx:7 | the chosen tab replaces `tab`. Keeps the panel invariant |

## Left out

- Model loading and inference, `tokenizer.decode` and `tokenizer._decode_asr` are foreign library calls. They are parameters and uninterpreted function fields.
- The computation of `time_precision` is a float division over the model's configuration. It is the opaque field `Pipeline.timePrecision`.
- Floating point is not modelled: `start + 0.9 * stride` and the rounding are computed on exact reals, and NaN is not modelled.
- Two concurrent `getInstance` calls can both see `null` and load twice. This is not modelled because the model is sequential; so is the asynchronous, structured-clone transport of Web Worker messages.
- Tracker.GenerationTracker.CallbackFunction: an empty beam list is excluded by the `BeamList` type. The source would throw a TypeError on `beams[0]`, on emitting calls only.
- Worker.Transcribe: the TypeError thrown after a failed load is modelled as the outcome `LoadFailed`, not as a crash. Errors thrown by the inference run itself are not modelled.
- Information.InformationPanel.GenerateTranslation requires that the worker exists. Event handlers only run after the mount effect has created it.
- React batches state updates and re-renders. Two clicks handled within one render could both see the old `translating`. The model applies every update at once, in order.
- The setters that the `Translation` child component receives (`setTranslating`, `setTranslation`) are not modelled, because that component is not part of this model.
- The message listener registered by the effect is not invoked by the model. `OnMessageReceived` is called directly, once per message.
- Rendering, tab buttons, `console.log`, `handleCopy` and `handleDownload` are left out: they are UI, clipboard, Blob/DOM and clock I/O.
- `translate.worker.js` and `presets.js` (the `MessageTypes` constants) are not part of this model. The message kinds are datatype constructors.
