/**
 * The transcription worker's request handling (src/utils/whisper.worker.js):
 * the lazily loaded pipeline singleton, the load-progress callback, and the
 * order of the messages one transcription request posts. Loading the model is
 * given as a `LoadRun` (the progress events it reports and the pipeline it
 * yields, or None when it throws); running the model is given as the sequence
 * of tracker events it produces.
 */
module Worker {
  import opened Wrappers
  import opened Transcript
  import opened Tracker

  /** Overlap between consecutive audio chunks, in seconds. */
  const StrideLength: real := 5.0
  const LoadingStarted := "Cargando"
  const LoadingSucceeded := "\U{00C9}xito"

  /** A progress report of the model loader. */
  datatype LoadEvent = LoadEvent(status: string, file: string, progress: real, loaded: int, total: int)

  /** What loading the Whisper model with `pipeline(task, model, {progress_callback})` does: its reports, then its pipeline or None if it throws. */
  datatype LoadRun = LoadRun(events: seq<LoadEvent>, loaded: Option<Pipeline>)

  function DownloadingFor(e: LoadEvent): WorkerMessage {
    Downloading(e.file, e.progress, e.loaded, e.total)
  }

  /** The load events with status "progress", in the order the loader reported them. */
  function ProgressEvents(events: seq<LoadEvent>): (r: seq<LoadEvent>)
    ensures |r| <= |events|
  {
    if events == [] then []
    else
      var prefix, e := events[..|events| - 1], events[|events| - 1];
      ProgressEvents(prefix) + (if e.status == "progress" then [e] else [])
  }

  /** The filter keeps every progress report as often as it occurs, and nothing else. */
  lemma {:induction false} ProgressEventsCount(events: seq<LoadEvent>)
    ensures forall e :: multiset(ProgressEvents(events))[e] == if e.status == "progress" then multiset(events)[e] else 0
  {
    if events != [] {
      var prefix, e := events[..|events| - 1], events[|events| - 1];
      assert events == prefix + [e];
      ProgressEventsCount(prefix);
    }
  }

  /** Filtering a concatenation filters each part, keeping their order. */
  lemma {:induction false} ProgressEventsAppend(a: seq<LoadEvent>, b: seq<LoadEvent>)
    ensures ProgressEvents(a + b) == ProgressEvents(a) + ProgressEvents(b)
    decreases |b|
  {
    if b != [] {
      var prefix, e := b[..|b| - 1], b[|b| - 1];
      assert (a + b)[..|a + b| - 1] == a + prefix;
      ProgressEventsAppend(a, prefix);
    } else {
      assert a + b == a;
    }
  }

  /** The messages `load_model_callback` posts for a run of load events. */
  function DownloadMessages(events: seq<LoadEvent>): (r: seq<WorkerMessage>)
    ensures |r| == |ProgressEvents(events)|
    ensures forall m :: m in r ==> m.Downloading?
  {
    if events == [] then []
    else
      var prefix, e := events[..|events| - 1], events[|events| - 1];
      DownloadMessages(prefix) + (if e.status == "progress" then [DownloadingFor(e)] else [])
  }

  /** One DOWNLOADING message per progress report, in the order of the reports. */
  lemma {:induction false} DownloadMessagesInOrder(events: seq<LoadEvent>)
    ensures forall i :: 0 <= i < |DownloadMessages(events)| ==>
              DownloadMessages(events)[i] == DownloadingFor(ProgressEvents(events)[i])
  {
    if events != [] {
      var prefix := events[..|events| - 1];
      DownloadMessagesInOrder(prefix);
    }
  }

  /** `load_model_callback`: forward progress reports and ignore every other status. */
  method LoadModelCallback(data: LoadEvent, port: Channel)
    modifies port
    ensures data.status == "progress" ==> port.sent == old(port.sent) + [DownloadingFor(data)]
    ensures data.status != "progress" ==> port.sent == old(port.sent)
  {
    if data.status == "progress" {
      port.Post(Downloading(data.file, data.progress, data.loaded, data.total));
    }
  }

  /** `MyTranscriptionPipeline`: the worker's single cached pipeline. */
  class TranscriptionPipeline {
    var instance: Option<Pipeline>

    constructor ()
      ensures instance.None?
    {
      instance := None;
    }

    /**
     * `getInstance(load_model_callback)`: load only when nothing is cached, forwarding
     * the loader's progress; a cached pipeline is returned as it is; a load that
     * throws caches nothing, so the next call loads again.
     */
    method GetInstance(load: LoadRun, port: Channel) returns (r: Option<Pipeline>)
      modifies this, port
      ensures old(instance).Some? ==> instance == old(instance) && port.sent == old(port.sent)
      ensures old(instance).None? ==> instance == load.loaded
      ensures old(instance).None? ==> port.sent == old(port.sent) + DownloadMessages(load.events)
      ensures r == instance
    {
      if instance.None? {
        for i := 0 to |load.events|
          invariant port.sent == old(port.sent) + DownloadMessages(load.events[..i])
        {
          LoadModelCallback(load.events[i], port);
          assert load.events[..i + 1][..i] == load.events[..i];
        }
        assert load.events[..|load.events|] == load.events;
        instance := load.loaded;
      }
      r := instance;
    }
  }

  /** `pipeline(audio, {callback_function, chunk_callback, ...})`: feed the run's events to the tracker. */
  method RunPipeline(tracker: GenerationTracker, events: seq<Event>, port: Channel)
    modifies tracker, port
    ensures tracker.State() == Run(tracker.pipeline, tracker.strideLength, old(tracker.State()), events)
    ensures port.sent == old(port.sent) + RunLog(tracker.pipeline, tracker.strideLength, old(tracker.State()), events)
  {
    for i := 0 to |events|
      invariant tracker.State() == Run(tracker.pipeline, tracker.strideLength, old(tracker.State()), events[..i])
      invariant port.sent == old(port.sent) + RunLog(tracker.pipeline, tracker.strideLength, old(tracker.State()), events[..i])
    {
      assert events[..i + 1][..i] == events[..i];
      match events[i]
      case BeamStep(beams) => tracker.CallbackFunction(beams, port);
      case ChunkDone(chunk) => tracker.ChunkCallback(chunk, port);
    }
    assert events[..|events|] == events;
  }

  /** The outcome of `transcribe`: it completes, or it fails because no pipeline could be loaded. */
  datatype TranscribeOutcome = Completed | LoadFailed

  /** The pipeline `transcribe` goes on with: the cached one, else the one the load yields. */
  function Available(cached: Option<Pipeline>, load: LoadRun): Option<Pipeline> {
    if cached.Some? then cached else load.loaded
  }

  /** What `transcribe` posts around loading: "Cargando", the downloads of a load, "Éxito". */
  function LoadingPart(cached: Option<Pipeline>, load: LoadRun): seq<WorkerMessage> {
    [Loading(LoadingStarted)] + (if cached.None? then DownloadMessages(load.events) else []) + [Loading(LoadingSucceeded)]
  }

  /** What `transcribe` posts after loading: the run's messages and the final one, or nothing without a pipeline. */
  function ResultsPart(cached: Option<Pipeline>, load: LoadRun, run: seq<Event>): seq<WorkerMessage> {
    var pipeline := Available(cached, load);
    if pipeline.Some? then RunLog(pipeline.value, StrideLength, Initial, run) + [InferenceDone] else []
  }

  /** Everything one `transcribe` call posts, given what was cached before it. */
  function TranscribeLog(cached: Option<Pipeline>, load: LoadRun, run: seq<Event>): seq<WorkerMessage> {
    LoadingPart(cached, load) + ResultsPart(cached, load, run)
  }

  /**
   * `transcribe(audio)`. When no pipeline is available the source goes on to build a
   * tracker around `undefined` and throws a TypeError; that ends the request as
   * `LoadFailed`, after the loading messages and before any result.
   */
  method Transcribe(cache: TranscriptionPipeline, port: Channel, load: LoadRun, run: seq<Event>)
    returns (outcome: TranscribeOutcome)
    modifies cache, port
    ensures cache.instance == if old(cache.instance).Some? then old(cache.instance) else load.loaded
    ensures outcome == if cache.instance.Some? then Completed else LoadFailed
    ensures port.sent == old(port.sent) + TranscribeLog(old(cache.instance), load, run)
  {
    ghost var cached := cache.instance;
    var pipeline := LoadStage(cache, port, load);
    if pipeline.None? {
      return LoadFailed;
    }
    ghost var loading := port.sent;
    RunAndFinish(pipeline.value, run, port);
    assert port.sent == loading + ResultsPart(cached, load, run);
    outcome := Completed;
  }

  /** The part of `transcribe` up to "Éxito": announce the load, get the pipeline, report success. */
  method LoadStage(cache: TranscriptionPipeline, port: Channel, load: LoadRun) returns (pipeline: Option<Pipeline>)
    modifies cache, port
    ensures cache.instance == Available(old(cache.instance), load)
    ensures pipeline == cache.instance
    ensures port.sent == old(port.sent) + LoadingPart(old(cache.instance), load)
  {
    port.Post(Loading(LoadingStarted));
    pipeline := cache.GetInstance(load, port);
    port.Post(Loading(LoadingSucceeded));
  }

  /** The part of `transcribe` after loading: build the tracker, run the pipeline, post INFERENCE_DONE. */
  method RunAndFinish(pipeline: Pipeline, run: seq<Event>, port: Channel)
    modifies port
    ensures port.sent == old(port.sent) + RunLog(pipeline, StrideLength, Initial, run) + [InferenceDone]
  {
    var tracker := new GenerationTracker(pipeline, StrideLength);
    RunPipeline(tracker, run, port);
    tracker.SendFinalResult(port);
  }

  /** The message types the worker's listener distinguishes. */
  datatype RequestType = InferenceRequest | OtherRequest

  /** The worker's `message` listener: only an inference request starts a transcription. */
  method OnMessage(kind: RequestType, cache: TranscriptionPipeline, port: Channel, load: LoadRun, run: seq<Event>)
    modifies cache, port
    ensures kind.OtherRequest? ==> cache.instance == old(cache.instance) && port.sent == old(port.sent)
    ensures kind.InferenceRequest? ==> cache.instance == Available(old(cache.instance), load)
    ensures kind.InferenceRequest? ==> port.sent == old(port.sent) + TranscribeLog(old(cache.instance), load, run)
  {
    if kind.InferenceRequest? {
      var _ := Transcribe(cache, port, load, run);
    }
  }

  /** Where a message may stand in a request's log: loading started, downloads, loaded, results, done. */
  function Phase(m: WorkerMessage): nat {
    match m
    case Loading(status) => if status == LoadingStarted then 0 else 2
    case Downloading(_, _, _, _) => 1
    case Result(_, _, _) => 3
    case ResultPartial(_) => 3
    case InferenceDone => 4
  }

  /** The phases of `log` never go back. */
  predicate PhaseOrdered(log: seq<WorkerMessage>) {
    forall i :: 0 < i < |log| ==> Phase(log[i - 1]) <= Phase(log[i])
  }

  /** Every message of `log` has a phase between `lo` and `hi`. */
  predicate PhasesWithin(log: seq<WorkerMessage>, lo: nat, hi: nat) {
    forall i :: 0 <= i < |log| ==> lo <= Phase(log[i]) <= hi
  }

  lemma SamePhaseOrdered(log: seq<WorkerMessage>, n: nat)
    requires PhasesWithin(log, n, n)
    ensures PhaseOrdered(log)
  {
    forall i | 0 < i < |log| ensures Phase(log[i - 1]) <= Phase(log[i]) {
      assert Phase(log[i - 1]) == n == Phase(log[i]);
    }
  }

  /** Two ordered logs, the first no later than phase `n` and the second no earlier, make an ordered log. */
  lemma OrderedConcat(a: seq<WorkerMessage>, b: seq<WorkerMessage>, n: nat)
    requires PhaseOrdered(a) && PhaseOrdered(b)
    requires PhasesWithin(a, 0, n) && PhasesWithin(b, n, 4)
    ensures PhaseOrdered(a + b) && PhasesWithin(a + b, 0, 4)
  {
    var ab := a + b;
    forall i | 0 < i < |ab| ensures Phase(ab[i - 1]) <= Phase(ab[i]) {
      if i < |a| {
        assert ab[i - 1] == a[i - 1] && ab[i] == a[i];
      } else if i == |a| {
        assert ab[i - 1] == a[i - 1] && ab[i] == b[0];
      } else {
        assert ab[i - 1] == b[i - 1 - |a|] && ab[i] == b[i - |a|];
      }
    }
    forall i | 0 <= i < |ab| ensures Phase(ab[i]) <= 4 {
      if i < |a| { assert ab[i] == a[i]; } else { assert ab[i] == b[i - |a|]; }
    }
  }

  lemma DownloadsInPhase(events: seq<LoadEvent>)
    ensures PhasesWithin(DownloadMessages(events), 1, 1)
  {
    var log := DownloadMessages(events);
    forall i | 0 <= i < |log| ensures Phase(log[i]) == 1 {
      assert log[i] in log;
    }
  }

  lemma RunInPhase(p: Pipeline, events: seq<Event>)
    ensures PhasesWithin(RunLog(p, StrideLength, Initial, events), 3, 3)
  {
    var log := RunLog(p, StrideLength, Initial, events);
    RunLogKinds(p, StrideLength, Initial, events);
    forall i | 0 <= i < |log| ensures Phase(log[i]) == 3 {
      assert log[i] in log;
    }
  }

  /** The loading part is "Cargando", downloads, "Éxito", in that order. */
  lemma LoadingPartOrdered(cached: Option<Pipeline>, load: LoadRun)
    ensures PhaseOrdered(LoadingPart(cached, load)) && PhasesWithin(LoadingPart(cached, load), 0, 2)
  {
    var downloads := if cached.None? then DownloadMessages(load.events) else [];
    DownloadsInPhase(load.events);
    SamePhaseOrdered(downloads, 1);
    var started, succeeded := [Loading(LoadingStarted)], [Loading(LoadingSucceeded)];
    SamePhaseOrdered(started, 0);
    SamePhaseOrdered(succeeded, 2);
    OrderedConcat(started, downloads, 1);
    OrderedConcat(started + downloads, succeeded, 2);
    assert LoadingPart(cached, load) == started + downloads + succeeded;
  }

  /** After "Cargando", the loading part holds only downloads and "Éxito". */
  lemma LoadingPartRest(cached: Option<Pipeline>, load: LoadRun)
    ensures PhasesWithin(LoadingPart(cached, load)[1..], 1, 2)
  {
    var downloads := if cached.None? then DownloadMessages(load.events) else [];
    DownloadsInPhase(load.events);
    var rest := downloads + [Loading(LoadingSucceeded)];
    assert LoadingPart(cached, load)[1..] == rest;
    forall i | 0 <= i < |rest| ensures 1 <= Phase(rest[i]) <= 2 {
      if i < |downloads| { assert rest[i] == downloads[i]; }
    }
  }

  /** The results part is results and previews, then INFERENCE_DONE, or nothing. */
  lemma ResultsPartOrdered(cached: Option<Pipeline>, load: LoadRun, run: seq<Event>)
    ensures PhaseOrdered(ResultsPart(cached, load, run)) && PhasesWithin(ResultsPart(cached, load, run), 2, 4)
  {
    var pipeline := Available(cached, load);
    if pipeline.Some? {
      var results := RunLog(pipeline.value, StrideLength, Initial, run);
      RunInPhase(pipeline.value, run);
      SamePhaseOrdered(results, 3);
      SamePhaseOrdered([InferenceDone], 4);
      OrderedConcat(results, [InferenceDone], 3);
      var log := results + [InferenceDone];
      forall i | 0 <= i < |log| ensures 2 <= Phase(log[i]) {
        if i < |results| { assert log[i] == results[i]; }
      }
    }
  }

  /**
   * The order of a request's messages: "Cargando" first and never again, then only
   * download progress, then "Éxito" (also after a failed load), then results and
   * previews, then INFERENCE_DONE; phases never go back.
   */
  lemma {:induction false} TranscribeMessageOrder(cached: Option<Pipeline>, load: LoadRun, run: seq<Event>)
    ensures var log := TranscribeLog(cached, load, run);
            |log| >= 2 && log[0] == Loading(LoadingStarted) && PhaseOrdered(log)
            && PhasesWithin(log[1..], 1, 4)
  {
    var head, tail := LoadingPart(cached, load), ResultsPart(cached, load, run);
    LoadingPartOrdered(cached, load);
    LoadingPartRest(cached, load);
    ResultsPartOrdered(cached, load, run);
    OrderedConcat(head, tail, 2);
    var log := head + tail;
    assert log[1..] == head[1..] + tail;
    forall i | 0 <= i < |log[1..]| ensures 1 <= Phase(log[1..][i]) {
      if i < |head| - 1 { assert log[1..][i] == head[1..][i]; } else { assert log[1..][i] == tail[i - |head| + 1]; }
    }
  }

  /** A log with no message of kind `k` counts zero of them. */
  lemma {:induction false} NoneOfKind(log: seq<WorkerMessage>, k: MessageKind)
    requires forall m :: m in log ==> KindOf(m) != k
    ensures Count(log, k) == 0
  {
    if log != [] {
      assert log[|log| - 1] in log;
      NoneOfKind(log[..|log| - 1], k);
    }
  }

  /** The loading part holds no result, preview or completion. */
  lemma LoadingPartKinds(cached: Option<Pipeline>, load: LoadRun)
    ensures forall m :: m in LoadingPart(cached, load) ==> m.Loading? || m.Downloading?
  {
    var downloads := if cached.None? then DownloadMessages(load.events) else [];
    assert LoadingPart(cached, load) == [Loading(LoadingStarted)] + downloads + [Loading(LoadingSucceeded)];
  }

  /**
   * INFERENCE_DONE is posted exactly once, as the last message, when a pipeline was
   * available; otherwise never, and the log ends with "Éxito".
   */
  lemma TranscribeDoneOnce(cached: Option<Pipeline>, load: LoadRun, run: seq<Event>)
    ensures var log := TranscribeLog(cached, load, run);
            |log| >= 2
            && (Available(cached, load).Some? ==> log[|log| - 1] == InferenceDone && Count(log, DoneKind) == 1)
            && (Available(cached, load).None? ==> log[|log| - 1] == Loading(LoadingSucceeded) && Count(log, DoneKind) == 0)
  {
    var head, tail := LoadingPart(cached, load), ResultsPart(cached, load, run);
    LoadingPartKinds(cached, load);
    NoneOfKind(head, DoneKind);
    CountAppend(head, tail, DoneKind);
    var pipeline := Available(cached, load);
    if pipeline.Some? {
      var results := RunLog(pipeline.value, StrideLength, Initial, run);
      RunLogKinds(pipeline.value, StrideLength, Initial, run);
      NoneOfKind(results, DoneKind);
      CountAppend(results, [InferenceDone], DoneKind);
      assert [InferenceDone][..0] == [];
    }
  }

  /** Messages of other kinds before and after a run's messages do not change the count of kind `k`. */
  lemma {:induction false} CountBetween(head: seq<WorkerMessage>, results: seq<WorkerMessage>, k: MessageKind)
    requires forall m :: m in head ==> KindOf(m) != k
    requires k != DoneKind
    ensures Count(head + (results + [InferenceDone]), k) == Count(results, k)
  {
    NoneOfKind(head, k);
    assert (results + [InferenceDone])[..|results|] == results;
    CountAppend(head, results + [InferenceDone], k);
  }

  /** For the kinds the run posts, a completed request counts what the run itself posted. */
  lemma CountsOfRun(cached: Option<Pipeline>, load: LoadRun, run: seq<Event>, k: MessageKind)
    requires Available(cached, load).Some? && (k == ResultKind || k == PartialKind)
    ensures Count(TranscribeLog(cached, load, run), k)
            == Count(RunLog(Available(cached, load).value, StrideLength, Initial, run), k)
  {
    LoadingPartKinds(cached, load);
    CountBetween(LoadingPart(cached, load), RunLog(Available(cached, load).value, StrideLength, Initial, run), k);
  }

  /** A completed request holds N / 10 previews for N decoding steps and one result per chunk. */
  lemma TranscribeResultCounts(cached: Option<Pipeline>, load: LoadRun, run: seq<Event>)
    requires Available(cached, load).Some?
    ensures Count(TranscribeLog(cached, load, run), PartialKind) == BeamSteps(run) / PartialEvery
    ensures Count(TranscribeLog(cached, load, run), ResultKind) == |ChunksOf(run)|
  {
    var p := Available(cached, load).value;
    CountsOfRun(cached, load, run, PartialKind);
    CountsOfRun(cached, load, run, ResultKind);
    PreviewsFromStart(p, StrideLength, run);
    RunResultCount(p, StrideLength, Initial, run);
  }
}
