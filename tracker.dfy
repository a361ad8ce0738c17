/**
 * The worker's generation tracker (src/utils/whisper.worker.js, class
 * `GenerationTracker`): it counts decoding steps to throttle partial previews,
 * accumulates raw chunks, and after each completed chunk re-decodes the whole
 * list into segments. The tokenizer is left uninterpreted; `self.postMessage`
 * appends to the log of a `Channel`.
 */
module Tracker {
  import opened Wrappers
  import opened Transcript

  /** One completed chunk of model output, as the pipeline hands it to `chunk_callback`. */
  datatype RawChunk = RawChunk(tokens: seq<int>)

  /** One decoding hypothesis of a generation step. */
  datatype Beam = Beam(outputTokenIds: seq<int>)

  /** The pipeline passes at least one beam to every `callback_function` call. */
  type BeamList = b: seq<Beam> | |b| > 0 witness [Beam([])]

  /**
   * The tokenizer calls the tracker makes: `decode` (with special tokens skipped)
   * and `_decode_asr` (with the given time precision and timestamps on).
   */
  datatype Tokenizer = Tokenizer(decode: seq<int> -> string,
                                 decodeAsr: (seq<RawChunk>, real) -> seq<DecodedChunk>)

  /** A loaded pipeline as the tracker sees it: its tokenizer and its time precision. */
  datatype Pipeline = Pipeline(tokenizer: Tokenizer, timePrecision: real)

  /** A preview of the best beam; `end` is always undefined. */
  datatype PartialResult = PartialResult(text: string, start: Option<int>, end: Option<int>)

  /** What the worker posts to the host thread. */
  datatype WorkerMessage =
    | Loading(status: string)
    | Downloading(file: string, progress: real, loaded: int, total: int)
    | Result(results: seq<Segment>, isDone: bool, completedUntilTimestamp: Option<int>)
    | ResultPartial(result: PartialResult)
    | InferenceDone

  datatype MessageKind = LoadingKind | DownloadingKind | ResultKind | PartialKind | DoneKind

  function KindOf(m: WorkerMessage): MessageKind {
    match m
    case Loading(_) => LoadingKind
    case Downloading(_, _, _, _) => DownloadingKind
    case Result(_, _, _) => ResultKind
    case ResultPartial(_) => PartialKind
    case InferenceDone => DoneKind
  }

  /** The number of messages of kind `k` in `log`. */
  function Count(log: seq<WorkerMessage>, k: MessageKind): nat {
    if log == [] then 0
    else Count(log[..|log| - 1], k) + (if KindOf(log[|log| - 1]) == k then 1 else 0)
  }

  lemma {:induction false} CountAppend(a: seq<WorkerMessage>, b: seq<WorkerMessage>, k: MessageKind)
    ensures Count(a + b, k) == Count(a, k) + Count(b, k)
    decreases |b|
  {
    if b != [] {
      assert (a + b)[..|a + b| - 1] == a + b[..|b| - 1];
      CountAppend(a, b[..|b| - 1], k);
    } else {
      assert a + b == a;
    }
  }

  /** `self.postMessage` as seen by the host: an ordered log of everything posted. */
  class Channel {
    var sent: seq<WorkerMessage>

    constructor ()
      ensures sent == []
    {
      sent := [];
    }

    method Post(m: WorkerMessage)
      modifies this
      ensures sent == old(sent) + [m]
    {
      sent := sent + [m];
    }
  }

  /** Only every `PartialEvery`-th decoding step produces a preview. */
  const PartialEvery: nat := 10

  /** The tracker's fields as a value: raw chunks, processed segments, step counter. */
  datatype TrackerState = TrackerState(chunks: seq<RawChunk>, processed: seq<Segment>, callCount: nat)

  const Initial := TrackerState([], [], 0)

  /** What the pipeline does to the tracker while it runs: a decoding step or a completed chunk. */
  datatype Event = BeamStep(beams: BeamList) | ChunkDone(chunk: RawChunk)

  /** The full segment list decoded from all of `chunks`. */
  function Reconcile(p: Pipeline, stride: real, chunks: seq<RawChunk>): seq<Segment> {
    ProcessChunks(p.tokenizer.decodeAsr(chunks, p.timePrecision), stride)
  }

  /** The preview message of a step that emits: best beam's text, start from the last-chunk timestamp, no end. */
  function PartialMessage(p: Pipeline, beams: BeamList, processed: seq<Segment>): (m: WorkerMessage)
    ensures m.ResultPartial? && m.result.end.None?
    ensures m.result.text == p.tokenizer.decode(beams[0].outputTokenIds)
    ensures m.result.start == Some(0) <==> processed == []
    ensures processed != [] ==> m.result.start.None?
  {
    ResultPartial(PartialResult(p.tokenizer.decode(beams[0].outputTokenIds), LastChunkTimestamp(processed), None))
  }

  /** The non-final result message for a freshly rebuilt segment list. */
  function ResultMessage(processed: seq<Segment>): (m: WorkerMessage)
    ensures m.Result? && m.results == processed && !m.isDone
    ensures m.completedUntilTimestamp == Some(0) <==> processed == []
    ensures processed != [] ==> m.completedUntilTimestamp.None?
  {
    Result(processed, false, LastChunkTimestamp(processed))
  }

  /** The tracker's state after one event. */
  function Step(p: Pipeline, stride: real, s: TrackerState, e: Event): TrackerState {
    match e
    case BeamStep(_) => s.(callCount := s.callCount + 1)
    case ChunkDone(c) => s.(chunks := s.chunks + [c], processed := Reconcile(p, stride, s.chunks + [c]))
  }

  /** The messages one event posts. */
  function StepLog(p: Pipeline, stride: real, s: TrackerState, e: Event): seq<WorkerMessage> {
    match e
    case BeamStep(beams) =>
      if (s.callCount + 1) % PartialEvery == 0 then [PartialMessage(p, beams, s.processed)] else []
    case ChunkDone(c) => [ResultMessage(Reconcile(p, stride, s.chunks + [c]))]
  }

  /** The tracker's state after a whole run of events. */
  function Run(p: Pipeline, stride: real, s: TrackerState, events: seq<Event>): TrackerState {
    if events == [] then s
    else Step(p, stride, Run(p, stride, s, events[..|events| - 1]), events[|events| - 1])
  }

  /** Everything a run of events posts, in order. */
  function RunLog(p: Pipeline, stride: real, s: TrackerState, events: seq<Event>): seq<WorkerMessage> {
    if events == [] then []
    else
      var prefix := events[..|events| - 1];
      RunLog(p, stride, s, prefix) + StepLog(p, stride, Run(p, stride, s, prefix), events[|events| - 1])
  }

  /** The number of decoding steps in a run. */
  function BeamSteps(events: seq<Event>): nat {
    if events == [] then 0
    else BeamSteps(events[..|events| - 1]) + (if events[|events| - 1].BeamStep? then 1 else 0)
  }

  /** The completed chunks of a run, in order. */
  function ChunksOf(events: seq<Event>): seq<RawChunk> {
    if events == [] then []
    else ChunksOf(events[..|events| - 1]) + (if events[|events| - 1].ChunkDone? then [events[|events| - 1].chunk] else [])
  }

  /** Passing from `c` to `c + 1` crosses a multiple of 10 exactly when `c + 1` is one. */
  lemma CounterStep(c: nat)
    ensures (c + 1) / PartialEvery == c / PartialEvery + (if (c + 1) % PartialEvery == 0 then 1 else 0)
  {
  }

  /** One event posts a preview exactly when it is a decoding step that brings the counter to a multiple of 10. */
  lemma StepPreviews(p: Pipeline, stride: real, s: TrackerState, e: Event)
    ensures Step(p, stride, s, e).callCount == s.callCount + (if e.BeamStep? then 1 else 0)
    ensures Count(StepLog(p, stride, s, e), PartialKind)
            == Step(p, stride, s, e).callCount / PartialEvery - s.callCount / PartialEvery
  {
    var log := StepLog(p, stride, s, e);
    if e.BeamStep? {
      CounterStep(s.callCount);
    }
    if log != [] {
      assert log[..|log| - 1] == [];
    }
  }

  /** One event posts a result exactly when it is a completed chunk. */
  lemma StepResults(p: Pipeline, stride: real, s: TrackerState, e: Event)
    ensures Count(StepLog(p, stride, s, e), ResultKind) == if e.ChunkDone? then 1 else 0
  {
    var log := StepLog(p, stride, s, e);
    if log != [] {
      assert log[..|log| - 1] == [];
    }
  }

  /**
   * Throttling: the step counter grows by one per decoding step, and the previews
   * posted are exactly the multiples of 10 the counter passes on the way.
   */
  lemma {:induction false} RunThrottles(p: Pipeline, stride: real, s: TrackerState, events: seq<Event>)
    ensures Run(p, stride, s, events).callCount == s.callCount + BeamSteps(events)
    ensures Count(RunLog(p, stride, s, events), PartialKind)
            == (s.callCount + BeamSteps(events)) / PartialEvery - s.callCount / PartialEvery
  {
    if events != [] {
      var prefix, e := events[..|events| - 1], events[|events| - 1];
      RunThrottles(p, stride, s, prefix);
      var before := Run(p, stride, s, prefix);
      var after := Step(p, stride, before, e);
      assert Run(p, stride, s, events) == after;
      assert RunLog(p, stride, s, events) == RunLog(p, stride, s, prefix) + StepLog(p, stride, before, e);
      StepPreviews(p, stride, before, e);
      CountAppend(RunLog(p, stride, s, prefix), StepLog(p, stride, before, e), PartialKind);
      var lo, mid, hi := s.callCount / PartialEvery, before.callCount / PartialEvery, after.callCount / PartialEvery;
      assert Count(RunLog(p, stride, s, prefix), PartialKind) == mid - lo;
      assert Count(StepLog(p, stride, before, e), PartialKind) == hi - mid;
      assert BeamSteps(events) == BeamSteps(prefix) + (if e.BeamStep? then 1 else 0);
    }
  }

  /** From a fresh tracker, N decoding steps post exactly N / 10 previews (rounded down). */
  lemma PreviewsFromStart(p: Pipeline, stride: real, events: seq<Event>)
    ensures Count(RunLog(p, stride, Initial, events), PartialKind) == BeamSteps(events) / PartialEvery
  {
    RunThrottles(p, stride, Initial, events);
  }

  /**
   * Chunk bookkeeping: every completed chunk is appended in order, and the segment
   * list is rebuilt from the whole chunk list, so it depends on nothing but that list.
   */
  lemma {:induction false} RunReconciles(p: Pipeline, stride: real, s: TrackerState, events: seq<Event>)
    ensures Run(p, stride, s, events).chunks == s.chunks + ChunksOf(events)
    ensures ChunksOf(events) == [] ==> Run(p, stride, s, events).processed == s.processed
    ensures ChunksOf(events) != [] ==>
              Run(p, stride, s, events).processed == Reconcile(p, stride, s.chunks + ChunksOf(events))
  {
    if events != [] {
      var prefix, e := events[..|events| - 1], events[|events| - 1];
      RunReconciles(p, stride, s, prefix);
      var before := Run(p, stride, s, prefix);
      assert Run(p, stride, s, events) == Step(p, stride, before, e);
      if e.ChunkDone? {
        assert ChunksOf(events) == ChunksOf(prefix) + [e.chunk];
        assert s.chunks + ChunksOf(events) == before.chunks + [e.chunk];
      } else {
        assert ChunksOf(events) == ChunksOf(prefix);
      }
    }
  }

  /** Every completed chunk posts exactly one result message. */
  lemma {:induction false} RunResultCount(p: Pipeline, stride: real, s: TrackerState, events: seq<Event>)
    ensures Count(RunLog(p, stride, s, events), ResultKind) == |ChunksOf(events)|
  {
    if events != [] {
      var prefix, e := events[..|events| - 1], events[|events| - 1];
      RunResultCount(p, stride, s, prefix);
      var before := Run(p, stride, s, prefix);
      StepResults(p, stride, before, e);
      CountAppend(RunLog(p, stride, s, prefix), StepLog(p, stride, before, e), ResultKind);
      assert |ChunksOf(events)| == |ChunksOf(prefix)| + (if e.ChunkDone? then 1 else 0);
    }
  }

  /** A run posts only results and previews: never a loading or a completion message. */
  lemma {:induction false} RunLogKinds(p: Pipeline, stride: real, s: TrackerState, events: seq<Event>)
    ensures forall m :: m in RunLog(p, stride, s, events) ==> m.Result? || m.ResultPartial?
  {
    if events != [] {
      RunLogKinds(p, stride, s, events[..|events| - 1]);
    }
  }

  /** `GenerationTracker`: the state one transcription request accumulates. */
  class GenerationTracker {
    const pipeline: Pipeline
    const strideLength: real
    var chunks: seq<RawChunk>
    var processedChunks: seq<Segment>
    var callbackFunctionCounter: nat

    /** The fields as a `TrackerState` value. */
    function State(): TrackerState
      reads this
    {
      TrackerState(chunks, processedChunks, callbackFunctionCounter)
    }

    constructor (pipeline: Pipeline, strideLength: real)
      ensures this.pipeline == pipeline && this.strideLength == strideLength
      ensures State() == Initial
    {
      this.pipeline := pipeline;
      this.strideLength := strideLength;
      chunks := [];
      processedChunks := [];
      callbackFunctionCounter := 0;
    }

    /** `sendFinalResult`: the terminal message. */
    method SendFinalResult(port: Channel)
      modifies port
      ensures port.sent == old(port.sent) + [InferenceDone]
    {
      port.Post(InferenceDone);
    }

    /** `callbackFunction`: count the step; on every 10th, post a preview of the best beam. */
    method CallbackFunction(beams: BeamList, port: Channel)
      modifies this`callbackFunctionCounter, port
      ensures callbackFunctionCounter == old(callbackFunctionCounter) + 1
      ensures callbackFunctionCounter % PartialEvery == 0 ==>
                port.sent == old(port.sent) + [PartialMessage(pipeline, beams, processedChunks)]
      ensures callbackFunctionCounter % PartialEvery != 0 ==> port.sent == old(port.sent)
      ensures State() == Step(pipeline, strideLength, old(State()), BeamStep(beams))
      ensures port.sent == old(port.sent) + StepLog(pipeline, strideLength, old(State()), BeamStep(beams))
    {
      callbackFunctionCounter := callbackFunctionCounter + 1;
      if callbackFunctionCounter % PartialEvery != 0 {
        return;
      }
      var bestBeam := beams[0];
      var text := pipeline.tokenizer.decode(bestBeam.outputTokenIds);
      var result := PartialResult(text, LastChunkTimestamp(processedChunks), None);
      port.Post(ResultPartial(result));
    }

    /** `chunkCallback`: append the chunk, re-decode the whole list, post the rebuilt segments. */
    method ChunkCallback(data: RawChunk, port: Channel)
      modifies this`chunks, this`processedChunks, port
      ensures chunks == old(chunks) + [data]
      ensures processedChunks == ProcessChunks(pipeline.tokenizer.decodeAsr(chunks, pipeline.timePrecision), strideLength)
      ensures port.sent == old(port.sent) + [ResultMessage(processedChunks)]
      ensures State() == Step(pipeline, strideLength, old(State()), ChunkDone(data))
      ensures port.sent == old(port.sent) + StepLog(pipeline, strideLength, old(State()), ChunkDone(data))
    {
      chunks := chunks + [data];
      var decoded := pipeline.tokenizer.decodeAsr(chunks, pipeline.timePrecision);
      processedChunks := ProcessChunks(decoded, strideLength);
      port.Post(Result(processedChunks, false, LastChunkTimestamp(processedChunks)));
    }
  }
}
