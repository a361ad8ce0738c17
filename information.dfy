/**
 * The translation panel (src/components/Information.jsx): its request state
 * machine over `translating`, `toLanguage` and `translation`, the selector of
 * the displayed text, and the one-time creation of the translation worker.
 * React state updates are applied in order; `worker.current.postMessage`
 * appends to the worker's inbox.
 */
module Information {
  import opened Wrappers
  import opened Transcript

  /** The initial `toLanguage`: no target language chosen yet. */
  const NoLanguage := "Select language"
  const SourceLanguage := "eng_latin"
  const TranscriptionTab := "transcription"
  const Unavailable := "Traducci\U{00F3}n no disponible"

  /** The message `generateTranslation` posts to the translation worker. */
  datatype TranslationRequest = TranslationRequest(text: seq<string>, srcLang: string, tgtLang: string)

  /** A message from the translation worker: its `status` and, for updates, its `output`. */
  datatype TranslatorMessage = TranslatorMessage(status: string, output: Option<string>)

  /** `textElement`: the transcript's lines, or one string on the translation tab. */
  datatype TextElement = Lines(lines: seq<string>) | Plain(text: string)

  /** `output.map((val) => val.text)`. */
  function Texts(output: seq<Segment>): (r: seq<string>)
    ensures |r| == |output|
    ensures forall i :: 0 <= i < |r| ==> r[i] == output[i].text
  {
    seq(|output|, i requires 0 <= i < |output| => output[i].text)
  }

  /** `translating` is null, false or true; only true is truthy. */
  predicate Truthy(translating: Option<bool>) {
    translating == Some(true)
  }

  /**
   * `textElement`: on the transcription tab the segment texts in order; on any other
   * tab the translation, or the "not available" notice when it is null or empty.
   */
  function TextElementOf(tab: string, output: seq<Segment>, translation: Option<string>): (r: TextElement)
    ensures r.Lines? <==> tab == TranscriptionTab
    ensures r.Lines? ==> |r.lines| == |output| && forall i :: 0 <= i < |output| ==> r.lines[i] == output[i].text
    ensures r.Plain? && translation.Some? && translation.value != "" ==> r.text == translation.value
    ensures r.Plain? && (translation.None? || translation.value == "") ==> r.text == Unavailable
  {
    if tab == TranscriptionTab then Lines(Texts(output))
    else if translation.Some? && translation.value != "" then Plain(translation.value)
    else Plain(Unavailable)
  }

  /** The part of the component's state the request protocol reads and writes. */
  datatype RequestState = RequestState(translating: Option<bool>, toLanguage: string, translation: Option<string>)

  const InitialRequestState := RequestState(None, NoLanguage, None)

  /** `generateTranslation` sends only when no request is in flight and a language is chosen. */
  predicate MaySubmit(s: RequestState) {
    !Truthy(s.translating) && s.toLanguage != NoLanguage
  }

  /** What happens to the request state: a submission, a worker message, or a language choice. */
  datatype Action = Generate | Receive(msg: TranslatorMessage) | ChooseLanguage(lang: string)

  /** The state after one action. */
  function Apply(s: RequestState, a: Action): RequestState {
    match a
    case Generate => if MaySubmit(s) then s.(translating := Some(true)) else s
    case Receive(msg) =>
      if msg.status == "update" then s.(translation := msg.output)
      else if msg.status == "complete" then s.(translating := Some(false))
      else s
    case ChooseLanguage(lang) => s.(toLanguage := lang)
  }

  /** The requests one action posts. */
  function ApplyLog(s: RequestState, output: seq<Segment>, a: Action): seq<TranslationRequest> {
    if a.Generate? && MaySubmit(s) then [TranslationRequest(Texts(output), SourceLanguage, s.toLanguage)] else []
  }

  function Replay(s: RequestState, actions: seq<Action>): RequestState {
    if actions == [] then s else Apply(Replay(s, actions[..|actions| - 1]), actions[|actions| - 1])
  }

  /** Every request a run of actions posts, in order. */
  function Requests(s: RequestState, output: seq<Segment>, actions: seq<Action>): seq<TranslationRequest> {
    if actions == [] then []
    else
      var prefix := actions[..|actions| - 1];
      Requests(s, output, prefix) + ApplyLog(Replay(s, prefix), output, actions[|actions| - 1])
  }

  /** The number of "complete" messages in a run of actions. */
  function Completions(actions: seq<Action>): nat {
    if actions == [] then 0
    else
      var a := actions[|actions| - 1];
      Completions(actions[..|actions| - 1]) + (if a.Receive? && a.msg.status == "complete" then 1 else 0)
  }

  /** 1 when a request may be started from `s` without a further completion, else 0. */
  function Idle(s: RequestState): nat {
    if Truthy(s.translating) then 0 else 1
  }

  /**
   * Single flight: every request after the first needs a "complete" message
   * before it, so a run posts at most one request more than it receives
   * completions (none more when a request was already in flight).
   */
  lemma {:induction false} SingleFlight(s: RequestState, output: seq<Segment>, actions: seq<Action>)
    ensures |Requests(s, output, actions)| + Idle(Replay(s, actions)) <= Completions(actions) + Idle(s)
  {
    if actions != [] {
      var prefix := actions[..|actions| - 1];
      SingleFlight(s, output, prefix);
    }
  }

  /** While no language other than the sentinel is chosen, nothing is ever sent. */
  lemma {:induction false} NoLanguageNoRequest(s: RequestState, output: seq<Segment>, actions: seq<Action>)
    requires s.toLanguage == NoLanguage
    requires forall a :: a in actions && a.ChooseLanguage? ==> a.lang == NoLanguage
    ensures Replay(s, actions).toLanguage == NoLanguage
    ensures Requests(s, output, actions) == []
  {
    if actions != [] {
      var prefix := actions[..|actions| - 1];
      assert forall a :: a in prefix ==> a in actions;
      assert actions[|actions| - 1] in actions;
      NoLanguageNoRequest(s, output, prefix);
    }
  }

  /** Every request carries the transcript's texts in order, the fixed source language and a chosen target. */
  lemma {:induction false} RequestsWellFormed(s: RequestState, output: seq<Segment>, actions: seq<Action>)
    ensures forall r :: r in Requests(s, output, actions) ==>
              r.text == Texts(output) && r.srcLang == SourceLanguage && r.tgtLang != NoLanguage
  {
    if actions != [] {
      RequestsWellFormed(s, output, actions[..|actions| - 1]);
    }
  }

  /** A "complete" message re-enables submission once a language is chosen. */
  lemma CompleteReenables(s: RequestState, output: seq<Segment>, status: string, out: Option<string>)
    requires s.toLanguage != NoLanguage && status == "complete"
    ensures |ApplyLog(Apply(s, Receive(TranslatorMessage(status, out))), output, Generate)| == 1
  {
  }

  /** The translation worker as the panel sees it: its listeners and the requests posted to it. */
  class TranslateWorker {
    var listeners: set<nat>
    var inbox: seq<TranslationRequest>

    constructor ()
      ensures listeners == {} && inbox == []
    {
      listeners := {};
      inbox := [];
    }
  }

  /** The component's state: props, React state, and the `worker` ref. */
  class InformationPanel {
    const output: seq<Segment>
    var tab: string
    var translation: Option<string>
    var toLanguage: string
    var translating: Option<bool>
    var worker: TranslateWorker?
    /** How many translation workers have been created. */
    ghost var workersCreated: nat
    /** Each run of the effect makes a new `onMessageReceived` closure; closures are told apart by number. */
    var nextHandler: nat

    ghost predicate Valid()
      reads this, worker
    {
      workersCreated <= 1 && (worker == null <==> workersCreated == 0)
      && (worker != null ==> forall h :: h in worker.listeners ==> h < nextHandler)
    }

    function RequestStateOf(): RequestState
      reads this
    {
      RequestState(translating, toLanguage, translation)
    }

    /** The first render: default tab, no translation, no language, no request, no worker. */
    constructor (output: seq<Segment>)
      ensures Valid() && this.output == output && worker == null
      ensures tab == TranscriptionTab && RequestStateOf() == InitialRequestState
    {
      this.output := output;
      tab := TranscriptionTab;
      translation := None;
      toLanguage := NoLanguage;
      translating := None;
      worker := null;
      workersCreated := 0;
      nextHandler := 0;
    }

    /**
     * The mount effect: create the worker only if there is none, then register a
     * new message listener, whose identity is returned for the cleanup.
     */
    method MountEffect() returns (handler: nat)
      requires Valid()
      modifies this, worker
      ensures Valid() && worker != null && workersCreated <= 1
      ensures old(worker) != null ==> worker == old(worker) && workersCreated == old(workersCreated)
      ensures old(worker) != null ==> worker.listeners == old(worker.listeners) + {handler}
                                      && handler !in old(worker.listeners) && worker.inbox == old(worker.inbox)
      ensures old(worker) == null ==> fresh(worker) && worker.listeners == {handler} && worker.inbox == []
      ensures RequestStateOf() == old(RequestStateOf()) && tab == old(tab)
    {
      if worker == null {
        worker := new TranslateWorker();
        workersCreated := workersCreated + 1;
      }
      handler := nextHandler;
      nextHandler := nextHandler + 1;
      worker.listeners := worker.listeners + {handler};
    }

    /** The effect's cleanup: remove the listener that this run of the effect registered. */
    method Cleanup(handler: nat)
      requires Valid() && worker != null
      modifies worker
      ensures Valid()
      ensures worker.listeners == old(worker.listeners) - {handler} && worker.inbox == old(worker.inbox)
    {
      worker.listeners := worker.listeners - {handler};
    }

    /** Mounting and unmounting again leaves the worker's listeners as they were, and the worker in place. */
    method MountThenUnmount()
      requires Valid() && worker != null
      modifies this, worker
      ensures Valid() && worker == old(worker) && workersCreated == old(workersCreated)
      ensures worker.listeners == old(worker.listeners) && worker.inbox == old(worker.inbox)
    {
      var handler := MountEffect();
      Cleanup(handler);
    }

    /** `onMessageReceived`: store an update's output, clear `translating` on completion, ignore the rest. */
    method OnMessageReceived(e: TranslatorMessage)
      requires Valid()
      modifies this`translation, this`translating
      ensures Valid()
      ensures e.status == "update" ==> translation == e.output && translating == old(translating)
      ensures e.status == "complete" ==> translating == Some(false) && translation == old(translation)
      ensures e.status != "update" && e.status != "complete" ==>
                translating == old(translating) && translation == old(translation)
      ensures RequestStateOf() == Apply(old(RequestStateOf()), Receive(e))
    {
      match e.status
      case "update" => translation := e.output;
      case "complete" => translating := Some(false);
      case _ =>
    }

    /** `generateTranslation`: a guarded, single-flight submission. */
    method GenerateTranslation()
      requires Valid() && worker != null
      modifies this`translating, worker
      ensures Valid()
      ensures !MaySubmit(old(RequestStateOf())) ==> translating == old(translating) && worker.inbox == old(worker.inbox)
      ensures MaySubmit(old(RequestStateOf())) ==>
                translating == Some(true)
                && worker.inbox == old(worker.inbox) + [TranslationRequest(Texts(output), SourceLanguage, toLanguage)]
      ensures RequestStateOf() == Apply(old(RequestStateOf()), Generate)
      ensures worker.inbox == old(worker.inbox) + ApplyLog(old(RequestStateOf()), output, Generate)
      ensures worker.listeners == old(worker.listeners)
    {
      if Truthy(translating) || toLanguage == NoLanguage {
        return;
      }
      translating := Some(true);
      worker.inbox := worker.inbox + [TranslationRequest(Texts(output), SourceLanguage, toLanguage)];
    }

    /** `setToLanguage`, as the language picker calls it. */
    method SetToLanguage(lang: string)
      requires Valid()
      modifies this`toLanguage
      ensures Valid()
      ensures toLanguage == lang
      ensures RequestStateOf() == Apply(old(RequestStateOf()), ChooseLanguage(lang))
    {
      toLanguage := lang;
    }

    /** The tab buttons' `setTab`. */
    method SetTab(t: string)
      requires Valid()
      modifies this`tab
      ensures Valid()
      ensures tab == t
    {
      tab := t;
    }
  }
}
