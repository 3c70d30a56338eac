/** The request lifecycle of the App component (App.tsx) as values: the seven pieces of
    component state, one transition function over user and service events, the
    conditions under which the render shows each panel, and what holds in every state
    a sequence of events can reach. The class in module AppComponent performs the same
    transitions in place; its methods are tied to `Step` here. */
module Lifecycle {
  import opened StudyTypes

  /** The banner the startup effect raises when no API key is configured. */
  const MissingKeyAtStartup: string :=
    "API_KEY environment variable is not set. Please configure it to use the AI features."
  /** The error a submit sets when no API key is configured. */
  const MissingKeyAtSubmit: string := "API_KEY is missing. Cannot fetch study materials."
  /** The error a failure sets when the thrown value is not an Error. */
  const UnknownError: string := "An unknown error occurred."

  /** The component's seven state hooks; `None` stands for `null`. */
  datatype AppState = AppState(
    subject: string,
    topic: string,
    studyMaterials: Option<StudyMaterials>,
    isLoading: bool,
    error: Option<string>,
    currentTool: Option<StudyTool>,
    initialMessageVisible: bool)

  /** What the content service may throw: an Error with its message, or any other value. */
  datatype Thrown = ErrorInstance(message: string) | NonError

  /** Everything that can change the state. `SubmitTopic` is the synchronous part of the
      submit handler (the no-key branch or the begin step), with the pair it was called
      with; that pair reaches the state only through the success completion, whose
      closure carries it. */
  datatype Event =
    | SubmitTopic(subject: string, topic: string)
    | ServiceResolved(materials: StudyMaterials, subject: string, topic: string)
    | ServiceRejected(thrown: Thrown)
    | ToolSelected(tool: StudyTool)
    | AppReset

  /** The initial values of the state hooks. */
  function Initial(): (r: AppState) {
    AppState("", "", None, false, None, None, true)
  }

  /** The state once the startup effect has run. */
  function Mounted(hasApiKey: bool): (r: AppState) {
    if hasApiKey then Initial() else Initial().(error := Some(MissingKeyAtStartup))
  }

  /** The message a failure completion records for a thrown value. */
  function FailureMessage(t: Thrown): (m: string) {
    match t
    case ErrorInstance(message) => message
    case NonError => UnknownError
  }

  /** Loading means a request is in flight: nothing fetched and no error on record. */
  predicate LoadingClean(s: AppState) {
    s.isLoading ==> s.studyMaterials.None? && s.error.None?
  }

  /** One atomic transition. Every event keeps `LoadingClean`, and only a submit made
      with a key starts loading; a tool selection is the only other event after which
      loading is still on. */
  function Step(hasApiKey: bool, s: AppState, e: Event): (r: AppState)
    ensures LoadingClean(s) ==> LoadingClean(r)
    ensures r.isLoading ==> (e.SubmitTopic? && hasApiKey) || (e.ToolSelected? && s.isLoading)
  {
    match e
    case SubmitTopic(_, _) =>
      if !hasApiKey then
        s.(error := Some(MissingKeyAtSubmit), isLoading := false)
      else
        s.(isLoading := true, error := None, studyMaterials := None,
           initialMessageVisible := false, currentTool := None)
    case ServiceResolved(m, subj, top) =>
      s.(studyMaterials := Some(m), subject := subj, topic := top, isLoading := false)
    case ServiceRejected(t) =>
      s.(error := Some(FailureMessage(t)), isLoading := false)
    case ToolSelected(tool) =>
      s.(currentTool := Some(tool))
    case AppReset =>
      Initial()
  }

  /** The state after a sequence of events, applied in order. */
  function Run(hasApiKey: bool, s: AppState, events: seq<Event>): (r: AppState)
    decreases |events|
  {
    if events == [] then s else Run(hasApiKey, Step(hasApiKey, s, events[0]), events[1..])
  }

  // ---- What the render shows ----

  /** JavaScript truthiness of `error`: null and the empty string are falsy. */
  predicate HasErrorText(error: Option<string>) {
    error.Some? && error.value != ""
  }

  /** The "New Topic" button in the header. */
  predicate ShowsResetButton(s: AppState) {
    !s.initialMessageVisible && s.studyMaterials.Some?
  }

  predicate ShowsErrorBanner(s: AppState) {
    HasErrorText(s.error)
  }

  /** The prompt panel holding the subject and topic input. */
  predicate ShowsInputPanel(s: AppState) {
    s.initialMessageVisible && !s.isLoading && s.studyMaterials.None?
  }

  predicate ShowsSpinner(s: AppState) {
    s.isLoading
  }

  predicate ShowsStudyDisplay(s: AppState) {
    !s.isLoading && !HasErrorText(s.error) && s.studyMaterials.Some?
  }

  // ---- Any order of events ----

  lemma {:induction false} RunPreservesLoadingClean(hasApiKey: bool, s: AppState, events: seq<Event>)
    requires LoadingClean(s)
    ensures LoadingClean(Run(hasApiKey, s, events))
    decreases |events|
  {
    if events != [] {
      RunPreservesLoadingClean(hasApiKey, Step(hasApiKey, s, events[0]), events[1..]);
    }
  }

  /** Every state reachable from mounting, by any events in any order (stale
      completions included), is loading-clean. */
  lemma ReachableLoadingClean(hasApiKey: bool, events: seq<Event>)
    ensures LoadingClean(Run(hasApiKey, Mounted(hasApiKey), events))
  {
    RunPreservesLoadingClean(hasApiKey, Mounted(hasApiKey), events);
  }

  /** The study display never appears together with the error banner, the input panel
      or the spinner. This holds of every state, by the render conditions alone. */
  lemma StudyDisplayExclusive(s: AppState)
    ensures ShowsStudyDisplay(s) ==> !ShowsErrorBanner(s) && !ShowsInputPanel(s) && !ShowsSpinner(s)
  {
  }

  /** In every reachable state the spinner is shown alone. The reset button and the
      error banner are hidden while loading only because loading states are
      loading-clean. */
  lemma ReachablePanels(hasApiKey: bool, events: seq<Event>)
    ensures var s := Run(hasApiKey, Mounted(hasApiKey), events);
      ShowsSpinner(s) ==>
        !ShowsResetButton(s) && !ShowsErrorBanner(s) && !ShowsInputPanel(s) && !ShowsStudyDisplay(s)
  {
    ReachableLoadingClean(hasApiKey, events);
  }

  lemma {:induction false} RunAppend(hasApiKey: bool, s: AppState, xs: seq<Event>, ys: seq<Event>)
    ensures Run(hasApiKey, s, xs + ys) == Run(hasApiKey, Run(hasApiKey, s, xs), ys)
    decreases |xs|
  {
    if xs != [] {
      assert (xs + ys)[0] == xs[0];
      assert (xs + ys)[1..] == xs[1..] + ys;
      RunAppend(hasApiKey, Step(hasApiKey, s, xs[0]), xs[1..], ys);
    } else {
      assert xs + ys == ys;
    }
  }

  /** A reset forgets the whole history: after it the state is the hooks' initial values
      whatever came before, and later events act on that state with the same key. The
      startup effect is not re-run, so without a key a reset drops the startup banner. */
  lemma ResetForgetsHistory(hasApiKey: bool, before: seq<Event>, after: seq<Event>)
    ensures Run(hasApiKey, Mounted(hasApiKey), before + [AppReset] + after)
         == Run(hasApiKey, Initial(), after)
  {
    RunAppend(hasApiKey, Mounted(hasApiKey), before + [AppReset], after);
    RunAppend(hasApiKey, Mounted(hasApiKey), before, [AppReset]);
  }

  /** Reset lands on the initial state whatever the state was, so it is idempotent. */
  lemma ResetIsIdempotent(hasApiKey: bool, s: AppState)
    ensures Step(hasApiKey, s, AppReset) == Initial()
    ensures Step(hasApiKey, Step(hasApiKey, s, AppReset), AppReset) == Step(hasApiKey, s, AppReset)
  {
  }

  /** Handlers have no stale-response guard: a completion that arrives after a reset
      still installs its materials. (The render never offers reset while loading, see
      OnlyCompletionsWhileLoading.) */
  lemma LateCompletionAfterReset(m: StudyMaterials, subj: string, top: string)
    ensures Run(true, Mounted(true), [SubmitTopic(subj, top), AppReset, ServiceResolved(m, subj, top)])
              .studyMaterials == Some(m)
  {
    var loading := Step(true, Mounted(true), SubmitTopic(subj, top));
    var reset := Step(true, loading, AppReset);
    assert [SubmitTopic(subj, top), AppReset, ServiceResolved(m, subj, top)][1..]
        == [AppReset, ServiceResolved(m, subj, top)];
    assert [AppReset, ServiceResolved(m, subj, top)][1..] == [ServiceResolved(m, subj, top)];
    assert Run(true, reset, [ServiceResolved(m, subj, top)]).studyMaterials == Some(m);
    assert Run(true, loading, [AppReset, ServiceResolved(m, subj, top)]).studyMaterials == Some(m);
  }

  // ---- Only the events the render offers ----

  /** A request the service is working on: the pair its submit was called with. */
  datatype Request = Request(subject: string, topic: string)

  /** The component state together with the request in flight, if any. The request is
      not component state: it is the pending call and the pair its closure holds. */
  datatype Session = Session(state: AppState, pending: Option<Request>)

  /** Just mounted, nothing in flight. */
  function Start(hasApiKey: bool): (c: Session) {
    Session(Mounted(hasApiKey), None)
  }

  /** Whether the screen and the pending call let the event happen: a submit needs the
      input panel, a tool selection the study display, a reset the "New Topic" button, a
      rejection a request in flight, and a success the request in flight for its own pair. */
  predicate Enabled(c: Session, e: Event) {
    match e
    case SubmitTopic(_, _) => ShowsInputPanel(c.state)
    case ServiceResolved(_, subj, top) => c.pending == Some(Request(subj, top))
    case ServiceRejected(_) => c.pending.Some?
    case ToolSelected(_) => ShowsStudyDisplay(c.state)
    case AppReset => ShowsResetButton(c.state)
  }

  /** A keyed submit starts a call; an answer ends it; nothing else touches it. Every
      enabled event keeps the screen-gated invariant. */
  function Advance(hasApiKey: bool, c: Session, e: Event): (d: Session)
    ensures GatedInv(hasApiKey, c) && Enabled(c, e) ==> GatedInv(hasApiKey, d)
  {
    var pending :=
      match e
      case SubmitTopic(subj, top) => if hasApiKey then Some(Request(subj, top)) else c.pending
      case ServiceResolved(_, _, _) => None
      case ServiceRejected(_) => None
      case ToolSelected(_) => c.pending
      case AppReset => c.pending;
    Session(Step(hasApiKey, c.state, e), pending)
  }

  function Replay(hasApiKey: bool, c: Session, events: seq<Event>): (d: Session)
    decreases |events|
  {
    if events == [] then c else Replay(hasApiKey, Advance(hasApiKey, c, events[0]), events[1..])
  }

  /** Every event of the sequence is enabled in the session it is applied to. */
  predicate Gated(hasApiKey: bool, c: Session, events: seq<Event>)
    decreases |events|
  {
    events == [] ||
    (Enabled(c, events[0]) && Gated(hasApiKey, Advance(hasApiKey, c, events[0]), events[1..]))
  }

  /** Tracking the pending call does not change the state: a replay ends in the state the
      plain run of the same events ends in. */
  lemma {:induction false} ReplayState(hasApiKey: bool, c: Session, events: seq<Event>)
    ensures Replay(hasApiKey, c, events).state == Run(hasApiKey, c.state, events)
    decreases |events|
  {
    if events != [] {
      ReplayState(hasApiKey, Advance(hasApiKey, c, events[0]), events[1..]);
    }
  }

  lemma {:induction false} ReplayAppend(hasApiKey: bool, c: Session, xs: seq<Event>, ys: seq<Event>)
    ensures Replay(hasApiKey, c, xs + ys) == Replay(hasApiKey, Replay(hasApiKey, c, xs), ys)
    ensures Gated(hasApiKey, c, xs + ys)
        <==> Gated(hasApiKey, c, xs) && Gated(hasApiKey, Replay(hasApiKey, c, xs), ys)
    decreases |xs|
  {
    if xs != [] {
      assert (xs + ys)[0] == xs[0];
      assert (xs + ys)[1..] == xs[1..] + ys;
      ReplayAppend(hasApiKey, Advance(hasApiKey, c, xs[0]), xs[1..], ys);
    } else {
      assert xs + ys == ys;
    }
  }

  /** Two events, one after the other. */
  lemma ReplayTwo(hasApiKey: bool, c: Session, a: Event, b: Event)
    ensures Replay(hasApiKey, c, [a, b]) == Advance(hasApiKey, Advance(hasApiKey, c, a), b)
    ensures Gated(hasApiKey, c, [a, b])
        <==> Enabled(c, a) && Enabled(Advance(hasApiKey, c, a), b)
  {
    var c1 := Advance(hasApiKey, c, a);
    assert [a, b][0] == a && [a, b][1..] == [b];
    assert [b][0] == b && [b][1..] == [];
    assert Replay(hasApiKey, c1, [b]) == Replay(hasApiKey, Advance(hasApiKey, c1, b), []);
    assert Gated(hasApiKey, c1, [b]) <==> Enabled(c1, b) && Gated(hasApiKey, Advance(hasApiKey, c1, b), []);
  }

  predicate IsMissingKeyError(error: Option<string>) {
    error == Some(MissingKeyAtStartup) || error == Some(MissingKeyAtSubmit)
  }

  /** What holds in every session the render can lead to. */
  predicate GatedInv(hasApiKey: bool, c: Session) {
    var s := c.state;
    LoadingClean(s)
    && (c.pending.Some? <==> s.isLoading)
    && (s.isLoading ==> s.currentTool.None? && !s.initialMessageVisible)
    && (s.studyMaterials.Some? ==> !s.initialMessageVisible)
    && (!hasApiKey ==>
          !s.isLoading && s.studyMaterials.None? && s.initialMessageVisible
          && IsMissingKeyError(s.error))
  }

  lemma {:induction false} GatedRunKeepsInv(hasApiKey: bool, c: Session, events: seq<Event>)
    requires GatedInv(hasApiKey, c) && Gated(hasApiKey, c, events)
    ensures GatedInv(hasApiKey, Replay(hasApiKey, c, events))
    decreases |events|
  {
    if events != [] {
      var next := Advance(hasApiKey, c, events[0]);
      GatedRunKeepsInv(hasApiKey, next, events[1..]);
    }
  }

  lemma GatedReachableInv(hasApiKey: bool, events: seq<Event>)
    requires Gated(hasApiKey, Start(hasApiKey), events)
    ensures GatedInv(hasApiKey, Replay(hasApiKey, Start(hasApiKey), events))
  {
    GatedRunKeepsInv(hasApiKey, Start(hasApiKey), events);
  }

  /** While loading the screen offers nothing: only the service's answer to the request
      in flight can move the state, so one request at a time is in flight, and a success
      carries the pair of the submit that is being answered. */
  lemma OnlyCompletionsWhileLoading(hasApiKey: bool, events: seq<Event>, e: Event)
    requires Gated(hasApiKey, Start(hasApiKey), events)
    requires Replay(hasApiKey, Start(hasApiKey), events).state.isLoading
    requires Enabled(Replay(hasApiKey, Start(hasApiKey), events), e)
    ensures e.ServiceResolved? || e.ServiceRejected?
    ensures Replay(hasApiKey, Start(hasApiKey), events).pending.Some?
  {
    GatedReachableInv(hasApiKey, events);
  }

  /** A keyed submit answered by a success: the answer is for the submitted pair, and the
      state is exactly that pair and the materials, with no error and no tool selected;
      only the study display and the "New Topic" button are shown. */
  lemma SuccessShowsStudyDisplay(
    events: seq<Event>, subj: string, top: string, m: StudyMaterials, answeredSubject: string, answeredTopic: string)
    requires Gated(true, Start(true), events + [SubmitTopic(subj, top), ServiceResolved(m, answeredSubject, answeredTopic)])
    ensures answeredSubject == subj && answeredTopic == top
    ensures var r := Replay(true, Start(true), events + [SubmitTopic(subj, top), ServiceResolved(m, subj, top)]).state;
      r == AppState(subj, top, Some(m), false, None, None, false)
      && ShowsStudyDisplay(r) && ShowsResetButton(r)
      && !ShowsErrorBanner(r) && !ShowsInputPanel(r) && !ShowsSpinner(r)
  {
    var c := Replay(true, Start(true), events);
    ReplayAppend(true, Start(true), events, [SubmitTopic(subj, top), ServiceResolved(m, answeredSubject, answeredTopic)]);
    ReplayAppend(true, Start(true), events, [SubmitTopic(subj, top), ServiceResolved(m, subj, top)]);
    ReplayTwo(true, c, SubmitTopic(subj, top), ServiceResolved(m, answeredSubject, answeredTopic));
    ReplayTwo(true, c, SubmitTopic(subj, top), ServiceResolved(m, subj, top));
    GatedReachableInv(true, events);
  }

  /** A keyed submit answered by a failure records the failure message, no materials and
      the subject and topic from before, and then the screen offers no control that
      changes the component's state, and no call is pending: the input panel stays hidden (the begin step cleared
      initialMessageVisible) and the "New Topic" button needs materials. The banner shows
      unless the message is empty. */
  lemma FailureLeavesNoControl(events: seq<Event>, subj: string, top: string, t: Thrown)
    requires Gated(true, Start(true), events + [SubmitTopic(subj, top), ServiceRejected(t)])
    ensures var before := Replay(true, Start(true), events).state;
      var r := Replay(true, Start(true), events + [SubmitTopic(subj, top), ServiceRejected(t)]);
      r.state == AppState(before.subject, before.topic, None, false, Some(FailureMessage(t)), None, false)
      && r.pending.None?
      && (forall e :: !Enabled(r, e))
      && (ShowsErrorBanner(r.state) <==> FailureMessage(t) != "")
  {
    ReplayAppend(true, Start(true), events, [SubmitTopic(subj, top), ServiceRejected(t)]);
    ReplayTwo(true, Replay(true, Start(true), events), SubmitTopic(subj, top), ServiceRejected(t));
    GatedReachableInv(true, events);
  }

  /** Without a key the app never leaves the input screen and always shows one of the
      two missing-key messages. */
  lemma NoKeyStaysOnInputScreen(events: seq<Event>)
    requires Gated(false, Start(false), events)
    ensures var s := Replay(false, Start(false), events).state;
      ShowsInputPanel(s) && ShowsErrorBanner(s) && IsMissingKeyError(s.error)
      && !ShowsSpinner(s) && !ShowsStudyDisplay(s) && !ShowsResetButton(s)
  {
    GatedReachableInv(false, events);
  }
}
