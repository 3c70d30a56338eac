/** The App component (App.tsx) as an object: its seven state hooks are fields, the
    configured API key is a constant, and each handler (or each atomic step of the
    asynchronous submit handler) is a method that updates the fields. Every method
    states its new state field by field and ties it to `Lifecycle.Step`. */
module AppComponent {
  import opened StudyTypes
  import opened Lifecycle

  /** What the content service's call settles to; the model leaves it open. */
  datatype Outcome = Resolved(materials: StudyMaterials) | Rejected(thrown: Thrown)

  class App {
    /** Whether `process.env.API_KEY` is set. */
    const hasApiKey: bool

    var subject: string
    var topic: string
    var studyMaterials: Option<StudyMaterials>
    var isLoading: bool
    var error: Option<string>
    var currentTool: Option<StudyTool>
    var initialMessageVisible: bool

    /** The fields as one value. */
    function State(): AppState
      reads this
    {
      AppState(subject, topic, studyMaterials, isLoading, error, currentTool, initialMessageVisible)
    }

    /** Mounting: the hooks' initial values, then the startup effect, which raises the
        startup banner when no key is configured. */
    constructor (hasApiKey: bool)
      ensures this.hasApiKey == hasApiKey
      ensures subject == "" && topic == "" && studyMaterials == None && !isLoading
      ensures currentTool == None && initialMessageVisible
      ensures error == if hasApiKey then None else Some(MissingKeyAtStartup)
      ensures State() == Mounted(hasApiKey)
      ensures ShowsInputPanel(State()) && !ShowsSpinner(State()) && !ShowsStudyDisplay(State())
      ensures ShowsErrorBanner(State()) <==> !hasApiKey
    {
      this.hasApiKey := hasApiKey;
      subject := "";
      topic := "";
      studyMaterials := None;
      isLoading := false;
      error := None;
      currentTool := None;
      initialMessageVisible := true;
      new;
      if !hasApiKey {
        error := Some(MissingKeyAtStartup);
      }
    }

    /** The early return of the submit handler when no key is configured; the submitted
        pair is ignored. */
    method SubmitWithoutKey(submittedSubject: string, submittedTopic: string)
      requires !hasApiKey
      modifies this`error, this`isLoading
      ensures error == Some(MissingKeyAtSubmit) && !isLoading
      ensures subject == old(subject) && topic == old(topic)
      ensures studyMaterials == old(studyMaterials) && currentTool == old(currentTool)
      ensures initialMessageVisible == old(initialMessageVisible)
      ensures State() == Step(hasApiKey, old(State()), SubmitTopic(submittedSubject, submittedTopic))
    {
      error := Some(MissingKeyAtSubmit);
      isLoading := false;
    }

    /** The synchronous prefix of the submit handler with a key: everything before the
        service call is awaited. The submitted pair is not stored yet. */
    method BeginSubmit(submittedSubject: string, submittedTopic: string)
      requires hasApiKey
      modifies this`isLoading, this`error, this`studyMaterials, this`initialMessageVisible, this`currentTool
      ensures isLoading && error == None && studyMaterials == None
      ensures !initialMessageVisible && currentTool == None
      ensures subject == old(subject) && topic == old(topic)
      ensures State() == Step(hasApiKey, old(State()), SubmitTopic(submittedSubject, submittedTopic))
      ensures ShowsSpinner(State()) && !ShowsInputPanel(State()) && !ShowsResetButton(State())
      ensures !ShowsErrorBanner(State()) && !ShowsStudyDisplay(State())
    {
      isLoading := true;
      error := None;
      studyMaterials := None;
      initialMessageVisible := false;
      currentTool := None;
    }

    /** The service resolved: the `try` body, then the `finally` clause. */
    method CompleteSuccess(materials: StudyMaterials, submittedSubject: string, submittedTopic: string)
      modifies this`studyMaterials, this`subject, this`topic, this`isLoading
      ensures studyMaterials == Some(materials)
      ensures subject == submittedSubject && topic == submittedTopic && !isLoading
      ensures error == old(error) && currentTool == old(currentTool)
      ensures initialMessageVisible == old(initialMessageVisible)
      ensures State() == Step(hasApiKey, old(State()), ServiceResolved(materials, submittedSubject, submittedTopic))
    {
      studyMaterials := Some(materials);
      subject := submittedSubject;
      topic := submittedTopic;
      isLoading := false;
    }

    /** The service rejected: the `catch` clause, then the `finally` clause. */
    method CompleteFailure(thrown: Thrown)
      modifies this`error, this`isLoading
      ensures error == Some(FailureMessage(thrown))
      ensures !isLoading
      ensures studyMaterials == old(studyMaterials) && subject == old(subject) && topic == old(topic)
      ensures currentTool == old(currentTool) && initialMessageVisible == old(initialMessageVisible)
      ensures State() == Step(hasApiKey, old(State()), ServiceRejected(thrown))
    {
      match thrown {
        case ErrorInstance(message) =>
          error := Some(message);
        case NonError =>
          error := Some(UnknownError);
      }
      isLoading := false;
    }

    /** The whole submit handler, with the service's outcome given: without a key it
        only records the submit-time error; with a key it begins a request and applies
        the outcome, so the result depends on the old state only for the subject and
        topic a failure keeps. */
    method HandleTopicSubmit(submittedSubject: string, submittedTopic: string, outcome: Outcome)
      modifies this
      ensures !hasApiKey ==>
        State() == old(State()).(error := Some(MissingKeyAtSubmit), isLoading := false)
      ensures hasApiKey && outcome.Resolved? ==>
        State() == AppState(submittedSubject, submittedTopic, Some(outcome.materials), false, None, None, false)
      ensures hasApiKey && outcome.Rejected? ==>
        State() == AppState(old(subject), old(topic), None, false,
                            Some(FailureMessage(outcome.thrown)), None, false)
    {
      if !hasApiKey {
        SubmitWithoutKey(submittedSubject, submittedTopic);
        return;
      }
      BeginSubmit(submittedSubject, submittedTopic);
      match outcome
      case Resolved(materials) =>
        CompleteSuccess(materials, submittedSubject, submittedTopic);
      case Rejected(thrown) =>
        CompleteFailure(thrown);
    }

    method HandleToolSelect(tool: StudyTool)
      modifies this`currentTool
      ensures currentTool == Some(tool)
      ensures State() == old(State()).(currentTool := Some(tool))
      ensures State() == Step(hasApiKey, old(State()), ToolSelected(tool))
    {
      currentTool := Some(tool);
    }

    /** Back to the initial screen, from any state; a second reset changes nothing. */
    method ResetApp()
      modifies this
      ensures subject == "" && topic == "" && studyMaterials == None && error == None
      ensures !isLoading && initialMessageVisible && currentTool == None
      ensures State() == Step(hasApiKey, old(State()), AppReset)
      ensures State() == Step(hasApiKey, State(), AppReset)
    {
      subject := "";
      topic := "";
      studyMaterials := None;
      error := None;
      isLoading := false;
      initialMessageVisible := true;
      currentTool := None;
    }
  }
}
