# AI Study Assistant: request lifecycle of the App component

The App component of the study assistant keeps seven pieces of state (subject, topic,
fetched study materials, a loading flag, an error message, the selected study tool and
whether the welcome prompt is shown), reads whether an API key is configured, and changes
that state through four handlers: the startup effect, the topic-submit handler (which
awaits the AI content service), the tool-select handler and the reset handler. Its
render shows five panels, each under a boolean condition over that state.

This project models that lifecycle in three modules:

- `StudyTypes` (`types.dfy`): the study-material document and the seven study tools, as
  datatypes.
- `Lifecycle` (`lifecycle.dfy`): the state as a value (`AppState`), every atomic
  transition as one function `Step` over an `Event`, event sequences (`Run`), the five
  render conditions (`ShowsResetButton`, `ShowsErrorBanner`, `ShowsInputPanel`,
  `ShowsSpinner`, `ShowsStudyDisplay`), and the lemmas about reachable states.
- `AppComponent` (`app.dfy`): the component as a class `App` whose fields are the state
  hooks and whose constant `hasApiKey` stands for the configured key. Each handler, and
  each atomic step of the asynchronous submit handler, is a method. Each method states
  its new state field by field and is tied to `Lifecycle.Step`.

Two notions of reachability are proved about the model.

- Any order of events, stale service answers included: loading always means no
  materials and no error. So the spinner is always shown alone.
- Only the events the screen offers (`Gated`, over a `Session`: the state plus the
  request in flight, that is, the pair the pending call was submitted with). A submit
  needs the input panel. A tool selection needs the study display. A reset needs the
  "New Topic" button. A rejection needs a request in flight, and a success needs the
  request in flight for its own pair. Here more things hold:
  - A request is in flight exactly while `isLoading` holds.
  - While loading, nothing but the service's answer can happen, so the missing
    stale-response guard is never needed. A success after a keyed submit carries the
    submitted pair.
  - Without a key the app never leaves the input screen.
  - After a failed request the screen offers no control that changes the component's
    state (the theme toggle in the header stays, but touches no state hook here). The input panel stays
    hidden because the begin step cleared `initialMessageVisible`, and the "New Topic"
    button needs materials.

The error banner is shown for a non-empty message only, because an empty string is falsy
in the render's `error && …`. Materials are always truthy when present.

Three facts of the code shape the model:
- The tool-select handler has no guard on the state.
- There is no request identity and no stale-response guard.
- A submit without a key changes the state: it replaces the error message.

## Model

| member | source | states |
|---|---|---|
| `AppComponent.App.constructor` | App.tsx:13-28 | Mounting yields the hooks' initial values. The error is the startup missing-key message exactly when no key is configured, and null otherwise. The input panel is shown; the banner is shown iff the key is missing. |
| `AppComponent.App.SubmitWithoutKey` | App.tsx:32-36 | Without a key, a submit sets the submit-time missing-key error and clears loading. Subject, topic, materials, tool and the prompt flag are unchanged. |
| `AppComponent.App.BeginSubmit` | App.tsx:38-42 | With a key, a submit first sets loading, clears the error, materials and tool, and hides the prompt. Subject and topic are kept. Only the spinner is shown afterwards. |
| `AppComponent.App.CompleteSuccess` | App.tsx:44-58 | A resolved call stores the materials and the submitted subject and topic and clears loading. Error, tool and the prompt flag are unchanged. |
| `AppComponent.App.CompleteFailure` | App.tsx:49-57 | A rejected call records the Error's message, or the unknown-error message for any other thrown value, and clears loading. Materials, subject, topic, tool and the prompt flag are unchanged. |
| `AppComponent.App.HandleTopicSubmit` | App.tsx:31-59 | The whole submit handler for a given service outcome. Without a key, only the error and loading change. On success the state is exactly the submitted pair with the materials, no error, no tool, not loading, prompt hidden. On failure it is the old subject and topic, no materials, the failure message, no tool, not loading, prompt hidden. |
| `AppComponent.App.HandleToolSelect` | App.tsx:61-63 | Sets the tool in every state, with no guard, and changes nothing else. |
| `AppComponent.App.ResetApp` | App.tsx:65-73 | From any state: empty subject and topic, no materials, no error, not loading, prompt shown, no tool. A second reset changes nothing. |
| `Lifecycle.Step` | App.tsx:31-73 | Every transition keeps "loading implies no materials and no error". Loading can only be switched on by a submit made with a key. A tool selection is the only other event after which loading is still on. |
| `Lifecycle.RunPreservesLoadingClean` | App.tsx:38-73 | "Loading implies no materials and no error" survives any sequence of events. |
| `Lifecycle.ReachableLoadingClean` | App.tsx:13-73 | Every state reachable from mounting, by any events in any order, satisfies that invariant. |
| `Lifecycle.StudyDisplayExclusive` | App.tsx:104-124 | In every state, by the render conditions alone, the study display is never shown with the banner, the input panel or the spinner. |
| `Lifecycle.ReachablePanels` | App.tsx:84-124 | In every reachable state the spinner is shown without the reset button, the banner, the input panel or the study display. The reset button and banner clauses need the loading invariant. |
| `Lifecycle.ResetForgetsHistory` | App.tsx:65-73 | After a reset the state is the hooks' initial values whatever came before, and later events act on it with the same key. The startup effect is not re-run, so without a key a reset drops the startup banner. |
| `Lifecycle.ResetIsIdempotent` | App.tsx:65-73 | Reset yields the initial state from any state, so resetting twice equals resetting once. |
| `Lifecycle.LateCompletionAfterReset` | App.tsx:44-73 | The handlers do not guard against stale answers: a success arriving after a reset still installs its materials. |
| `Lifecycle.ReplayState` | App.tsx:31-73 | Tracking the request in flight does not change the state: a session replay ends in the state the plain run of the same events ends in. |
| `Lifecycle.Advance` | App.tsx:31-124 | Every event the screen or the pending call enables keeps the screen-gated invariant for one step. |
| `Lifecycle.GatedRunKeepsInv` | App.tsx:31-124 | The screen-gated invariant survives every sequence of enabled events. Its parts: a request is in flight iff loading; loading implies no materials, no error, no tool and a hidden prompt; materials imply a hidden prompt; without a key, not loading, no materials, prompt shown and a missing-key error. |
| `Lifecycle.GatedReachableInv` | App.tsx:24-124 | Every session reachable from mounting through enabled events satisfies the screen-gated invariant. |
| `Lifecycle.OnlyCompletionsWhileLoading` | App.tsx:84-124 | In a screen-reachable loading state a request is in flight and only a service answer is enabled. No submit, reset or tool selection can happen during a request. |
| `Lifecycle.SuccessShowsStudyDisplay` | App.tsx:31-131 | After a keyed submit of a pair, an enabled success must carry that pair. The state is then exactly that pair and the materials, with no error, no tool, not loading and the prompt hidden. Only the study display and the "New Topic" button are shown. |
| `Lifecycle.FailureLeavesNoControl` | App.tsx:31-124 | After a keyed submit, a failure leaves the earlier subject and topic, no materials, the failure message, no tool, not loading and the prompt hidden. No request is in flight and no event that changes the component's state is enabled. The banner is shown iff the message is non-empty. |
| `Lifecycle.NoKeyStaysOnInputScreen` | App.tsx:24-36 | Without a key, every screen-reachable state shows the input panel and the banner with one of the two missing-key messages. It never shows the spinner, the study display or the reset button. |

Definitions without a contract of their own, which the members above are stated over:

- `Lifecycle.Initial`: App.tsx:13-19, the hooks' initial values.
- `Lifecycle.Mounted`: App.tsx:24-28, the initial values after the startup effect.
- `Lifecycle.FailureMessage`: App.tsx:50-54, the message of an `Error`, else the unknown-error message.
- `Lifecycle.Step`, by event: `SubmitTopic` without a key App.tsx:32-36, with a key App.tsx:38-42; `ServiceResolved` App.tsx:46-48 and 57; `ServiceRejected` App.tsx:50-54 and 57; `ToolSelected` App.tsx:61-63; `AppReset` App.tsx:65-73.
- `Lifecycle.ShowsResetButton`: App.tsx:84.
- `Lifecycle.ShowsErrorBanner` and `Lifecycle.HasErrorText`: App.tsx:104.
- `Lifecycle.ShowsInputPanel`: App.tsx:112.
- `Lifecycle.ShowsSpinner`: App.tsx:122.
- `Lifecycle.ShowsStudyDisplay`: App.tsx:124.
- `Lifecycle.Enabled`: which handler each screen offers, from the `onClick`, `onSubmit` and `onToolSelect` props under those conditions (App.tsx:84-86, 112-118, 124-130), and the pending call of App.tsx:45.

## Left out

- The JSX markup, styling, header, footer and theming through `ThemeContext`: only the five boolean visibility conditions of the render are modelled.
- `generateStudyMaterials` and the AI service behind it: the code is not part of this model. Its result is left open. It is an `Outcome` parameter of `HandleTopicSubmit`, and separate `ServiceResolved`/`ServiceRejected` events in `Lifecycle`.
- async/await and React's batching of state updates: the no-key branch, the begin step and each completion are single atomic transitions.
- `console.error` in the failure path: logging only.
- Reading `process.env.API_KEY`: it is the constant `hasApiKey`, fixed at construction. The startup effect therefore runs exactly once.
- The display strings of the `StudyTool` enumeration: nothing in the component depends on them.
- Empty-input validation: it belongs to the `TopicInput` component, which is not part of this model. The submit handler accepts any strings.
- The request in flight is not component state: `Session.pending` stands for the pending call of App.tsx:45 and the pair its closure holds, and only the screen-gated lemmas use it.
