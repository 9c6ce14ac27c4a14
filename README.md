# Chat component controller, modelled in Dafny

The web client of the wallet chat demo is one React component, `Chat`
(`app/components/Chat.tsx`). It keeps a message log and lets the user talk
to an AI agent that acts on a blockchain wallet. The user can type a
message, click one of three prompt templates, or switch on **autonomous
mode**. In that mode the component sends a kickoff prompt to the agent
endpoint, then polls the endpoint with a "continue" prompt on a timer. The
power button stops the mode. If a request is loading when it is pressed,
the stop is deferred: the `isPendingDeactivation` flag is set, and a
`useEffect` turns the mode off once loading ends.

This project models that controller:

- `js_text.dfy`, module `JsText`: the two JavaScript string built-ins the
  component uses. `Trim` models `String.prototype.trim`, with ECMAScript's
  white-space and line-terminator characters. `Slice` models
  `String.prototype.slice`, including negative indices.
- `chat_model.dfy`, module `ChatModel`: the component's state as a value
  (`Session`). It holds the five `useState` cells, the `isAutonomousRef`
  ref, a count of poll timers not yet fired, and a multiset of requests in
  flight. Each handler is a function on `Session`. An asynchronous handler
  is split at its `await fetch(...)` into `BeginX` and `CompleteX`; the
  latter takes the request's `Outcome`. `EffectsRound` is one commit of the
  two effects, and `Settle` repeats it until nothing changes. `Run` applies
  a sequence of user and network events, settling after each one. The
  module also holds `TruncateAddress`.
- `chat_component.dfy`, module `ChatComponent`: class `Chat`. Its fields
  are the same state, and its methods update them step by step as the
  source's setters do. Each method's contract equates the new `State()`
  with the `ChatModel` function of the old one. `Settle` is a loop that
  runs the two effects until they are stable.
- `chat_properties.dfy`, module `ChatProperties`: what each handler does,
  the invariants kept by every run from mount (append-only log, the ref in
  step with the flag, a pending deactivation only while the mode is on and
  a request is loading), and the scenarios the component supports.

The UI's enabling conditions become preconditions. The robot button is
disabled while a deactivation is pending (line 247). The input form and the
templates are rendered only while the mode is off and nothing is pending
(line 289). The send button is disabled while loading (line 319). The power
button is rendered only in the autonomous panel and only while nothing is
pending (lines 289 and 347).

Behaviour of the code worth knowing:

- A request that throws appends no error message; it is only logged.
- A kickoff that throws leaves `isAutonomous` on and schedules no poll.
  The page then shows the autonomous panel until the power button or the
  robot button is used. The robot button stays enabled, and pressing it
  turns the mode off and brings the input form back (`FailedKickoffStaysOn`).
- The robot button, pressed while the mode is on, only clears the flag. No
  notice is shown, and pending timers are not cancelled.
- In a deferred stop, the poll's `finally` reads the ref before the effects
  run. So one more timer is scheduled, and when it fires it makes no
  request (`DeferredStopScenario`).
- The templates are not disabled while loading. A template click during a
  manual send puts a second request in flight (`TemplateClickOverlapsSend`).
  The component therefore does not keep requests one at a time.
- The HTTP status is not checked. An error reply from the endpoint parses,
  and its missing `response` field becomes a message with undefined
  content. `Outcome.Replied(None)` and `Message.content == None` model it.

## Model

| member | source | states |
|---|---|---|
| `JsText.TrimEmptyIffBlank` | app/components/Chat.tsx:49 | `input.trim()` is empty exactly when every character of the input is JavaScript white space |
| `ChatModel.Initial` | app/components/Chat.tsx:21-28 | on mount the log is the greeting alone, the input is empty, and loading, the mode, the pending mark and the ref are off |
| `ChatModel.TruncateAddress` | app/components/Chat.tsx:34-36 | the result is the first `min(5, n)` characters, `...`, then the last `min(5, n)`, for an address of length `n` |
| `JsText.Trim` | app/components/Chat.tsx:49 | `input.trim()` is a piece of the input with only white space removed before and after it, and it neither starts nor ends with white space |
| `JsText.Slice` | app/components/Chat.tsx:35 | `slice` with in-range indices is the plain substring, and a negative start counts back from the end |
| `ChatModel.ToggleEnabled` | app/components/Chat.tsx:247 | the robot button is disabled while a deactivation is pending |
| `ChatModel.InputShown` | app/components/Chat.tsx:289 | the templates and the input form are shown only while the mode is off, and the robot button is then enabled |
| `ChatModel.SendEnabled` | app/components/Chat.tsx:319 | the send button works only with the form shown and nothing loading |
| `ChatModel.StopButtonShown` | app/components/Chat.tsx:289-356 | the power button is shown only while the mode is on and nothing is pending, and the robot button is then enabled too |
| `ChatModel.BeginSubmit` | app/components/Chat.tsx:47-58 | the log keeps its old contents as a prefix and grows by at most one message |
| `ChatModel.CompleteSubmit` | app/components/Chat.tsx:60-79 | the log keeps its prefix and exactly one request leaves the in-flight set |
| `ChatModel.BeginPromptClick` | app/components/Chat.tsx:82-91 | the log keeps its prefix and grows by exactly one message |
| `ChatModel.CompletePromptClick` | app/components/Chat.tsx:93-113 | the log keeps its prefix and exactly one request leaves the in-flight set |
| `ChatModel.ToggleAutonomousMode` | app/components/Chat.tsx:116-126 | the flag is negated and the log keeps its prefix |
| `ChatModel.CompleteKickoff` | app/components/Chat.tsx:128-193 | the log keeps its prefix and at most one timer is added |
| `ChatModel.BeginPoll` | app/components/Chat.tsx:149-153 | a firing consumes exactly one timer and never touches the log |
| `ChatModel.CompletePoll` | app/components/Chat.tsx:154-183 | the log keeps its prefix and exactly one request leaves the in-flight set |
| `ChatModel.HandleDeactivation` | app/components/Chat.tsx:205-219 | the log keeps its prefix and grows by exactly one message |
| `ChatModel.SetInput` | app/components/Chat.tsx:313 | typing replaces the input and leaves the log alone |
| `ChatModel.EffectsRound` | app/components/Chat.tsx:197-226 | one commit of both effects copies the flag into the ref, can only turn the flag and the pending mark off, and leaves the log, input, loading, timers and requests alone |
| `ChatModel.Settle` | app/components/Chat.tsx:197-226 | the effects reach a state where the ref equals the flag and a pending mark implies loading; a pending mark with loading ended turns both the mode and the mark off; a still-loading or unmarked state keeps its flags; nothing but the ref and the two flags changes |
| `ChatModel.Handle` | app/components/Chat.tsx:47-219 | every handler keeps the old log as a prefix |
| `ChatComponent.Chat.constructor` | app/components/Chat.tsx:21-28 | the new component's state is the mount state |
| `ChatComponent.Chat.SetInput` | app/components/Chat.tsx:313 | the field update matches `ChatModel.SetInput` |
| `ChatComponent.Chat.BeginSubmit` | app/components/Chat.tsx:47-58 | the state becomes `ChatModel.BeginSubmit` of the old state; a request carrying the untrimmed input is returned exactly when the input is not blank |
| `ChatComponent.Chat.CompleteSubmit` | app/components/Chat.tsx:60-79 | the state becomes `ChatModel.CompleteSubmit` of the old state |
| `ChatComponent.Chat.BeginPromptClick` | app/components/Chat.tsx:82-91 | the state becomes `ChatModel.BeginPromptClick` of the old state, and the template's request is returned |
| `ChatComponent.Chat.CompletePromptClick` | app/components/Chat.tsx:93-113 | the state becomes `ChatModel.CompletePromptClick` of the old state |
| `ChatComponent.Chat.ToggleAutonomousMode` | app/components/Chat.tsx:116-126 | the state becomes `ChatModel.ToggleAutonomousMode` of the old state; the kickoff request is returned exactly when the mode was off |
| `ChatComponent.Chat.CompleteKickoff` | app/components/Chat.tsx:128-193 | the state becomes `ChatModel.CompleteKickoff` of the old state |
| `ChatComponent.Chat.BeginPoll` | app/components/Chat.tsx:149-153 | the state becomes `ChatModel.BeginPoll` of the old state; a continuation request is returned exactly when the ref was on |
| `ChatComponent.Chat.CompletePoll` | app/components/Chat.tsx:154-183 | the state becomes `ChatModel.CompletePoll` of the old state |
| `ChatComponent.Chat.HandleDeactivation` | app/components/Chat.tsx:205-219 | the state becomes `ChatModel.HandleDeactivation` of the old state |
| `ChatComponent.Chat.Settle` | app/components/Chat.tsx:197-226 | running the two effects until stable leaves `ChatModel.Settle` of the old state, which is settled |
| `ChatProperties.BeginSubmitSendsInputAsTyped` | app/components/Chat.tsx:49-58 | an input whose `trim()` is empty changes nothing; otherwise exactly one user message with the untrimmed input is appended, the input is cleared, loading starts, one request with that input is issued, and the mode flags are unchanged |
| `ChatProperties.CompleteSubmitShowsReply` | app/components/Chat.tsx:69-79 | a parsed reply appends exactly one assistant message with its `response`; an exception appends nothing; loading ends on both paths; the mode flags and timers are unchanged |
| `ChatProperties.BeginPromptClickSendsTemplate` | app/components/Chat.tsx:82-91 | the template goes into the input and is appended as a user message; loading starts and one request with it is issued |
| `ChatProperties.CompletePromptClickClearsInput` | app/components/Chat.tsx:102-113 | reply or no reply as for a manual send; on both paths the input is cleared and loading ends |
| `ChatProperties.ToggleStartsKickoff` | app/components/Chat.tsx:116-138 | with the mode off, the robot button turns it on, appends the activation notice, starts loading and issues the kickoff request |
| `ChatProperties.ToggleWhileActiveOnlyClearsFlag` | app/components/Chat.tsx:117-118 | with the mode on, the robot button clears the flag and changes nothing else: no message, no request, timers kept |
| `ChatProperties.CompleteKickoffSchedulesFirstPoll` | app/components/Chat.tsx:140-193 | a parsed kickoff reply is appended and exactly one first poll is scheduled; an exception appends nothing and schedules nothing; loading ends and the mode flag is kept on both paths |
| `ChatProperties.BeginPollGuardedByRef` | app/components/Chat.tsx:149-153 | with the ref off, a firing timer changes nothing but its own removal; with it on, loading starts and one continuation request is issued |
| `ChatProperties.CompletePollReschedulesWhileOn` | app/components/Chat.tsx:166-183 | the reply is appended only if it parsed and the ref is on; loading ends; the next poll is scheduled exactly when the ref is on |
| `ChatProperties.HandleDeactivationDefersWhileLoading` | app/components/Chat.tsx:205-219 | exactly one notice is appended; while loading the mark is set and the mode kept; otherwise the mode goes off and the mark is kept |
| `ChatProperties.SettledIsFixpoint` | app/components/Chat.tsx:197-226 | a state is settled exactly when one round of the two effects leaves it unchanged |
| `ChatProperties.InitialConsistent` | app/components/Chat.tsx:21-28 | the mount state satisfies the controller's invariants |
| `ChatProperties.StepKeepsConsistent` | app/components/Chat.tsx:47-226 | every offered event, followed by its effects, keeps the invariants: settled, a pending mark only with the mode on and loading, loading only with a request in flight |
| `ChatProperties.RunKeepsConsistent` | app/components/Chat.tsx:47-226 | every run of offered events keeps those invariants |
| `ChatProperties.RunAppendOnly` | app/components/Chat.tsx:47-226 | every run of events keeps the old log as a prefix |
| `ChatProperties.ReachableFromMount` | app/components/Chat.tsx:21-226 | every reachable state starts its log with the greeting, has the ref equal to the flag, and has a pending mark only while the mode is on and a request is loading |
| `ChatProperties.SendAndReplyScenario` | app/components/Chat.tsx:47-79 | sending a message that is not blank and getting a reply ends the log with the message as typed and then the reply, with nothing loading |
| `ChatProperties.AutonomousScenario` | app/components/Chat.tsx:116-193 | activation, kickoff reply "Action A", a timer and poll reply "Action B" append the notice, A and B in order; the mode stays on and the next poll is scheduled |
| `ChatProperties.FailedKickoffStaysOn` | app/components/Chat.tsx:189-193 | a kickoff that throws leaves only the activation notice and no timer; the mode stays on and the power button is shown; the robot button is still enabled, and pressing it turns the mode off and shows the input form |
| `ChatProperties.DeferredStopScenario` | app/components/Chat.tsx:177-226 | stop during a poll: deferred notice with the mode kept on; then the reply is appended, the mode and mark go off, one extra timer is scheduled, and its firing makes no request |
| `ChatProperties.TemplateClickOverlapsSend` | app/components/Chat.tsx:289-305 | a template click while a manual send is loading leaves two requests in flight |

## Left out

- The agent endpoint (`app/api/chat/route.ts`) is not part of this model.
  Its answer to a request is the `Outcome` parameter of each `CompleteX`.
- The `fetch` transport, JSON parsing and `console.error` logging are left
  out. The model keeps only their effect on the handler: an exception, or
  a parsed body.
- The 10-second delay of `setTimeout` is left out. Poll timers are a count
  of callbacks not yet fired, and any of them may fire next.
- Interleaving finer than one event is left out. Each half of a handler
  runs as one step, followed by the effects of the renders it causes.
- `ChatModel.Settle` runs both effects on every round. React runs each
  effect only when its dependency list changed. The two differ only when
  `isPendingDeactivation` becomes true while the mode is off and nothing is
  loading. `handleDeactivation` never does that: it sets the mark only while
  loading, and its button appears only while the mode is on.
- The environment read of the wallet address (line 32) is left out;
  `TruncateAddress` takes the address as a parameter.
- Rendering, animation and scrolling (lines 38-45 and 228-361) are left
  out, except the enabling conditions listed above.
- `layout.tsx` and `page.tsx` are not part of this model; they hold only
  page layout.
- Strings are sequences of characters. JavaScript's UTF-16 code units are
  not modelled separately; this matters only for `slice` on astral
  characters in the address.
