/** The state of the `Chat` component (app/components/Chat.tsx) as a value,
    and each of its event handlers as a function from the state before the
    event to the state after it. React state updates issued by one handler
    run in order and are applied together; the two `useEffect` hooks are
    modelled separately, by `EffectsRound` and `Settle`, which run after
    every event.

    Asynchronous handlers are split at their `await fetch(...)`: `BeginX`
    is the part before the request and `CompleteX` the part after it, given
    the request's `Outcome`. The second `await`, on `response.json()`, is
    folded into `CompleteX`, because the handler does nothing between the
    two. The requests issued and
    not yet answered are kept in `inFlight`; the `setTimeout` callbacks of
    the polling loop not yet fired are counted by `timers`. */
module ChatModel {
  import opened JsText

  datatype Option<T> = None | Some(value: T)

  datatype Role = User | Assistant

  /** A chat message. `content` is `None` when it was taken from a reply
      body that had no `response` field (JavaScript `undefined`). */
  datatype Message = Message(role: Role, content: Option<string>)

  /** What a `fetch('/api/chat', ...)` followed by `response.json()` gives
      the handler: an exception (network failure, a body that is not JSON),
      or a parsed body whose `response` field may be missing, as it is in
      the endpoint's error replies. The HTTP status is never looked at. */
  datatype Outcome = Threw | Replied(response: Option<string>)

  /** Which handler issued a request. */
  datatype Handler = SubmitHandler | PromptHandler | KickoffHandler | PollHandler

  /** One POST to the agent endpoint: the handler waiting for it and the
      JSON body's `message` and `isAutonomous` fields (an absent
      `isAutonomous` is `false`). */
  datatype Request = Request(handler: Handler, message: string, isAutonomous: bool)

  const Greeting: string := "Hello, how can I help you today?"
  const ActivationNotice: string := "Autonomous mode activated. I will now proactively interact with the blockchain."
  const DeferredStopNotice: string := "Autonomous mode deactivated. I will stop performing autonomous actions after this action is completed."
  const StopNotice: string := "Autonomous mode deactivated. I will stop performing autonomous actions."
  const KickoffPrompt: string := "You're now in autonomous mode. Please start performing interesting blockchain operations."
  const ContinuePrompt: string := "Continue with the next autonomous action."
  const PromptTemplates: seq<string> := [
    "Deploy an NFT",
    "Send 0.0001 ETH to paprika.base.eth",
    "Launch a token with total supply of 1 million"
  ]

  function AssistantSays(text: string): (m: Message) {
    Message(Assistant, Some(text))
  }

  /** The component's state: its five `useState` cells, the
      `isAutonomousRef` ref, and the pending timers and requests. */
  datatype Session = Session(
    messages: seq<Message>,
    input: string,
    isLoading: bool,
    isAutonomous: bool,
    isPendingDeactivation: bool,
    autonomousRef: bool,
    timers: nat,
    inFlight: multiset<Request>)

  /** The state on mount: the greeting alone, everything else off. */
  function Initial(): (s: Session)
    ensures s.messages == [AssistantSays(Greeting)]
    ensures !s.isLoading && !s.isAutonomous && !s.isPendingDeactivation && !s.autonomousRef
    ensures s.input == ""
    ensures s.timers == 0 && s.inFlight == multiset{}
  {
    Session([AssistantSays(Greeting)], "", false, false, false, false, 0, multiset{})
  }

  // ---------------------------------------------------------------------
  // What the rendered page lets the user do

  /** The robot button in the header is enabled. */
  predicate ToggleEnabled(s: Session)
    ensures s.isPendingDeactivation ==> !ToggleEnabled(s)
  {
    !s.isPendingDeactivation
  }

  /** The prompt templates and the input form are rendered. The robot
      button is then enabled too. */
  predicate InputShown(s: Session)
    ensures InputShown(s) ==> ToggleEnabled(s) && !s.isAutonomous
  {
    !s.isAutonomous && !s.isPendingDeactivation
  }

  /** The send button is rendered and enabled: only with the form shown and
      nothing loading. */
  predicate SendEnabled(s: Session)
    ensures SendEnabled(s) ==> InputShown(s) && !s.isLoading
  {
    InputShown(s) && !s.isLoading
  }

  /** The power button that calls `handleDeactivation` is rendered: the
      autonomous panel is shown and no deactivation is pending. That is
      only while the mode is on, and the robot button is enabled then too. */
  predicate StopButtonShown(s: Session)
    ensures StopButtonShown(s) ==> s.isAutonomous && ToggleEnabled(s)
  {
    !InputShown(s) && !s.isPendingDeactivation
  }

  /** The message appended when a request settles: one assistant message
      carrying the reply's `response`, or nothing when the request threw. */
  function ReplyMessages(outcome: Outcome): (ms: seq<Message>)
    ensures |ms| <= 1
    ensures outcome.Threw? <==> ms == []
  {
    match outcome
    case Threw => []
    case Replied(response) => [Message(Assistant, response)]
  }

  // ---------------------------------------------------------------------
  // Event handlers

  /** `onChange` of the input field. */
  function SetInput(s: Session, text: string): (r: Session)
    requires InputShown(s)
    ensures r.messages == s.messages && r.input == text
  {
    s.(input := text)
  }

  /** `handleSubmit` up to its `fetch`: nothing when the input is blank
      (`!input.trim()`, which `TrimEmptyIffBlank` shows is the same test),
      otherwise the user's message, the cleared input, the loading flag and
      one request carrying the input exactly as typed. */
  function BeginSubmit(s: Session): (r: Session)
    requires SendEnabled(s)
    ensures s.messages <= r.messages && |r.messages| <= |s.messages| + 1
  {
    if IsBlank(s.input) then s
    else
      s.(messages := s.messages + [Message(User, Some(s.input))],
         input := "",
         isLoading := true,
         inFlight := s.inFlight + multiset{Request(SubmitHandler, s.input, false)})
  }

  /** `handleSubmit` from its `fetch` to the end. */
  function CompleteSubmit(s: Session, req: Request, outcome: Outcome): (r: Session)
    requires req in s.inFlight && req.handler == SubmitHandler
    ensures s.messages <= r.messages && |r.inFlight| + 1 == |s.inFlight|
  {
    s.(messages := s.messages + ReplyMessages(outcome),
       isLoading := false,
       inFlight := s.inFlight - multiset{req})
  }

  /** `handlePromptClick` up to its `fetch`. There is no blank check and no
      loading check: only the templates are offered. */
  function BeginPromptClick(s: Session, prompt: string): (r: Session)
    requires InputShown(s) && prompt in PromptTemplates
    ensures s.messages <= r.messages && |r.messages| == |s.messages| + 1
  {
    s.(input := prompt,
       messages := s.messages + [Message(User, Some(prompt))],
       isLoading := true,
       inFlight := s.inFlight + multiset{Request(PromptHandler, prompt, false)})
  }

  /** `handlePromptClick` from its `fetch` to the end. */
  function CompletePromptClick(s: Session, req: Request, outcome: Outcome): (r: Session)
    requires req in s.inFlight && req.handler == PromptHandler
    ensures s.messages <= r.messages && |r.inFlight| + 1 == |s.inFlight|
  {
    s.(messages := s.messages + ReplyMessages(outcome),
       input := "",
       isLoading := false,
       inFlight := s.inFlight - multiset{req})
  }

  /** `toggleAutonomousMode` up to its `fetch`. It negates the flag it was
      rendered with; only when that flag was off does it announce the mode
      and issue the kickoff request. */
  function ToggleAutonomousMode(s: Session): (r: Session)
    requires ToggleEnabled(s)
    ensures s.messages <= r.messages && r.isAutonomous == !s.isAutonomous
  {
    if s.isAutonomous then s.(isAutonomous := false)
    else
      s.(isAutonomous := true,
         messages := s.messages + [AssistantSays(ActivationNotice)],
         isLoading := true,
         inFlight := s.inFlight + multiset{Request(KickoffHandler, KickoffPrompt, true)})
  }

  /** `toggleAutonomousMode` from its `fetch` to the end: on a parsed reply
      the reply is shown and the first poll is scheduled; an exception only
      gets logged. The autonomous flag is left as it is either way. */
  function CompleteKickoff(s: Session, req: Request, outcome: Outcome): (r: Session)
    requires req in s.inFlight && req.handler == KickoffHandler
    ensures s.messages <= r.messages && s.timers <= r.timers <= s.timers + 1
  {
    s.(messages := s.messages + ReplyMessages(outcome),
       timers := if outcome.Replied? then s.timers + 1 else s.timers,
       isLoading := false,
       inFlight := s.inFlight - multiset{req})
  }

  /** A timer of the polling loop fires and `pollForUpdates` runs up to its
      `fetch`: it returns at once when the ref is off. */
  function BeginPoll(s: Session): (r: Session)
    requires s.timers > 0
    ensures r.messages == s.messages && r.timers + 1 == s.timers
  {
    if !s.autonomousRef then s.(timers := s.timers - 1)
    else
      s.(timers := s.timers - 1,
         isLoading := true,
         inFlight := s.inFlight + multiset{Request(PollHandler, ContinuePrompt, true)})
  }

  /** `pollForUpdates` from its `fetch` to the end. The ref is read twice,
      when the reply is shown and in the `finally`, with no render between:
      both reads see the same value. */
  function CompletePoll(s: Session, req: Request, outcome: Outcome): (r: Session)
    requires req in s.inFlight && req.handler == PollHandler
    ensures s.messages <= r.messages && |r.inFlight| + 1 == |s.inFlight|
  {
    s.(messages := if s.autonomousRef then s.messages + ReplyMessages(outcome) else s.messages,
       isLoading := false,
       timers := if s.autonomousRef then s.timers + 1 else s.timers,
       inFlight := s.inFlight - multiset{req})
  }

  /** `handleDeactivation`: defer the stop while a request is loading,
      stop at once otherwise; a notice either way. */
  function HandleDeactivation(s: Session): (r: Session)
    requires StopButtonShown(s)
    ensures s.messages <= r.messages && |r.messages| == |s.messages| + 1
  {
    if s.isLoading then
      s.(isPendingDeactivation := true,
         messages := s.messages + [AssistantSays(DeferredStopNotice)])
    else
      s.(isAutonomous := false,
         messages := s.messages + [AssistantSays(StopNotice)])
  }

  // ---------------------------------------------------------------------
  // The two effects

  /** One commit's worth of effects. Both read the values of the same
      render: the first copies the flag into the ref and clears a pending
      deactivation once the flag is off and nothing is loading; the second
      turns the flag off once loading has ended with a deactivation
      pending. */
  function EffectsRound(s: Session): (r: Session)
    ensures r.autonomousRef == s.isAutonomous
    ensures r.isAutonomous ==> s.isAutonomous
    ensures r.isPendingDeactivation ==> s.isPendingDeactivation
    ensures r.messages == s.messages && r.input == s.input && r.isLoading == s.isLoading
    ensures r.timers == s.timers && r.inFlight == s.inFlight
  {
    s.(autonomousRef := s.isAutonomous,
       isPendingDeactivation :=
         if !s.isAutonomous && !s.isLoading && s.isPendingDeactivation then false
         else s.isPendingDeactivation,
       isAutonomous :=
         if !s.isLoading && s.isPendingDeactivation then false
         else s.isAutonomous)
  }

  /** A state on which the effects have nothing left to do. */
  predicate Settled(s: Session) {
    s.autonomousRef == s.isAutonomous && (s.isPendingDeactivation ==> s.isLoading)
  }

  /** Decreases with every round of effects that changes something. */
  function Pressure(s: Session): (n: nat) {
    (if s.isAutonomous then 2 else 0)
    + (if s.isPendingDeactivation then 1 else 0)
    + (if s.autonomousRef != s.isAutonomous then 1 else 0)
  }

  /** Re-render and run the effects until they are stable. The result has
      the ref equal to the flag; a deactivation pending when loading has
      ended is carried out and cleared; a state still loading keeps its
      flags; messages, input, loading, timers and requests are untouched. */
  function Settle(s: Session): (r: Session)
    ensures Settled(r)
    ensures r == s.(autonomousRef := r.autonomousRef,
                    isAutonomous := r.isAutonomous,
                    isPendingDeactivation := r.isPendingDeactivation)
    ensures !s.isLoading && s.isPendingDeactivation ==>
              !r.isAutonomous && !r.isPendingDeactivation
    ensures !(!s.isLoading && s.isPendingDeactivation) ==>
              r.isAutonomous == s.isAutonomous && r.isPendingDeactivation == s.isPendingDeactivation
    decreases Pressure(s)
  {
    if Settled(s) then s else Settle(EffectsRound(s))
  }

  // ---------------------------------------------------------------------
  // Runs of events

  /** Everything that can happen to the component between two renders. */
  datatype Event =
    | Typed(text: string)
    | Submitted
    | SubmitSettled(req: Request, outcome: Outcome)
    | TemplateClicked(prompt: string)
    | TemplateSettled(req: Request, outcome: Outcome)
    | RobotClicked
    | KickoffSettled(req: Request, outcome: Outcome)
    | TimerFired
    | PollSettled(req: Request, outcome: Outcome)
    | StopClicked

  /** The page offers the event, or the request it answers is in flight. */
  predicate Enabled(s: Session, e: Event) {
    match e
    case Typed(_) => InputShown(s)
    case Submitted => SendEnabled(s)
    case SubmitSettled(req, _) => req in s.inFlight && req.handler == SubmitHandler
    case TemplateClicked(prompt) => InputShown(s) && prompt in PromptTemplates
    case TemplateSettled(req, _) => req in s.inFlight && req.handler == PromptHandler
    case RobotClicked => ToggleEnabled(s)
    case KickoffSettled(req, _) => req in s.inFlight && req.handler == KickoffHandler
    case TimerFired => s.timers > 0
    case PollSettled(req, _) => req in s.inFlight && req.handler == PollHandler
    case StopClicked => StopButtonShown(s)
  }

  /** The handler an event runs. */
  function Handle(s: Session, e: Event): (r: Session)
    requires Enabled(s, e)
    ensures s.messages <= r.messages
  {
    match e
    case Typed(text) => SetInput(s, text)
    case Submitted => BeginSubmit(s)
    case SubmitSettled(req, outcome) => CompleteSubmit(s, req, outcome)
    case TemplateClicked(prompt) => BeginPromptClick(s, prompt)
    case TemplateSettled(req, outcome) => CompletePromptClick(s, req, outcome)
    case RobotClicked => ToggleAutonomousMode(s)
    case KickoffSettled(req, outcome) => CompleteKickoff(s, req, outcome)
    case TimerFired => BeginPoll(s)
    case PollSettled(req, outcome) => CompletePoll(s, req, outcome)
    case StopClicked => HandleDeactivation(s)
  }

  /** The handler followed by the effects of the renders it causes. */
  function Step(s: Session, e: Event): (r: Session)
    requires Enabled(s, e)
  {
    Settle(Handle(s, e))
  }

  /** The state after the events `es` in order, or `None` when one of them
      is not offered at its turn. */
  function Run(s: Session, es: seq<Event>): (r: Option<Session>)
    decreases |es|
  {
    if es == [] then Some(s)
    else if Enabled(s, es[0]) then Run(Step(s, es[0]), es[1..])
    else None
  }

  // ---------------------------------------------------------------------
  // The wallet address in the header

  function Min(a: int, b: int): (m: int) {
    if a <= b then a else b
  }

  /** `truncateAddress`: the first five characters, an ellipsis, the last
      five (fewer of each when the address is shorter). */
  function TruncateAddress(address: string): (r: string)
    ensures r == address[..Min(5, |address|)] + "..." + address[|address| - Min(5, |address|)..]
    ensures |r| == 2 * Min(5, |address|) + 3
  {
    Slice(address, 0, 5) + "..." + Slice(address, -5, |address|)
  }
}
