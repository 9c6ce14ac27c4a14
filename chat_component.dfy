/** The `Chat` component as an object whose fields are its React state,
    its `isAutonomousRef` ref, its pending poll timers and its requests in
    flight. Each method runs one handler, or one half of an asynchronous
    handler, updating the fields step by step as the source's setters do;
    its contract ties the new state to the function of `ChatModel` that
    specifies it. */
module ChatComponent {
  import opened JsText
  import opened ChatModel

  class Chat {
    var messages: seq<Message>
    var input: string
    var isLoading: bool
    var isAutonomous: bool
    var isPendingDeactivation: bool
    var autonomousRef: bool
    var timers: nat
    var inFlight: multiset<Request>

    /** The fields, as a value. */
    function State(): Session
      reads this
    {
      Session(messages, input, isLoading, isAutonomous, isPendingDeactivation,
              autonomousRef, timers, inFlight)
    }

    constructor ()
      ensures State() == Initial()
    {
      messages := [AssistantSays(Greeting)];
      input := "";
      isLoading := false;
      isAutonomous := false;
      isPendingDeactivation := false;
      autonomousRef := false;
      timers := 0;
      inFlight := multiset{};
    }

    /** The input field's `onChange`. */
    method SetInput(text: string)
      requires InputShown(State())
      modifies this
      ensures State() == ChatModel.SetInput(old(State()), text)
    {
      input := text;
    }

    /** `handleSubmit` up to its `fetch`; `sent` is the request issued, if
      any. */
    method BeginSubmit() returns (sent: Option<Request>)
      requires SendEnabled(State())
      modifies this
      ensures State() == ChatModel.BeginSubmit(old(State()))
      ensures sent == if IsBlank(old(input)) then None else Some(Request(SubmitHandler, old(input), false))
      ensures sent.Some? ==> sent.value in inFlight
    {
      TrimEmptyIffBlank(input);
      if Trim(input) == [] {
        return None;
      }
      var text := input;
      messages := messages + [Message(User, Some(text))];
      input := "";
      isLoading := true;
      sent := Some(Request(SubmitHandler, text, false));
      inFlight := inFlight + multiset{sent.value};
    }

    /** `handleSubmit` after its `fetch` settled with `outcome`. */
    method CompleteSubmit(req: Request, outcome: Outcome)
      requires req in inFlight && req.handler == SubmitHandler
      modifies this
      ensures State() == ChatModel.CompleteSubmit(old(State()), req, outcome)
    {
      inFlight := inFlight - multiset{req};
      if outcome.Replied? {
        messages := messages + [Message(Assistant, outcome.response)];
      }
      isLoading := false;
    }

    /** `handlePromptClick` up to its `fetch`. */
    method BeginPromptClick(prompt: string) returns (sent: Request)
      requires InputShown(State()) && prompt in PromptTemplates
      modifies this
      ensures State() == ChatModel.BeginPromptClick(old(State()), prompt)
      ensures sent == Request(PromptHandler, prompt, false) && sent in inFlight
    {
      input := prompt;
      messages := messages + [Message(User, Some(prompt))];
      isLoading := true;
      sent := Request(PromptHandler, prompt, false);
      inFlight := inFlight + multiset{sent};
    }

    /** `handlePromptClick` after its `fetch` settled with `outcome`. */
    method CompletePromptClick(req: Request, outcome: Outcome)
      requires req in inFlight && req.handler == PromptHandler
      modifies this
      ensures State() == ChatModel.CompletePromptClick(old(State()), req, outcome)
    {
      inFlight := inFlight - multiset{req};
      if outcome.Replied? {
        messages := messages + [Message(Assistant, outcome.response)];
      }
      input := "";
      isLoading := false;
    }

    /** `toggleAutonomousMode` up to its `fetch`; `sent` is the kickoff
      request, issued only when the mode was off. */
    method ToggleAutonomousMode() returns (sent: Option<Request>)
      requires ToggleEnabled(State())
      modifies this
      ensures State() == ChatModel.ToggleAutonomousMode(old(State()))
      ensures sent == if old(isAutonomous) then None else Some(Request(KickoffHandler, KickoffPrompt, true))
    {
      var wasAutonomous := isAutonomous;
      isAutonomous := !wasAutonomous;
      sent := None;
      if !wasAutonomous {
        messages := messages + [AssistantSays(ActivationNotice)];
        isLoading := true;
        sent := Some(Request(KickoffHandler, KickoffPrompt, true));
        inFlight := inFlight + multiset{sent.value};
      }
    }

    /** `toggleAutonomousMode` after the kickoff `fetch` settled. */
    method CompleteKickoff(req: Request, outcome: Outcome)
      requires req in inFlight && req.handler == KickoffHandler
      modifies this
      ensures State() == ChatModel.CompleteKickoff(old(State()), req, outcome)
    {
      inFlight := inFlight - multiset{req};
      if outcome.Replied? {
        messages := messages + [Message(Assistant, outcome.response)];
        timers := timers + 1;
      }
      isLoading := false;
    }

    /** A poll timer fires: `pollForUpdates` up to its `fetch`; `sent` is
      the request, issued only when the ref is on. */
    method BeginPoll() returns (sent: Option<Request>)
      requires timers > 0
      modifies this
      ensures State() == ChatModel.BeginPoll(old(State()))
      ensures sent.Some? <==> old(autonomousRef)
      ensures sent.Some? ==> sent.value == Request(PollHandler, ContinuePrompt, true)
    {
      timers := timers - 1;
      if !autonomousRef {
        return None;
      }
      isLoading := true;
      sent := Some(Request(PollHandler, ContinuePrompt, true));
      inFlight := inFlight + multiset{sent.value};
    }

    /** `pollForUpdates` after its `fetch` settled with `outcome`. */
    method CompletePoll(req: Request, outcome: Outcome)
      requires req in inFlight && req.handler == PollHandler
      modifies this
      ensures State() == ChatModel.CompletePoll(old(State()), req, outcome)
    {
      inFlight := inFlight - multiset{req};
      if outcome.Replied? && autonomousRef {
        messages := messages + [Message(Assistant, outcome.response)];
      }
      isLoading := false;
      if autonomousRef {
        timers := timers + 1;
      }
    }

    /** `handleDeactivation`. */
    method HandleDeactivation()
      requires StopButtonShown(State())
      modifies this
      ensures State() == ChatModel.HandleDeactivation(old(State()))
    {
      if isLoading {
        isPendingDeactivation := true;
        messages := messages + [AssistantSays(DeferredStopNotice)];
      } else {
        isAutonomous := false;
        messages := messages + [AssistantSays(StopNotice)];
      }
    }

    /** Re-render and run the two effects, in declaration order and on the
      values of the same render, until neither changes anything. */
    method Settle()
      modifies this
      ensures State() == ChatModel.Settle(old(State()))
      ensures Settled(State())
    {
      while !Settled(State())
        invariant ChatModel.Settle(State()) == ChatModel.Settle(old(State()))
        decreases Pressure(State())
      {
        var autonomous, loading, pending := isAutonomous, isLoading, isPendingDeactivation;
        // the effect on [isAutonomous, isLoading]
        autonomousRef := autonomous;
        if !autonomous && !loading && pending {
          isPendingDeactivation := false;
        }
        // the effect on [isLoading, isPendingDeactivation]
        if !loading && pending {
          isAutonomous := false;
        }
      }
    }
  }
}
