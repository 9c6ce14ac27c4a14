/** What the chat component promises, stated over the functions of
    `ChatModel`: the effect of each handler, the behaviour of the effects,
    properties of whole runs of events, and the scenarios the component is
    meant to support. */
module ChatProperties {
  import opened JsText
  import opened ChatModel

  // ---------------------------------------------------------------------
  // Manual chat

  /** An input whose `trim()` is empty is not sent and changes nothing.
      Otherwise exactly one user message holding the input as typed (not
      trimmed) is appended, the input is cleared, loading starts, one
      request carrying the input is issued, and the autonomous flags are
      untouched. */
  lemma BeginSubmitSendsInputAsTyped(s: Session)
    requires SendEnabled(s)
    ensures Trim(s.input) == [] ==> BeginSubmit(s) == s
    ensures Trim(s.input) != [] ==>
      var r := BeginSubmit(s);
      && r.messages == s.messages + [Message(User, Some(s.input))]
      && r.input == "" && r.isLoading
      && r.inFlight == s.inFlight + multiset{Request(SubmitHandler, s.input, false)}
      && r.isAutonomous == s.isAutonomous && r.isPendingDeactivation == s.isPendingDeactivation
      && r.autonomousRef == s.autonomousRef && r.timers == s.timers
  {
    TrimEmptyIffBlank(s.input);
  }

  /** When a manual send settles, a parsed reply adds exactly one assistant
      message with its `response` and an exception adds none; loading ends
      either way and nothing about autonomous mode or the timers changes. */
  lemma CompleteSubmitShowsReply(s: Session, req: Request, outcome: Outcome)
    requires req in s.inFlight && req.handler == SubmitHandler
    ensures var r := CompleteSubmit(s, req, outcome);
      && (outcome.Replied? ==> r.messages == s.messages + [Message(Assistant, outcome.response)])
      && (outcome.Threw? ==> r.messages == s.messages)
      && !r.isLoading && r.input == s.input
      && r.inFlight == s.inFlight - multiset{req}
      && r.isAutonomous == s.isAutonomous && r.isPendingDeactivation == s.isPendingDeactivation
      && r.autonomousRef == s.autonomousRef && r.timers == s.timers
  {
  }

  /** A template click shows the template in the input, appends it as a
      user message, starts loading and sends it; there is no blank check
      and it is accepted while another request is loading. */
  lemma BeginPromptClickSendsTemplate(s: Session, prompt: string)
    requires InputShown(s) && prompt in PromptTemplates
    ensures var r := BeginPromptClick(s, prompt);
      && r.messages == s.messages + [Message(User, Some(prompt))]
      && r.input == prompt && r.isLoading
      && r.inFlight == s.inFlight + multiset{Request(PromptHandler, prompt, false)}
      && r.isAutonomous == s.isAutonomous && r.isPendingDeactivation == s.isPendingDeactivation
      && r.autonomousRef == s.autonomousRef && r.timers == s.timers
  {
  }

  /** When a template request settles, the reply is shown as for a manual
      send, and the input is cleared on both exit paths. */
  lemma CompletePromptClickClearsInput(s: Session, req: Request, outcome: Outcome)
    requires req in s.inFlight && req.handler == PromptHandler
    ensures var r := CompletePromptClick(s, req, outcome);
      && (outcome.Replied? ==> r.messages == s.messages + [Message(Assistant, outcome.response)])
      && (outcome.Threw? ==> r.messages == s.messages)
      && r.input == "" && !r.isLoading
      && r.inFlight == s.inFlight - multiset{req}
      && r.isAutonomous == s.isAutonomous && r.isPendingDeactivation == s.isPendingDeactivation
      && r.autonomousRef == s.autonomousRef && r.timers == s.timers
  {
  }

  // ---------------------------------------------------------------------
  // Autonomous mode

  /** Clicking the robot button while the mode is off turns it on,
      announces it, starts loading and sends the kickoff prompt. */
  lemma ToggleStartsKickoff(s: Session)
    requires ToggleEnabled(s) && !s.isAutonomous
    ensures var r := ToggleAutonomousMode(s);
      && r.isAutonomous
      && r.messages == s.messages + [AssistantSays(ActivationNotice)]
      && r.isLoading
      && r.inFlight == s.inFlight + multiset{Request(KickoffHandler, KickoffPrompt, true)}
      && r.timers == s.timers && r.input == s.input
      && r.isPendingDeactivation == s.isPendingDeactivation && r.autonomousRef == s.autonomousRef
  {
  }

  /** Clicking the robot button while the mode is on only clears the flag:
      no message, no request, and the pending timers stay pending. */
  lemma ToggleWhileActiveOnlyClearsFlag(s: Session)
    requires ToggleEnabled(s) && s.isAutonomous
    ensures ToggleAutonomousMode(s) == s.(isAutonomous := false)
  {
  }

  /** A parsed kickoff reply is shown and schedules exactly one first poll;
      an exception shows nothing and schedules nothing. Loading ends and
      the autonomous flag keeps its value either way. */
  lemma CompleteKickoffSchedulesFirstPoll(s: Session, req: Request, outcome: Outcome)
    requires req in s.inFlight && req.handler == KickoffHandler
    ensures var r := CompleteKickoff(s, req, outcome);
      && (outcome.Replied? ==>
            r.messages == s.messages + [Message(Assistant, outcome.response)] && r.timers == s.timers + 1)
      && (outcome.Threw? ==> r.messages == s.messages && r.timers == s.timers)
      && !r.isLoading && r.input == s.input && r.autonomousRef == s.autonomousRef
      && r.inFlight == s.inFlight - multiset{req}
      && r.isAutonomous == s.isAutonomous && r.isPendingDeactivation == s.isPendingDeactivation
  {
  }

  /** A poll timer that fires while the ref is off consumes the timer and
      does nothing else; while it is on, loading starts and one request
      with the continuation prompt is issued. */
  lemma BeginPollGuardedByRef(s: Session)
    requires s.timers > 0
    ensures !s.autonomousRef ==> BeginPoll(s) == s.(timers := s.timers - 1)
    ensures s.autonomousRef ==>
      var r := BeginPoll(s);
      && r.isLoading && r.messages == s.messages && r.timers == s.timers - 1
      && r.inFlight == s.inFlight + multiset{Request(PollHandler, ContinuePrompt, true)}
  {
  }

  /** When a poll settles, a reply is shown only if it parsed and the ref
      is still on; loading ends; the next poll is scheduled exactly when
      the ref is on. */
  lemma CompletePollReschedulesWhileOn(s: Session, req: Request, outcome: Outcome)
    requires req in s.inFlight && req.handler == PollHandler
    ensures var r := CompletePoll(s, req, outcome);
      && (s.autonomousRef && outcome.Replied? ==>
            r.messages == s.messages + [Message(Assistant, outcome.response)])
      && (!s.autonomousRef || outcome.Threw? ==> r.messages == s.messages)
      && !r.isLoading
      && r.timers == (if s.autonomousRef then s.timers + 1 else s.timers)
      && r.input == s.input && r.autonomousRef == s.autonomousRef
      && r.inFlight == s.inFlight - multiset{req}
      && r.isAutonomous == s.isAutonomous && r.isPendingDeactivation == s.isPendingDeactivation
  {
  }

  /** The power button appends exactly one notice. While loading it marks
      the deactivation pending and keeps the mode on; otherwise it turns
      the mode off and leaves the pending mark as it was. */
  lemma HandleDeactivationDefersWhileLoading(s: Session)
    requires StopButtonShown(s)
    ensures var r := HandleDeactivation(s);
      && |r.messages| == |s.messages| + 1
      && (s.isLoading ==>
            r.messages[|s.messages|] == AssistantSays(DeferredStopNotice)
            && r.isPendingDeactivation && r.isAutonomous == s.isAutonomous)
      && (!s.isLoading ==>
            r.messages[|s.messages|] == AssistantSays(StopNotice)
            && !r.isAutonomous && r.isPendingDeactivation == s.isPendingDeactivation)
      && r.isLoading == s.isLoading && r.timers == s.timers && r.inFlight == s.inFlight
  {
  }

  // ---------------------------------------------------------------------
  // The effects

  /** The settled states are exactly the fixpoints of one round of effects. */
  lemma SettledIsFixpoint(s: Session)
    ensures Settled(s) <==> EffectsRound(s) == s
  {
  }

  // ---------------------------------------------------------------------
  // Whole runs

  /** The invariants of every state reachable from mount: the effects have
      settled, a pending deactivation means the mode is on and a request
      is loading, and loading means some request is in flight. */
  predicate Consistent(s: Session) {
    && Settled(s)
    && (s.isPendingDeactivation ==> s.isAutonomous && s.isLoading)
    && (s.isLoading ==> |s.inFlight| > 0)
  }

  lemma InitialConsistent()
    ensures Consistent(Initial())
  {
  }

  /** Every event, with the effects it triggers, keeps the invariants. */
  lemma StepKeepsConsistent(s: Session, e: Event)
    requires Consistent(s) && Enabled(s, e)
    ensures Consistent(Step(s, e))
  {
  }

  /** Any run of events keeps the invariants. */
  lemma {:induction false} RunKeepsConsistent(s: Session, es: seq<Event>, t: Session)
    requires Consistent(s) && Run(s, es) == Some(t)
    ensures Consistent(t)
    decreases |es|
  {
    if es != [] {
      StepKeepsConsistent(s, es[0]);
      RunKeepsConsistent(Step(s, es[0]), es[1..], t);
    }
  }

  /** The log only grows: any run of events keeps the old log as a prefix. */
  lemma {:induction false} RunAppendOnly(s: Session, es: seq<Event>, t: Session)
    requires Run(s, es) == Some(t)
    ensures s.messages <= t.messages
    decreases |es|
  {
    if es != [] {
      RunAppendOnly(Step(s, es[0]), es[1..], t);
    }
  }

  /** Every state reachable from mount still starts with the greeting,
      never has a deactivation pending once loading has ended, and keeps
      the ref in step with the flag. */
  lemma ReachableFromMount(es: seq<Event>, t: Session)
    requires Run(Initial(), es) == Some(t)
    ensures |t.messages| >= 1 && t.messages[0] == AssistantSays(Greeting)
    ensures t.isPendingDeactivation ==> t.isAutonomous && t.isLoading && |t.inFlight| > 0
    ensures t.autonomousRef == t.isAutonomous
  {
    RunAppendOnly(Initial(), es, t);
    InitialConsistent();
    RunKeepsConsistent(Initial(), es, t);
  }

  // ---------------------------------------------------------------------
  // Scenarios

  /** Sending a message that is not blank and getting a reply ends the log
      with the message as typed and the reply, with nothing loading. */
  lemma SendAndReplyScenario(s: Session, reply: string)
    requires SendEnabled(s) && !IsBlank(s.input)
    ensures
      var s1 := Step(s, Submitted);
      var req := Request(SubmitHandler, s.input, false);
      && req in s1.inFlight
      && var s2 := Step(s1, SubmitSettled(req, Replied(Some(reply))));
      && s2.messages == s.messages + [Message(User, Some(s.input)), Message(Assistant, Some(reply))]
      && !s2.isLoading
  {
  }

  /** Turning the mode on, a kickoff reply "Action A", a timer and a poll
      reply "Action B" leave the notice and both actions in order, with
      the mode on throughout and the next poll scheduled. */
  lemma AutonomousScenario(s: Session)
    requires Consistent(s) && !s.isAutonomous && !s.isPendingDeactivation
    ensures
      var s1 := Step(s, RobotClicked);
      var kickoff := Request(KickoffHandler, KickoffPrompt, true);
      && kickoff in s1.inFlight && s1.isAutonomous
      && var s2 := Step(s1, KickoffSettled(kickoff, Replied(Some("Action A"))));
      && s2.isAutonomous && s2.timers == s.timers + 1
      && var s3 := Step(s2, TimerFired);
      var poll := Request(PollHandler, ContinuePrompt, true);
      && poll in s3.inFlight && s3.isAutonomous
      && var s4 := Step(s3, PollSettled(poll, Replied(Some("Action B"))));
      && s4.isAutonomous && s4.timers == s.timers + 1
      && s4.messages == s.messages + [AssistantSays(ActivationNotice), AssistantSays("Action A"), AssistantSays("Action B")]
  {
  }

  /** A kickoff that throws leaves only the activation notice, schedules no
      poll and leaves the mode on. The autonomous panel stays until the
      power button or the robot button is used: the robot button is still
      enabled, and pressing it turns the mode off and brings the input form
      back. */
  lemma FailedKickoffStaysOn(s: Session)
    requires Consistent(s) && !s.isAutonomous && !s.isPendingDeactivation
    ensures
      var s1 := Step(s, RobotClicked);
      var kickoff := Request(KickoffHandler, KickoffPrompt, true);
      && kickoff in s1.inFlight
      && var s2 := Step(s1, KickoffSettled(kickoff, Threw));
      && s2.messages == s.messages + [AssistantSays(ActivationNotice)]
      && s2.timers == s.timers && s2.isAutonomous && !s2.isLoading
      && StopButtonShown(s2) && Enabled(s2, RobotClicked)
      && var s3 := Step(s2, RobotClicked);
      && !s3.isAutonomous && InputShown(s3) && s3.messages == s2.messages
  {
  }

  /** Deactivating while a poll is loading: the deferred notice is shown
      and the mode stays on; when the poll settles its reply is still
      shown, the mode goes off and the pending mark is cleared, yet one
      more timer is scheduled, because the `finally` reads the ref before
      the effects run; that timer then fires without making a request. */
  lemma DeferredStopScenario(s: Session, req: Request, outcome: Outcome)
    requires Consistent(s) && s.isAutonomous && !s.isPendingDeactivation
    requires s.isLoading && req in s.inFlight && req.handler == PollHandler
    ensures
      var s1 := Step(s, StopClicked);
      && s1.messages == s.messages + [AssistantSays(DeferredStopNotice)]
      && s1.isAutonomous && s1.isPendingDeactivation && s1.timers == s.timers
      && var s2 := Step(s1, PollSettled(req, outcome));
      && s2.messages == s1.messages + ReplyMessages(outcome)
      && !s2.isAutonomous && !s2.isPendingDeactivation && !s2.isLoading
      && s2.timers == s.timers + 1
      && Step(s2, TimerFired) == s2.(timers := s.timers)
  {
  }

  /** The template buttons are not disabled while loading, so a template
      click during a manual send puts a second request in flight. */
  lemma TemplateClickOverlapsSend()
    ensures
      var s1 := Step(Step(Initial(), Typed("gm")), Submitted);
      && s1.isLoading && InputShown(s1)
      && |Step(s1, TemplateClicked(PromptTemplates[0])).inFlight| == 2
  {
    assert !IsBlank("gm") by {
      assert "gm"[0] == 'g';
    }
  }
}
