/**
 When a retry that may have been delivered can be sent again. The record it left must be replaced by one that plans a retry;
 this module says in which runs that happens.
 */
module RunRecoveryReplay {
  import opened Common
  import opened RunRecovery
  import opened RunRecoverySafety
  import opened RunRecoveryExits

  predicate HasPlan(s: State) {
    s.budget.Some? && s.budget.value.status == Scheduled
  }

  /** The event does not say that nothing was sent. */
  predicate NoDeferral(s: State, e: Event) {
    e.TransportAnswers? && e.outcome == Deferred ==> !s.pc.Submitting?
  }

  // ---------- when a retry is planned again ----------

  lemma DecisionPlansIff(s: State, mayRecover: bool)
    requires Agrees(s) && !HasPlan(s)
    ensures HasPlan(Decide(s, mayRecover)) <==> MayRetry(s, mayRecover)
  {
    if Records(s) {
      NewRecordIsScheduledIff(s, mayRecover);
    } else {
      OtherDecisionsPlanNothing(s, mayRecover);
    }
  }

  lemma OtherDecisionsPlanNothing(s: State, mayRecover: bool)
    requires Agrees(s) && !HasPlan(s) && !Records(s)
    ensures !HasPlan(Decide(s, mayRecover))
  {
  }

  lemma ReadyPlansNothing(s: State, blocked: Option<Blocked>)
    requires Agrees(s) && !HasPlan(s)
    ensures !HasPlan(Ready(s, blocked))
  {
  }

  lemma SettlingPlansNothing(s: State, outcome: Outcome)
    requires Agrees(s) && !HasPlan(s) && (outcome == Deferred ==> !s.pc.Submitting?)
    ensures !HasPlan(SubmitSettled(s, outcome))
  {
  }

  lemma ResumePlansNothing(s: State)
    requires Agrees(s) && !HasPlan(s)
    ensures !HasPlan(Resume(s))
  {
  }

  lemma BeginLeavesBudget(s: State, mayRecover: bool)
    ensures Begin(s, mayRecover).budget == s.budget
  {
  }

  lemma StepPlansIff(s: State, e: Event)
    requires Agrees(s) && !HasPlan(s) && NoDeferral(s, e)
    ensures HasPlan(Next(s, e)) <==> e.RunDecided? && MayRetry(s, e.mayRecover)
  {
    match e
    case RunDecided(mayRecover) => DecisionPlansIff(s, mayRecover);
    case ReadinessKnown(blocked) => ReadyPlansNothing(s, blocked);
    case TransportAnswers(outcome) => SettlingPlansNothing(s, outcome);
    case RefreshReturns => ResumePlansNothing(s);
    case TaskStarts(mayRecover) => BeginLeavesBudget(s, mayRecover);
    case _ =>
  }

  predicate NeverDeferred(s: State, events: seq<Event>)
    decreases |events|
  {
    events == [] || (NoDeferral(s, events[0]) && NeverDeferred(Next(s, events[0]), events[1..]))
  }

  /** No record on the way plans a retry. */
  predicate NeverPlans(s: State, events: seq<Event>)
    decreases |events|
  {
    !HasPlan(s) && (events == [] || NeverPlans(Next(s, events[0]), events[1..]))
  }

  /** No decision on the way is on a turn that may be retried. */
  predicate NoneMayRetry(s: State, events: seq<Event>)
    decreases |events|
  {
    events == [] || ((events[0].RunDecided? ==> !MayRetry(s, events[0].mayRecover)) && NoneMayRetry(Next(s, events[0]), events[1..]))
  }

  lemma {:induction false} NeverPlansIff(w: World, events: seq<Event>)
    requires Inv(w) && !HasPlan(w.state) && NeverDeferred(w.state, events)
    ensures NeverPlans(w.state, events) <==> NoneMayRetry(w.state, events)
    decreases |events|
  {
    if events != [] {
      StepKeepsInv(w, events[0]);
      StepPlansIff(w.state, events[0]);
      if !HasPlan(Next(w.state, events[0])) {
        NeverPlansIff(Step(w, events[0]), events[1..]);
      }
    }
  }

  lemma {:induction false} NothingIsSentWithoutAPlan(w: World, events: seq<Event>)
    requires Inv(w) && NeverPlans(w.state, events)
    ensures Submissions(w.state, events) == 0
    decreases |events|
  {
    if events != [] {
      StepKeepsInv(w, events[0]);
      NothingIsSentWithoutAPlan(Step(w, events[0]), events[1..]);
    }
  }

  lemma HandedOver(delays: seq<nat>, now: int, session: Option<Session>, before: seq<Event>, blocked: Option<Blocked>) returns (w: World)
    requires Submits(Execute(Start(delays, now, session), before).state, blocked)
    ensures w.state == Next(Execute(Start(delays, now, session), before).state, ReadinessKnown(blocked))
    ensures Inv(w) && !HasPlan(w.state) && w.state.pc.Submitting?
  {
    var before' := Execute(Start(delays, now, session), before);
    RunKeepsInv(Start(delays, now, session), before);
    StepKeepsInv(before', ReadinessKnown(blocked));
    w := Step(before', ReadinessKnown(blocked));
  }

  /** Once a retry was handed to the transport and not deferred, another is planned exactly when a decision comes that is on a
      new failing turn which may be retried; and until then nothing is sent. */
  lemma RetryIsPlannedAgainIff(delays: seq<nat>, now: int, session: Option<Session>, before: seq<Event>, blocked: Option<Blocked>,
                               after: seq<Event>)
    requires var s := Execute(Start(delays, now, session), before).state;
      Submits(s, blocked) && NeverDeferred(Next(s, ReadinessKnown(blocked)), after)
    ensures var sent := Next(Execute(Start(delays, now, session), before).state, ReadinessKnown(blocked));
      && (NeverPlans(sent, after) <==> NoneMayRetry(sent, after))
      && (NoneMayRetry(sent, after) ==> Submissions(sent, after) == 0)
  {
    var w := HandedOver(delays, now, session, before, blocked);
    NeverPlansIff(w, after);
    if NeverPlans(w.state, after) {
      NothingIsSentWithoutAPlan(w, after);
    }
  }

  // ---------- as long as the provider does not answer ----------

  /** The run about to be decided on is the process exit that its observation noted. */
  predicate ByExit(s: State) {
    s.pc.Deciding? && s.pc.observation in s.observations && s.observations[s.pc.observation].processFailure == Some(s.pc.run)
  }

  predicate ExitRefused(s: State, e: Event) {
    e.RunDecided? && ByExit(s) ==> !MayRetry(s, e.mayRecover)
  }

  /** The provider does not report the turn again once the record is no longer that of the turn. */
  predicate NotReportedAgain(s: State, turnId: TurnId, e: Event) {
    e.MonitorAnswers? && Adopts(s, e.native) && FromProvider(s, e.native) ==> s.budget.Some? && s.budget.value.turnId == turnId
  }

  predicate ExitsRefused(s: State, events: seq<Event>)
    decreases |events|
  {
    events == [] || (ExitRefused(s, events[0]) && ExitsRefused(Next(s, events[0]), events[1..]))
  }

  predicate NeverReportedAgain(s: State, turnId: TurnId, events: seq<Event>)
    decreases |events|
  {
    events == [] || (NotReportedAgain(s, turnId, events[0]) && NeverReportedAgain(Next(s, events[0]), turnId, events[1..]))
  }

  /** Observations are numbered in the order they were made. */
  predicate Numbered(s: State) {
    && (s.current.Some? ==> s.current.value < s.created)
    && (s.pc.Reading? || s.pc.Deciding? ==> s.pc.observation < s.created)
  }

  /** A decision that is not on an exit is on the turn whose record stands. */
  predicate OldTurnOrExit(s: State, turnId: TurnId) {
    s.pc.Deciding? && !ByExit(s) ==> FailedTurn(s.pc.run, turnId) && s.budget.Some? && s.budget.value.turnId == turnId
  }

  lemma StepKeepsNumbered(s: State, e: Event)
    requires Numbered(s)
    ensures Numbered(Next(s, e))
  {
    match e
    case TaskStarts(mayRecover) => BeginKeepsNumbered(s, mayRecover);
    case RunDecided(mayRecover) => DecisionIsOver(s, mayRecover);
    case _ =>
  }

  lemma BeginKeepsNumbered(s: State, mayRecover: bool)
    requires Numbered(s)
    ensures Numbered(Begin(s, mayRecover))
  {
  }

  lemma {:induction false} RunKeepsNumbered(w: World, events: seq<Event>)
    requires Numbered(w.state)
    ensures Numbered(Execute(w, events).state)
    decreases |events|
  {
    if events != [] {
      StepKeepsNumbered(w.state, events[0]);
      RunKeepsNumbered(Step(w, events[0]), events[1..]);
    }
  }

  lemma StepKeepsOldTurnOrExit(s: State, turnId: TurnId, e: Event)
    requires Agrees(s) && WatchedOk(s) && Observed(s) && Numbered(s) && OldTurnOrExit(s, turnId)
    requires NoAnswer(s, turnId, e) && NotReportedAgain(s, turnId, e)
    ensures OldTurnOrExit(Next(s, e), turnId)
  {
    match e
    case TaskStarts(mayRecover) => BeginDecidesNothing(s, mayRecover);
    case RunDecided(mayRecover) => DecisionIsOver(s, mayRecover);
    case MonitorAnswers(native) => AdoptionIsOfOldTurnOrExit(s, turnId, native);
    case StopPressed => StopKeepsOldTurnOrExit(s, turnId);
    case WatchPath(path) => WatchKeepsOldTurnOrExit(s, turnId, path);
    case _ =>
  }

  lemma AdoptionIsOfOldTurnOrExit(s: State, turnId: TurnId, native: Option<Run>)
    requires OldTurnOrExit(s, turnId)
    requires NoAnswer(s, turnId, MonitorAnswers(native)) && NotReportedAgain(s, turnId, MonitorAnswers(native))
    ensures OldTurnOrExit(ReadDone(s, native), turnId)
  {
  }

  lemma StopKeepsOldTurnOrExit(s: State, turnId: TurnId)
    requires Agrees(s) && Observed(s) && OldTurnOrExit(s, turnId)
    ensures OldTurnOrExit(Cancel(s), turnId)
  {
  }

  lemma WatchKeepsOldTurnOrExit(s: State, turnId: TurnId, path: string)
    requires WatchedOk(s) && Observed(s) && Numbered(s) && OldTurnOrExit(s, turnId)
    ensures OldTurnOrExit(Watch(s, path), turnId)
  {
  }

  lemma {:induction false} UnansweredDecisions(w: World, turnId: TurnId, events: seq<Event>)
    requires Inv(w) && Observed(w.state) && Numbered(w.state) && OldTurnOrExit(w.state, turnId)
    requires Unanswered(w.state, turnId, events) && NeverReportedAgain(w.state, turnId, events) && ExitsRefused(w.state, events)
    ensures NeverDeferred(w.state, events) && NoneMayRetry(w.state, events)
    decreases |events|
  {
    if events != [] {
      StepKeepsInv(w, events[0]);
      StepKeepsObserved(w.state, events[0]);
      StepKeepsNumbered(w.state, events[0]);
      StepKeepsOldTurnOrExit(w.state, turnId, events[0]);
      UnansweredDecisions(Step(w, events[0]), turnId, events[1..]);
    }
  }

  /** No replay, with process exits: once a retry was handed to the transport, nothing more is sent until an answer arrives, as
      long as no exit that is decided on may be retried, and the provider does not report the old turn again after an exit has
      taken over the record. */
  lemma NoReplayUnlessExitIsRetried(delays: seq<nat>, now: int, session: Option<Session>, before: seq<Event>,
                                    blocked: Option<Blocked>, after: seq<Event>)
    requires Submits(Execute(Start(delays, now, session), before).state, blocked)
    requires var s := Execute(Start(delays, now, session), before).state;
      var sent, turnId := Next(s, ReadinessKnown(blocked)), Visible(s).value.turnId;
      Unanswered(sent, turnId, after) && NeverReportedAgain(sent, turnId, after) && ExitsRefused(sent, after)
    ensures Submissions(Next(Execute(Start(delays, now, session), before).state, ReadinessKnown(blocked)), after) == 0
  {
    var s := Execute(Start(delays, now, session), before).state;
    RunKeepsNumbered(Start(delays, now, session), before);
    StepKeepsNumbered(s, ReadinessKnown(blocked));
    var w := HandedOver(delays, now, session, before, blocked);
    UnansweredDecisions(w, Visible(s).value.turnId, after);
    NeverPlansIff(w, after);
    NothingIsSentWithoutAPlan(w, after);
  }

  /** Why the second condition: with an exit's stopped record, a new report of a failing turn, be it the old one, starts an
      episode of its own with all its attempts. */
  lemma ReportAfterExitIff(s: State, mayRecover: bool)
    requires Records(s) && Budget(s).Some? && Budget(s).value.status == Stopped
    ensures var run, t := s.pc.run, Decide(s, mayRecover);
      && t.budget.Some? && t.budget.value.attempts == 0
      && (t.budget.value.status == Scheduled
          <==> && mayRecover && run.timestamp.ms.Some? && run.timestamp.ms.value >= s.observations[s.pc.observation].attachedAt
               && !CancelledRun(s, run) && Retryable(run.code) && |s.delays| > 0 && Within(s, run.timestamp))
  {
    NewRecordIsScheduledIff(s, mayRecover);
  }
}
