/** What every run of the recovery protocol keeps: a bounded budget, nothing sent after Stop, no replay of a delivery. */
module RunRecoverySafety {
  import opened Common
  import opened RunRecovery

  /** What a log of the run would show, beside the state.
      `sent`: submissions of the current episode that were not deferred. An episode starts with a record at no attempts.
      `origin`: the failing run the stored record was written for.
      `unsettled`: the turn of a submission that may have been delivered and that no report has answered yet. */
  datatype History = History(sent: nat, origin: Option<Run>, unsettled: Option<TurnId>)
  datatype World = World(state: State, history: History)

  predicate FailedTurn(run: Run, turnId: TurnId) {
    run.status == Failed && run.turnId == turnId
  }

  function Observe(h: History, s: State, e: Event): History {
    match e
    case ReadinessKnown(blocked) =>
      if !Submits(s, blocked) then h
      else h.(sent := h.sent + 1, unsettled := Some(Visible(s).value.turnId))
    case Confirmed(run) => if Confirms(s, run) then h.(unsettled := None) else h
    case TransportAnswers(outcome) =>
      if s.pc.Submitting? && outcome == Deferred && h.sent > 0 then h.(sent := h.sent - 1, unsettled := None) else h
    case MonitorAnswers(native) =>
      var next := ReadDone(s, native).pc;
      if s.pc.Reading? && next.Deciding? && h.unsettled.Some? && !FailedTurn(next.run, h.unsettled.value)
      then h.(unsettled := None) else h
    case RunDecided(_) =>
      if !Records(s) then h
      else h.(origin := Some(s.pc.run), sent := if CarriedAttempts(Budget(s), s.pc.run) == 0 then 0 else h.sent)
    case _ => h
  }

  function Step(w: World, e: Event): World {
    World(Next(w.state, e), Observe(w.history, w.state, e))
  }

  function Execute(w: World, events: seq<Event>): World
    decreases |events|
  {
    if events == [] then w else Execute(Step(w, events[0]), events[1..])
  }

  function Start(delays: seq<nat>, now: int, session: Option<Session>): World {
    World(Initial(delays, now, session), History(0, None, None))
  }

  // ---------- the invariant, piece by piece ----------

  predicate RecordOk(f: Failure, delays: seq<nat>) {
    && f.attempts <= f.maxAttempts == |delays|
    && (f.status == Scheduled ==> f.attempts < |delays| && f.nextRetryAt.Some? && f.nextRetryAt.value.ms.Some?)
    && (f.status != Scheduled ==> f.nextRetryAt.None?)
    && (f.status == Retrying ==> f.attempts >= 1 && f.retrySubmittedAt.Some?)
  }

  /** The visible failure is never anything but the stored one. */
  predicate Agrees(s: State) {
    Visible(s).Some? ==> s.budget == Visible(s)
  }

  predicate WatchedOk(s: State) {
    s.current.Some? ==> s.current.value in s.observations
  }

  predicate SubmittingOk(s: State, sent: nat) {
    s.pc.Submitting? ==>
      && s.pc.before.status == Scheduled && s.pc.before.attempts < |s.delays| && sent >= 1
      && (s.budget.Some? ==> s.budget.value.turnId == s.pc.before.turnId
                             && (s.budget.value.status == Stopped
                                 || (s.budget.value.status == Retrying && s.budget.value.attempts == s.pc.before.attempts + 1)))
  }

  /** Readiness is checked only once the planned time has come. */
  predicate DueOk(s: State) {
    s.pc.CheckingReady? && s.budget.Some? && s.budget.value.status == Scheduled ==>
      s.budget.value.nextRetryAt.Some? && s.budget.value.nextRetryAt.value.ms.Some? && s.budget.value.nextRetryAt.value.ms.value <= s.now
  }

  predicate Bounded(s: State, sent: nat) {
    && sent <= |s.delays|
    && (s.budget.Some? ==> RecordOk(s.budget.value, s.delays) && sent <= s.budget.value.attempts)
  }

  /** The record belongs to the failing run that caused it; one that may still send is retryable and not covered by Stop. */
  predicate OriginOk(s: State, origin: Option<Run>) {
    s.budget.Some? ==>
      && origin.Some? && FailedTurn(origin.value, s.budget.value.turnId) && origin.value.timestamp == s.budget.value.failedAt
      && (s.budget.value.status != Stopped ==> Retryable(origin.value.code) && !CancelledRun(s, origin.value))
  }

  predicate UnsettledOk(s: State, unsettled: Option<TurnId>) {
    unsettled.Some? ==>
      && s.budget.Some? && s.budget.value.turnId == unsettled.value && s.budget.value.status != Scheduled
      && (s.pc.Deciding? ==> FailedTurn(s.pc.run, unsettled.value))
  }

  predicate Inv(w: World) {
    && Agrees(w.state) && WatchedOk(w.state) && DueOk(w.state)
    && SubmittingOk(w.state, w.history.sent)
    && Bounded(w.state, w.history.sent)
    && OriginOk(w.state, w.history.origin)
    && UnsettledOk(w.state, w.history.unsettled)
  }

  // ---------- how a stretch changes the durable part ----------

  predicate Undecided(pc: Pc) {
    !pc.Submitting? && !pc.Deciding? && !pc.CheckingReady?
  }

  /** `t` differs from `s` only in what is kept in memory. */
  predicate Quiet(s: State, t: State) {
    && t.delays == s.delays && t.session == s.session && t.budget == s.budget && t.cancellation == s.cancellation
    && t.now == s.now && WatchedOk(t)
  }

  lemma QuietKeeps(w: World, t: State)
    requires Inv(w) && Quiet(w.state, t) && (t.pc == w.state.pc || Undecided(t.pc))
    ensures Inv(World(t, w.history))
  {
  }

  lemma TimersAreQuiet(s: State, o: nat, timer: Timer)
    requires WatchedOk(s)
    ensures Quiet(s, ClearTimer(s, o)) && ClearTimer(s, o).pc == s.pc
    ensures Quiet(s, SetTimeout(s, o, timer)) && SetTimeout(s, o, timer).pc == s.pc
  {
  }

  /** Writing a record that is still owed to the same failing run. */
  lemma RewriteKeeps(w: World, t: State, f: Failure)
    requires Inv(w) && Quiet(w.state, t) && Undecided(t.pc)
    requires w.state.budget.Some? && f.turnId == w.state.budget.value.turnId && f.failedAt == w.state.budget.value.failedAt
    requires f.status == Stopped || w.state.budget.value.status != Stopped
    requires f.status == Scheduled ==> w.history.unsettled.None?
    requires RecordOk(f, t.delays) && w.history.sent <= f.attempts
    ensures Inv(World(Save(t, Some(f)), w.history))
  {
  }

  lemma ClearKeeps(w: World, t: State)
    requires Inv(w) && Quiet(w.state, t) && Undecided(t.pc) && w.history.unsettled.None?
    ensures Inv(World(Save(t, None), w.history))
  {
  }

  lemma ScheduleKeeps(w: World, o: nat, f: Failure)
    requires Inv(w) && Undecided(w.state.pc) && w.state.budget == Some(f) && f.status == Scheduled
    ensures Inv(World(Schedule(w.state, o, f), w.history))
  {
    var cleared := ClearTimer(w.state, o);
    TimersAreQuiet(w.state, o, RetryTimer);
    TimersAreQuiet(cleared, o, RetryTimer);
    QuietKeeps(w, SetTimeout(cleared, o, RetryTimer));
    RewriteKeeps(w, cleared, Stop(f, WindowExpired));
  }

  lemma BeginIsQuiet(s: State, mayRecover: bool)
    requires WatchedOk(s) && s.pc == Idle
    ensures Quiet(s, Begin(s, mayRecover)) && Undecided(Begin(s, mayRecover).pc)
  {
    if s.queue != [] && s.queue[0].ExitTask? {
      ProcessExitIsQuiet(s.(queue := s.queue[1..]), mayRecover);
    }
  }

  lemma ProcessExitIsQuiet(s: State, mayRecover: bool)
    requires WatchedOk(s) && s.pc == Idle
    ensures Quiet(s, StartProcessExit(s, mayRecover)) && Undecided(StartProcessExit(s, mayRecover).pc)
  {
  }

  lemma NotFailedKeeps(w: World, run: Run)
    requires Inv(w) && Undecided(w.state.pc) && w.history.unsettled.None? && w.state.session.Some?
    ensures Inv(World(NotFailed(w.state, run), w.history))
  {
    ClearKeeps(w, w.state);
  }

  lemma RecordForIsOk(s: State, attachedAt: int, run: Run, mayRecover: bool)
    requires s.budget.Some? ==> RecordOk(s.budget.value, s.delays)
    requires Agrees(s)
    ensures RecordOk(RecordFor(s, attachedAt, run, mayRecover), s.delays)
    ensures RecordFor(s, attachedAt, run, mayRecover).status != Stopped ==> Retryable(run.code) && !CancelledRun(s, run)
  {
  }

  lemma NewFailureKeeps(w: World, o: nat, run: Run, mayRecover: bool)
    requires Inv(w) && Undecided(w.state.pc) && w.history.unsettled.None? && run.status == Failed && o in w.state.observations
    ensures Inv(World(NewFailure(w.state, o, run, mayRecover),
                      w.history.(origin := Some(run), sent := if CarriedAttempts(Budget(w.state), run) == 0 then 0 else w.history.sent)))
  {
    var s := w.state;
    var failure := RecordFor(s, s.observations[o].attachedAt, run, mayRecover);
    var h := w.history.(origin := Some(run), sent := if CarriedAttempts(Budget(s), run) == 0 then 0 else w.history.sent);
    RecordForIsOk(s, s.observations[o].attachedAt, run, mayRecover);
    var saved := World(Save(s, Some(failure)), h);
    assert Inv(saved);
    if failure.status == Scheduled {
      ScheduleKeeps(saved, o, failure);
    }
  }

  // ---------- every event keeps the invariant ----------

  lemma TickKeeps(w: World, ms: nat)
    requires Inv(w)
    ensures Inv(Step(w, Tick(ms)))
  {
  }

  lemma SessionWriteKeeps(w: World, session: Option<Session>)
    requires Inv(w)
    ensures Inv(Step(w, SessionWrite(session)))
  {
  }

  lemma WatchIsQuiet(s: State, path: string)
    requires WatchedOk(s)
    ensures Quiet(s, Watch(s, path)) && Watch(s, path).pc == s.pc
  {
  }

  lemma WatchPathKeeps(w: World, path: string)
    requires Inv(w)
    ensures Inv(Step(w, WatchPath(path)))
  {
    WatchIsQuiet(w.state, path);
    QuietKeeps(w, Watch(w.state, path));
  }

  lemma RunChangedKeeps(w: World)
    requires Inv(w)
    ensures Inv(Step(w, RunChanged))
  {
  }

  lemma UnwatchKeeps(w: World)
    requires Inv(w)
    ensures Inv(Step(w, Unwatch))
  {
  }

  lemma CancelIsAStop(s: State)
    requires WatchedOk(s) && Agrees(s)
    ensures var t := Cancel(s);
      && t.delays == s.delays && t.pc == s.pc && WatchedOk(t) && Agrees(t)
      && (t.budget.Some? <==> s.budget.Some?)
      && (s.budget.Some? ==> t.budget.value == if s.budget.value.status == Stopped then s.budget.value
                                              else Stop(s.budget.value, CancelledByUser))
  {
  }

  lemma StopPressedKeeps(w: World)
    requires Inv(w)
    ensures Inv(Step(w, StopPressed))
  {
    CancelIsAStop(w.state);
  }

  lemma ConfirmedKeeps(w: World, run: Run)
    requires Inv(w)
    ensures Inv(Step(w, Confirmed(run)))
  {
  }

  lemma TimeoutKeeps(w: World, o: nat, timer: Timer)
    requires Inv(w)
    ensures Inv(Step(w, Timeout(o, timer)))
  {
  }

  lemma ProcessEndedKeeps(w: World)
    requires Inv(w)
    ensures Inv(Step(w, ProcessEnded))
  {
  }

  lemma TaskStartsKeeps(w: World, mayRecover: bool)
    requires Inv(w)
    ensures Inv(Step(w, TaskStarts(mayRecover)))
  {
    if w.state.pc == Idle {
      BeginIsQuiet(w.state, mayRecover);
      QuietKeeps(w, Begin(w.state, mayRecover));
    }
  }

  lemma MonitorAnswersKeeps(w: World, native: Option<Run>)
    requires Inv(w)
    ensures Inv(Step(w, MonitorAnswers(native)))
  {
  }

  /** The state after the timer is cleared, where the decision starts. */
  predicate AtDecision(w: World, w2: World) {
    && Inv(w) && w.state.pc.Deciding? && w.state.session.Some? && w.state.session.value.shouldRestore && w.state.session.value.bound
    && w2 == World(ClearTimer(w.state.(pc := AfterRefresh(w.state.pc.after)), w.state.pc.observation), w.history)
    && Inv(w2) && Undecided(w2.state.pc) && Budget(w2.state) == Budget(w.state)
  }

  lemma DecisionKeeps(w: World, w2: World, mayRecover: bool)
    requires AtDecision(w, w2)
    ensures Inv(World(Decide(w.state, mayRecover), Observe(w.history, w.state, RunDecided(mayRecover))))
  {
    var run, prior := w.state.pc.run, Budget(w.state);
    if run.status != Failed {
      NotFailedKeeps(w2, run);
      assert Decide(w.state, mayRecover) == NotFailed(w2.state, run);
    } else if prior.Some? && prior.value.turnId == run.turnId {
      SameTurnKeeps(w, w2, mayRecover);
    } else {
      NewTurnKeeps(w, w2, mayRecover);
    }
  }

  lemma SameTurnKeeps(w: World, w2: World, mayRecover: bool)
    requires AtDecision(w, w2) && FailedTurn(w.state.pc.run, w.state.pc.run.turnId)
    requires Budget(w.state).Some? && Budget(w.state).value.turnId == w.state.pc.run.turnId
    ensures Inv(World(Decide(w.state, mayRecover), w.history))
  {
    var prior := Budget(w.state).value;
    if prior.status == Scheduled {
      ScheduleKeeps(w2, w.state.pc.observation, prior);
    } else if w.state.pc.initial && prior.status == Retrying {
      RewriteKeeps(w2, w2.state, prior.(status := Stopped, stoppedReason := Some(UncertainOutcome)));
    }
  }

  lemma NewTurnKeeps(w: World, w2: World, mayRecover: bool)
    requires AtDecision(w, w2) && FailedTurn(w.state.pc.run, w.state.pc.run.turnId)
    requires Budget(w.state).Some? ==> Budget(w.state).value.turnId != w.state.pc.run.turnId
    ensures Inv(World(Decide(w.state, mayRecover), Observe(w.history, w.state, RunDecided(mayRecover))))
  {
    var o, run := w.state.pc.observation, w.state.pc.run;
    assert Decide(w.state, mayRecover) == NewFailure(w2.state, o, run, mayRecover);
    if o in w2.state.observations {
      NewFailureKeeps(w2, o, run, mayRecover);
    }
  }

  lemma RunDecidedKeeps(w: World, mayRecover: bool)
    requires Inv(w)
    ensures Inv(Step(w, RunDecided(mayRecover)))
  {
    var s := w.state;
    if s.pc.Deciding? {
      var o, run := s.pc.observation, s.pc.run;
      var s1 := s.(pc := AfterRefresh(s.pc.after));
      QuietKeeps(w, s1);
      if s.session.Some? && s.session.value.shouldRestore && s.session.value.bound {
        TimersAreQuiet(s1, o, RetryTimer);
        var w2 := World(ClearTimer(s1, o), w.history);
        QuietKeeps(w, w2.state);
        DecisionKeeps(w, w2, mayRecover);
      }
    }
  }

  lemma RefreshReturnsKeeps(w: World)
    requires Inv(w)
    ensures Inv(Step(w, RefreshReturns))
  {
    var s := w.state;
    QuietKeeps(w, s.(pc := Idle));
    if s.pc.Resuming? && s.pc.after.ThenRetry? {
    } else if s.pc.Resuming? && s.pc.after.ThenAck? && Visible(s).Some? && Visible(s).value.status == Retrying {
      RewriteKeeps(w, s.(pc := Idle), Visible(s).value.(status := Stopped, stoppedReason := Some(NotAcknowledged)));
    }
  }

  lemma AttemptKeeps(w: World)
    requires Inv(w) && w.state.pc.CheckingReady? && Visible(w.state).Some? && Visible(w.state).value.status == Scheduled
    ensures var s, f := w.state, Visible(w.state).value;
      Inv(World(Save(s, Some(AttemptOf(s, f))).(pc := Submitting(s.pc.observation, s.pc.generation, f)),
                w.history.(sent := w.history.sent + 1, unsettled := Some(f.turnId))))
  {
  }

  lemma BlockedKeeps(w: World, blocked: Option<Blocked>)
    requires Inv(w) && w.state.pc.CheckingReady? && !Submits(w.state, blocked)
    requires IsCurrent(w.state, w.state.pc.observation, w.state.pc.generation)
    requires Visible(w.state).Some? && Visible(w.state).value.status == Scheduled
    ensures Inv(World(Ready(w.state, blocked), w.history))
  {
    var s, f := w.state, Visible(w.state).value;
    var s1 := s.(pc := Idle);
    if f.code == ProcessExited && blocked == Some(NotRestored) && Within(s, f.failedAt) {
      if f.attempts + 1 >= |s.delays| {
        RewriteKeeps(w, s1, Stop(f, RelaunchFailed).(attempts := f.attempts + 1));
      } else {
        var next := f.(attempts := f.attempts + 1, status := Scheduled,
                       nextRetryAt := Some(Iso(s.now + s.delays[f.attempts + 1])));
        RewriteKeeps(w, s1, next);
        ScheduleKeeps(World(Save(s1, Some(next)), w.history), s.pc.observation, next);
      }
    } else {
      RewriteKeeps(w, s1, Stop(f, if blocked.Some? then BlockedBecause(blocked.value) else WindowExpired));
    }
  }

  lemma ReadinessKnownKeeps(w: World, blocked: Option<Blocked>)
    requires Inv(w)
    ensures Inv(Step(w, ReadinessKnown(blocked)))
  {
    var s := w.state;
    QuietKeeps(w, s.(pc := Idle));
    if s.pc.CheckingReady? && IsCurrent(s, s.pc.observation, s.pc.generation) && Visible(s).Some? && Visible(s).value.status == Scheduled {
      if Submits(s, blocked) {
        AttemptKeeps(w);
      } else {
        BlockedKeeps(w, blocked);
      }
    }
  }

  lemma DeferralKeeps(w: World, h: History)
    requires Inv(w) && w.state.pc.Submitting? && h == w.history.(sent := w.history.sent - 1, unsettled := None)
    ensures Inv(World(SubmitSettled(w.state, Deferred), h))
  {
    var s, before, failure := w.state, w.state.pc.before, Visible(w.state);
    var idle := World(s.(pc := Idle), h);
    assert Inv(idle);
    if failure.Some? && failure.value.status == Retrying && IsCurrent(s, s.pc.observation, s.pc.generation) && |s.delays| > 0 {
      var step := if before.attempts < |s.delays| - 1 then before.attempts else |s.delays| - 1;
      var next := failure.value.(attempts := before.attempts, status := Scheduled, retrySubmittedAt := None,
                                 nextRetryAt := Some(Iso(s.now + s.delays[step])));
      var rewritten := World(Save(idle.state, Some(next)), h);
      assert Inv(rewritten) by { RewriteKeeps(idle, idle.state, next); }
      assert Inv(World(Schedule(rewritten.state, s.pc.observation, next), h)) by {
        ScheduleKeeps(rewritten, s.pc.observation, next);
      }
      assert SubmitSettled(s, Deferred) == Schedule(rewritten.state, s.pc.observation, next);
    }
  }

  lemma TransportAnswersKeeps(w: World, outcome: Outcome)
    requires Inv(w)
    ensures Inv(Step(w, TransportAnswers(outcome)))
  {
    var s, h := w.state, Observe(w.history, w.state, TransportAnswers(outcome));
    if s.pc.Submitting? {
      var s1, failure := s.(pc := Idle), Visible(s);
      assert Inv(World(s1, h));
      match outcome
      case Submitted =>
        TimersAreQuiet(s1, s.pc.observation, AckTimer);
        QuietKeeps(w, SetTimeout(s1, s.pc.observation, AckTimer));
      case Deferred => DeferralKeeps(w, h);
      case Rejected =>
        if failure.Some? && failure.value.status != Stopped { RewriteKeeps(w, s1, Stop(failure.value, SubmitRejected)); }
      case Uncertain =>
        if failure.Some? && failure.value.status != Stopped {
          RewriteKeeps(w, s1, failure.value.(status := Stopped, stoppedReason := Some(SubmitUncertain)));
        }
    }
  }

  lemma KilledKeeps(w: World)
    requires Inv(w)
    ensures Inv(Step(w, Killed))
  {
  }

  lemma StepKeepsInv(w: World, e: Event)
    requires Inv(w)
    ensures Inv(Step(w, e))
  {
    match e
    case Tick(ms) => TickKeeps(w, ms);
    case SessionWrite(session) => SessionWriteKeeps(w, session);
    case WatchPath(path) => WatchPathKeeps(w, path);
    case RunChanged => RunChangedKeeps(w);
    case Unwatch => UnwatchKeeps(w);
    case StopPressed => StopPressedKeeps(w);
    case Confirmed(run) => ConfirmedKeeps(w, run);
    case Timeout(o, timer) => TimeoutKeeps(w, o, timer);
    case ProcessEnded => ProcessEndedKeeps(w);
    case TaskStarts(mayRecover) => TaskStartsKeeps(w, mayRecover);
    case MonitorAnswers(native) => MonitorAnswersKeeps(w, native);
    case RunDecided(mayRecover) => RunDecidedKeeps(w, mayRecover);
    case RefreshReturns => RefreshReturnsKeeps(w);
    case ReadinessKnown(blocked) => ReadinessKnownKeeps(w, blocked);
    case TransportAnswers(outcome) => TransportAnswersKeeps(w, outcome);
    case Killed => KilledKeeps(w);
  }

  // ---------- whole runs ----------

  lemma {:induction false} RunKeepsInv(w: World, events: seq<Event>)
    requires Inv(w)
    ensures Inv(Execute(w, events)) && Execute(w, events).state.delays == w.state.delays
    decreases |events|
  {
    if events != [] {
      StepKeepsInv(w, events[0]);
      DelaysAreFixed(w.state, events[0]);
      RunKeepsInv(Step(w, events[0]), events[1..]);
    }
  }

  lemma DelaysAreFixed(s: State, e: Event)
    ensures Next(s, e).delays == s.delays
  {
    match e
    case TaskStarts(mayRecover) => BeginDelays(s, mayRecover);
    case RunDecided(mayRecover) => DecisionDelays(s, mayRecover);
    case _ =>
  }

  lemma BeginDelays(s: State, mayRecover: bool)
    ensures Begin(s, mayRecover).delays == s.delays
  {
  }

  lemma DecisionDelays(s: State, mayRecover: bool)
    ensures Decide(s, mayRecover).delays == s.delays
  {
  }

  lemma {:induction false} ExecuteIsAfter(w: World, events: seq<Event>)
    ensures Execute(w, events).state == After(w.state, events)
    decreases |events|
  {
    if events != [] {
      ExecuteIsAfter(Step(w, events[0]), events[1..]);
    }
  }

  /** What is about to be decided on is still observed. */
  predicate Observed(s: State) {
    s.pc.Deciding? ==> s.pc.observation in s.observations
  }

  lemma StepKeepsObserved(s: State, e: Event)
    requires Observed(s)
    ensures Observed(Next(s, e))
  {
    match e
    case TaskStarts(mayRecover) => BeginDecidesNothing(s, mayRecover);
    case RunDecided(mayRecover) => DecisionIsOver(s, mayRecover);
    case _ =>
  }

  lemma BeginDecidesNothing(s: State, mayRecover: bool)
    ensures Begin(s, mayRecover) == s || !Begin(s, mayRecover).pc.Deciding?
  {
  }

  lemma DecisionIsOver(s: State, mayRecover: bool)
    ensures SamePlace(s, Decide(s, mayRecover).(pc := s.pc))
    ensures !Decide(s, mayRecover).pc.Deciding? && (s.pc.Deciding? ==> !Decide(s, mayRecover).pc.Reading?)
  {
    if s.pc.Deciding? {
      var s2 := ClearTimer(s.(pc := AfterRefresh(s.pc.after)), s.pc.observation);
      assert s2.pc == AfterRefresh(s.pc.after) && SamePlace(s2, s.(pc := s2.pc));
      if Budget(s2).Some? {
        ScheduleLeavesPlace(s2, s.pc.observation, Budget(s2).value);
      }
      NewFailureLeavesPlace(s2, s.pc.observation, s.pc.run, mayRecover);
      if s2.session.Some? {
        NotFailedLeavesPlace(s2, s.pc.run);
      }
    }
  }

  predicate SamePlace(s: State, t: State) {
    t.pc == s.pc && t.current == s.current && t.created == s.created && t.cancellation == s.cancellation && t.now == s.now
  }

  lemma ScheduleLeavesPlace(s: State, o: nat, failure: Failure)
    ensures SamePlace(s, Schedule(s, o, failure))
  {
  }

  lemma NewFailureLeavesPlace(s: State, o: nat, run: Run, mayRecover: bool)
    ensures SamePlace(s, NewFailure(s, o, run, mayRecover))
  {
  }

  lemma NotFailedLeavesPlace(s: State, run: Run)
    requires s.session.Some?
    ensures SamePlace(s, NotFailed(s, run))
  {
  }

  /** Whatever happens, in whatever order, the durable record stays within its budget, and so do the submissions of the
      episode: a retry that is planned has an attempt left and a time, one that is over or under way has no time. */
  lemma BudgetIsBounded(delays: seq<nat>, now: int, session: Option<Session>, events: seq<Event>)
    ensures var w := Execute(Start(delays, now, session), events);
      && w.history.sent <= |delays|
      && (Budget(w.state).Some? ==> RecordOk(Budget(w.state).value, delays) && w.history.sent <= Budget(w.state).value.attempts)
  {
    RunKeepsInv(Start(delays, now, session), events);
  }

  /** What holds at the moment any recovery prompt is sent, in any run. */
  lemma EverySubmissionIsJustified(delays: seq<nat>, now: int, session: Option<Session>, events: seq<Event>, blocked: Option<Blocked>)
    requires Submits(Execute(Start(delays, now, session), events).state, blocked)
    ensures var w := Execute(Start(delays, now, session), events);
      var failure, origin := Visible(w.state).value, w.history.origin;
      && origin.Some? && FailedTurn(origin.value, failure.turnId) && origin.value.timestamp == failure.failedAt
      && Retryable(origin.value.code)
      && !CancelledRun(w.state, origin.value)
      && w.state.now - failure.failedAt.ms.value <= 600000
      && w.history.sent <= failure.attempts < |delays|
      && w.history.unsettled.None?
      && failure.nextRetryAt.Some? && failure.nextRetryAt.value.ms.Some? && failure.nextRetryAt.value.ms.value <= w.state.now
  {
    RunKeepsInv(Start(delays, now, session), events);
  }

  function Submissions(s: State, events: seq<Event>): nat
    decreases |events|
  {
    if events == [] then 0
    else (if events[0].ReadinessKnown? && Submits(s, events[0].blocked) then 1 else 0) + Submissions(Next(s, events[0]), events[1..])
  }

  /** Does this answer of the monitor make the observation adopt a run? */
  predicate Adopts(s: State, native: Option<Run>) {
    s.pc.Reading? && ReadDone(s, native).pc.Deciding?
  }

  /** The run adopted is what the provider reported; otherwise it is the process exit that the server noted itself. */
  predicate FromProvider(s: State, native: Option<Run>) {
    s.pc.Reading? && s.pc.observation in s.observations && StandingExit(s.observations[s.pc.observation], native).None?
  }

  /** The event is not an answer to a submission for `turnId`: not a deferral, not a provider report of another turn or of a
      turn that did not fail. A completion is confirmed while its run is being adopted, as the server's only caller does
      (apps/server/src/sessions/session-manager.ts:504, 955-967); the confirmation of an older run would be an answer too. */
  predicate NoAnswer(s: State, turnId: TurnId, e: Event) {
    match e
    case TransportAnswers(outcome) => !(s.pc.Submitting? && outcome == Deferred)
    case MonitorAnswers(native) => Adopts(s, native) && FromProvider(s, native) ==> FailedTurn(ReadDone(s, native).pc.run, turnId)
    case Confirmed(run) => Confirms(s, run) ==> s.pc.Deciding? && s.pc.run == run
    case _ => true
  }

  predicate Unanswered(s: State, turnId: TurnId, events: seq<Event>)
    decreases |events|
  {
    events == [] || (NoAnswer(s, turnId, events[0]) && Unanswered(Next(s, events[0]), turnId, events[1..]))
  }

  /** The event does not adopt a process exit as a turn of its own. */
  predicate NoExit(s: State, turnId: TurnId, e: Event) {
    e.MonitorAnswers? && Adopts(s, e.native) && !FromProvider(s, e.native) ==> FailedTurn(ReadDone(s, e.native).pc.run, turnId)
  }

  predicate NoExitAdopted(s: State, turnId: TurnId, events: seq<Event>)
    decreases |events|
  {
    events == [] || (NoExit(s, turnId, events[0]) && NoExitAdopted(Next(s, events[0]), turnId, events[1..]))
  }

  lemma {:induction false} UnsettledBlocksSubmission(w: World, turnId: TurnId, events: seq<Event>)
    requires Inv(w) && w.history.unsettled == Some(turnId)
    requires Unanswered(w.state, turnId, events) && NoExitAdopted(w.state, turnId, events)
    ensures Submissions(w.state, events) == 0
    decreases |events|
  {
    if events != [] {
      StepKeepsInv(w, events[0]);
      StaysUnsettled(w, turnId, events[0]);
      UnsettledBlocksSubmission(Step(w, events[0]), turnId, events[1..]);
    }
  }

  lemma StaysUnsettled(w: World, turnId: TurnId, e: Event)
    requires Inv(w) && w.history.unsettled == Some(turnId) && NoAnswer(w.state, turnId, e) && NoExit(w.state, turnId, e)
    ensures Observe(w.history, w.state, e).unsettled == Some(turnId)
    ensures e.ReadinessKnown? ==> !Submits(w.state, e.blocked)
  {
  }

  /** No replay: once a retry was handed to the transport, nothing more is sent until an answer arrives, through timers,
      restarts and new observations, unless the exit of a provider process is adopted. RunRecoveryExits shows what an exit
      does, RunRecoveryReplay which exits are harmless. */
  lemma NoReplay(delays: seq<nat>, now: int, session: Option<Session>, before: seq<Event>, blocked: Option<Blocked>, after: seq<Event>)
    requires var s := Execute(Start(delays, now, session), before).state;
      && Submits(s, blocked)
      && Unanswered(Next(s, ReadinessKnown(blocked)), Visible(s).value.turnId, after)
      && NoExitAdopted(Next(s, ReadinessKnown(blocked)), Visible(s).value.turnId, after)
    ensures Submissions(Next(Execute(Start(delays, now, session), before).state, ReadinessKnown(blocked)), after) == 0
  {
    var w := Execute(Start(delays, now, session), before);
    RunKeepsInv(Start(delays, now, session), before);
    StepKeepsInv(w, ReadinessKnown(blocked));
    UnsettledBlocksSubmission(Step(w, ReadinessKnown(blocked)), Visible(w.state).value.turnId, after);
  }

  /** No record is written for a failing run that the last Stop does not cover. */
  predicate OnlyCoveredFailures(s: State, events: seq<Event>)
    decreases |events|
  {
    events == [] || ((events[0].RunDecided? && Records(s) ==> CancelledRun(s, s.pc.run))
                     && OnlyCoveredFailures(Next(s, events[0]), events[1..]))
  }

  predicate Halted(s: State) {
    Agrees(s) && WatchedOk(s) && (s.budget.Some? ==> s.budget.value.status == Stopped)
  }

  lemma StaysHalted(s: State, e: Event)
    requires Halted(s) && (e.RunDecided? && Records(s) ==> CancelledRun(s, s.pc.run))
    ensures Halted(Next(s, e))
    ensures e.ReadinessKnown? ==> !Submits(s, e.blocked)
  {
    match e
    case WatchPath(path) => WatchIsQuiet(s, path);
    case StopPressed => CancelIsAStop(s);
    case TaskStarts(mayRecover) => if s.pc == Idle { BeginIsQuiet(s, mayRecover); }
    case RunDecided(mayRecover) => DecisionStaysHalted(s, mayRecover);
    case TransportAnswers(outcome) => SettlingStaysHalted(s, outcome);
    case RefreshReturns => ResumeIsQuiet(s);
    case _ =>
  }

  lemma ResumeIsQuiet(s: State)
    requires Halted(s)
    ensures Quiet(s, Resume(s))
  {
  }

  lemma SettlingStaysHalted(s: State, outcome: Outcome)
    requires Halted(s)
    ensures Halted(SubmitSettled(s, outcome))
  {
  }

  lemma DecisionStaysHalted(s: State, mayRecover: bool)
    requires Halted(s) && (Records(s) ==> CancelledRun(s, s.pc.run))
    ensures Halted(Decide(s, mayRecover))
  {
  }

  lemma {:induction false} HaltedSendsNothing(s: State, events: seq<Event>)
    requires Halted(s) && OnlyCoveredFailures(s, events)
    ensures Submissions(s, events) == 0
    decreases |events|
  {
    if events != [] {
      StaysHalted(s, events[0]);
      HaltedSendsNothing(Next(s, events[0]), events[1..]);
    }
  }

  /** Nothing is sent after Stop, whatever timer was queued and whatever was in flight, until a run fails that Stop does
      not cover: one it did not name and that started later. */
  lemma NothingIsSentAfterStop(delays: seq<nat>, now: int, session: Option<Session>, before: seq<Event>, after: seq<Event>)
    requires OnlyCoveredFailures(Cancel(Execute(Start(delays, now, session), before).state), after)
    ensures Submissions(Cancel(Execute(Start(delays, now, session), before).state), after) == 0
  {
    RunKeepsInv(Start(delays, now, session), before);
    CancelIsAStop(Execute(Start(delays, now, session), before).state);
    HaltedSendsNothing(Cancel(Execute(Start(delays, now, session), before).state), after);
  }

  /** A deferred submission gives back what the attempt took: while the window is open the record is the one from before
      it, waiting one more step of the backoff. */
  lemma DeferralUndoesTheAttempt(s: State, blocked: Option<Blocked>, elapsed: nat)
    requires Submits(s, blocked) && RecordOk(Visible(s).value, s.delays)
    ensures var failure := Visible(s).value;
      var later := Next(Ready(s, blocked), Tick(elapsed));
      var next := failure.(retrySubmittedAt := None, nextRetryAt := Some(Iso(later.now + s.delays[failure.attempts])));
      Visible(SubmitSettled(later, Deferred)) == Some(if Within(later, failure.failedAt) then next else Stop(next, WindowExpired))
  {
  }
}
