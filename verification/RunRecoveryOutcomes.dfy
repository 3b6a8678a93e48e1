/** What becomes of a failure record: when it is cleared, kept, stopped or rearmed, through the events of the protocol. */
module RunRecoveryOutcomes {
  import opened Common
  import opened RunRecovery
  import opened RunRecoverySafety
  import opened RunRecoveryExits

  predicate NothingRecorded(s: State) {
    Budget(s).None? && Visible(s).None?
  }

  predicate SameRecord(s: State, t: State) {
    t.budget == s.budget && t.session == s.session
  }

  // ---------- a run that did not fail ----------

  /** Claude's turn is over, but the session has not recorded a response as late as that. */
  predicate Unconfirmed(s: State, run: Run) {
    && s.session.Some? && s.session.value.claude && run.status == Completed
    && (s.session.value.lastResponseAt.None? || s.session.value.lastResponseAt.value.text < run.timestamp.text)
  }

  /** A run that is over clears the record and its notice, unless it is Claude's and its response is not recorded yet: then both
      stay. */
  lemma FinishedRunClears(s: State, mayRecover: bool)
    requires s.pc.Deciding? && Restorable(s)
    requires s.pc.run.status == Completed || s.pc.run.status == RunStatus.Cancelled
    ensures var t := Next(s, RunDecided(mayRecover));
      if Unconfirmed(s, s.pc.run) then SameRecord(s, t) else NothingRecorded(t)
  {
  }

  /** The run has shown output since the retry was submitted, or since the failure when no time of submission is known. */
  predicate Progressed(failure: Failure, run: Run) {
    var since := if failure.retrySubmittedAt.Some? then failure.retrySubmittedAt.value else failure.failedAt;
    run.progressAt.Some? && run.progressAt.value.text >= since.text
  }

  /** Some other turn's retry waits for the output of this run. */
  predicate AwaitsOutput(s: State) {
    && s.pc.Deciding? && Budget(s).Some? && Budget(s).value.status == Retrying && Budget(s).value.turnId != s.pc.run.turnId
    && !Progressed(Budget(s).value, s.pc.run)
  }

  /** A run under way clears the record too; but for a retry that is not yet answered by output it clears only the notice, and
      the attempts stay counted. */
  lemma RunningRunClears(s: State, mayRecover: bool)
    requires s.pc.Deciding? && Restorable(s) && s.pc.run.status == Running
    ensures var t := Next(s, RunDecided(mayRecover));
      if AwaitsOutput(s) then Visible(t).None? && Budget(t) == Budget(s) else NothingRecorded(t)
  {
  }

  /** Nothing is written for a session that is gone, unbound or not to be restored. */
  lemma UnboundSessionsKeepTheirRecord(s: State, mayRecover: bool)
    requires !Restorable(s)
    ensures SameRecord(s, Next(s, RunDecided(mayRecover)))
  {
  }

  // ---------- a run that failed ----------

  predicate HasTimer(s: State, o: nat, timer: Timer) {
    o in s.observations && timer in s.observations[o].pending
  }

  predicate Fits(s: State, f: Failure) {
    && f.failedAt.ms.Some? && s.now - f.failedAt.ms.value <= 600000
    && f.nextRetryAt.Some? && f.nextRetryAt.value.ms.Some? && f.attempts < |s.delays|
  }

  lemma SchedulingArmsOrStops(s: State, o: nat, f: Failure)
    requires o in s.observations
    ensures var t := Schedule(s, o, f);
      if Fits(s, f) then SameRecord(s, t) && HasTimer(t, o, RetryTimer)
      else t.budget == Some(Stop(f, WindowExpired)) && (s.session.Some? ==> Visible(t) == t.budget)
  {
  }

  /** The failed turn has a record already: a planned retry is armed again, or stopped when its window or its attempts are used
      up. */
  lemma PlannedTurnAgain(s: State, mayRecover: bool)
    requires s.pc.Deciding? && Restorable(s) && s.pc.observation in s.observations
    requires Budget(s).Some? && FailedTurn(s.pc.run, Budget(s).value.turnId) && Budget(s).value.status == Scheduled
    ensures var t := Next(s, RunDecided(mayRecover));
      if Fits(s, Budget(s).value) then SameRecord(s, t) && HasTimer(t, s.pc.observation, RetryTimer)
      else Budget(t) == Some(Stop(Budget(s).value, WindowExpired))
  {
    SchedulingArmsOrStops(ClearTimer(s.(pc := AfterRefresh(s.pc.after)), s.pc.observation), s.pc.observation, Budget(s).value);
  }

  /** A retry under way whose turn is found failed by a new observation is of uncertain outcome; otherwise, and when it was
      stopped, the record stays. */
  lemma RetriedTurnAgain(s: State, mayRecover: bool)
    requires s.pc.Deciding? && Restorable(s)
    requires Budget(s).Some? && FailedTurn(s.pc.run, Budget(s).value.turnId) && Budget(s).value.status != Scheduled
    ensures var t, prior := Next(s, RunDecided(mayRecover)), Budget(s).value;
      if s.pc.initial && prior.status == Retrying
      then Budget(t) == Some(prior.(status := Stopped, stoppedReason := Some(UncertainOutcome)))
      else SameRecord(s, t)
  {
  }

  /** A newly failed turn gets a record of its own. It starts with no attempts, unless it answers a retry without any output;
      when a retry is planned, it is due after the backoff of that many attempts, and its timer is armed. */
  lemma NewFailureIsRecorded(s: State, mayRecover: bool)
    requires Records(s)
    ensures var t := Next(s, RunDecided(mayRecover));
      var f, run := Budget(t), s.pc.run;
      && f.Some? && Visible(t) == f && f.value.turnId == run.turnId && f.value.failedAt == run.timestamp && f.value.maxAttempts == |s.delays|
      && f.value.retrySubmittedAt.None?
      && f.value.attempts == (if Budget(s).Some? && Budget(s).value.status == Retrying && !ProgressedAfter(Budget(s).value, run)
                              then Budget(s).value.attempts else 0)
      && (f.value.status == Scheduled ==>
            && f.value.attempts < |s.delays| && f.value.nextRetryAt == Some(Iso(s.now + s.delays[f.value.attempts]))
            && HasTimer(t, s.pc.observation, RetryTimer))
      && (f.value.status != Scheduled ==> f.value.status == Stopped && f.value.nextRetryAt.None? && f.value.stoppedReason.Some?)
  {
    var s2 := ClearTimer(s.(pc := AfterRefresh(s.pc.after)), s.pc.observation);
    var o, run := s.pc.observation, s.pc.run;
    var record := RecordFor(s2, s2.observations[o].attachedAt, run, mayRecover);
    RecordIs(s2, s2.observations[o].attachedAt, run, mayRecover);
    assert CarriedAttempts(Budget(s2), run) == CarriedAttempts(Budget(s), run);
    SchedulingArmsOrStops(Save(s2, Some(record)), o, record);
    DecisionRecords(s, mayRecover);
  }

  lemma DecisionRecords(s: State, mayRecover: bool)
    requires Records(s)
    ensures Decide(s, mayRecover) == NewFailure(ClearTimer(s.(pc := AfterRefresh(s.pc.after)), s.pc.observation), s.pc.observation, s.pc.run, mayRecover)
  {
  }

  lemma RecordIs(s: State, attachedAt: int, run: Run, mayRecover: bool)
    ensures var f := RecordFor(s, attachedAt, run, mayRecover);
      && f.turnId == run.turnId && f.failedAt == run.timestamp && f.maxAttempts == |s.delays| && f.retrySubmittedAt.None?
      && f.attempts == CarriedAttempts(Budget(s), run)
      && (if f.status == Scheduled then f.attempts < |s.delays| && f.nextRetryAt == Some(Iso(s.now + s.delays[f.attempts]))
          else f.status == Stopped && f.nextRetryAt.None? && f.stoppedReason.Some?)
  {
  }

  predicate ProgressedAfter(failure: Failure, run: Run) {
    && run.progressAt.Some?
    && run.progressAt.value.text >= (if failure.retrySubmittedAt.Some? then failure.retrySubmittedAt.value else run.timestamp).text
  }

  // ---------- a submission that returned ----------

  /** Delivered: the record stays, and after thirty seconds it is asked whether the provider took it up. Refused or uncertain:
      the record is stopped, with the attempt counted. */
  lemma SubmissionSettles(s: State, outcome: Outcome)
    requires s.pc.Submitting? && Visible(s).Some? && Visible(s).value.status != Stopped && outcome != Deferred
    ensures var t, f := Next(s, TransportAnswers(outcome)), Visible(s).value;
      && t.pc == Idle
      && (outcome == Submitted ==> SameRecord(s, t))
      && (outcome == Submitted && f.status == Retrying && IsCurrent(s, s.pc.observation, s.pc.generation)
          ==> HasTimer(t, s.pc.observation, AckTimer))
      && (outcome == Rejected ==> Budget(t) == Some(Stop(f, SubmitRejected)) && Visible(t) == Budget(t))
      && (outcome == Uncertain ==> Budget(t) == Some(f.(status := Stopped, stoppedReason := Some(SubmitUncertain))) && Visible(t) == Budget(t))
  {
  }

  /** What Stop has stopped, no answer of the transport moves. */
  lemma StoppedStaysStopped(s: State, outcome: Outcome)
    requires s.pc.Submitting? && (Visible(s).Some? ==> Visible(s).value.status == Stopped)
    ensures SameRecord(s, Next(s, TransportAnswers(outcome)))
  {
  }

  /** The check for an acknowledgement stops the retry exactly when the provider still shows the turn that failed. */
  lemma UnacknowledgedRetryStops(s: State)
    requires s.pc.Resuming? && s.pc.after.ThenAck?
    ensures var t, o, f := Next(s, RefreshReturns), s.pc.after.observation, Visible(s);
      var same := f.Some? && f.value.status == Retrying && o in s.observations && s.observations[o].run.Some?
                  && FailedTurn(s.observations[o].run.value, f.value.turnId);
      && t.pc == Idle
      && (if same then Visible(t) == Some(f.value.(status := Stopped, stoppedReason := Some(NotAcknowledged))) && Budget(t) == Visible(t)
          else SameRecord(s, t))
  {
  }

  // ---------- a retry that is not possible ----------

  /** Something stands against the retry when it is due: the record is stopped, unless a process that exited could not be
      restored and an attempt is left for the next try. */
  lemma BlockedRetry(s: State, why: Blocked)
    requires s.pc.CheckingReady? && IsCurrent(s, s.pc.observation, s.pc.generation)
    requires Visible(s).Some? && Visible(s).value.status == Scheduled
    ensures var t, f := Next(s, ReadinessKnown(Some(why))), Visible(s).value;
      var again := f.code == ProcessExited && why == NotRestored && f.failedAt.ms.Some? && s.now - f.failedAt.ms.value <= 600000;
      && t.pc == Idle && Visible(t).Some? && Budget(t) == Visible(t)
      && Visible(t).value.attempts == f.attempts + (if again then 1 else 0)
      && (if again && f.attempts + 1 < |s.delays|
          then Visible(t).value.status == Scheduled && Visible(t).value.nextRetryAt == Some(Iso(s.now + s.delays[f.attempts + 1]))
               && HasTimer(t, s.pc.observation, RetryTimer)
          else Visible(t).value.status == Stopped && Visible(t).value.nextRetryAt.None?
               && Visible(t).value.stoppedReason == Some(if again then RelaunchFailed else BlockedBecause(why)))
  {
  }

  // ---------- what is adopted ----------

  /** What the monitor's answer is worth: an exit noted before counts until a run with a later timestamp is reported; the run is
      adopted exactly when the observation is still the one that asked and has not seen this yet. */
  lemma AnswerIsAdoptedIff(s: State, native: Option<Run>)
    requires s.pc.Reading? && s.pc.observation in s.observations
    ensures var t, seen := Next(s, MonitorAnswers(native)), s.observations[s.pc.observation];
      var exit := seen.processFailure;
      var newer := exit.Some? && native.Some? && native.value.timestamp.text > exit.value.timestamp.text;
      var run := if exit.Some? && !newer then exit else native;
      && SameRecord(s, t)
      && (t.pc.Deciding? <==> && run.Some? && s.current == Some(s.pc.observation) && seen.generation == s.pc.generation
                              && seen.seen != Some(KeyOf(run.value)))
      && (t.pc.Deciding? ==> t.pc.run == run.value && t.pc.observation == s.pc.observation
                             && t.observations[s.pc.observation].run == run)
      && (newer ==> t.observations[s.pc.observation].processFailure.None?)
  {
  }

  /** A completion is confirmed exactly when it is that of the run observed, the session is bound and restorable, and has recorded
      its response; the record is then gone, and otherwise nothing changes. */
  lemma ConfirmationClearsIff(s: State, run: Run)
    ensures var t := Next(s, Confirmed(run));
      var observed := if s.current.Some? && s.current.value in s.observations then s.observations[s.current.value].run else None;
      if && run.status == Completed && observed.Some? && observed.value.turnId == run.turnId && observed.value.timestamp == run.timestamp
         && Restorable(s) && s.session.value.lastResponseAt.Some? && s.session.value.lastResponseAt.value.text >= run.timestamp.text
      then NothingRecorded(t) else t == s
  {
  }

  // ---------- what is watched ----------

  /** Watching a path makes the current observation one of that path. A path that is watched already changes nothing; otherwise
      what it says is to be read, and an exit that stands, in the observation or in the record, is carried along. */
  lemma WatchObserves(s: State, path: string)
    requires WatchedOk(s)
    ensures var t := Next(s, WatchPath(path));
      && t.current.Some? && t.current.value in t.observations && t.observations[t.current.value].path == path
      && SameRecord(s, t)
      && (s.current.Some? && s.observations[s.current.value].path == path ==> t == s)
      && (!(s.current.Some? && s.observations[s.current.value].path == path) ==>
            && t.queue == s.queue + [RefreshTask]
            && t.observations[t.current.value].processFailure
               == if s.current.Some? && s.observations[s.current.value].processFailure.Some? then s.observations[s.current.value].processFailure
                  else if Budget(s).Some? && Budget(s).value.code == ProcessExited
                  then Some(ProcessFailure(Budget(s).value.turnId, Budget(s).value.failedAt)) else None)
  {
  }

  /** The exit of a process is noted unless recovery is not allowed or was stopped: the current observation then has a failing run
      of that process, from now or from when it was first noted, and is to be read. */
  lemma ExitIsNoted(s: State, mayRecover: bool)
    requires s.pc == Idle && s.queue != [] && s.queue[0] == ExitTask && WatchedOk(s)
    ensures var t := Next(s, TaskStarts(mayRecover));
      && t.queue == s.queue[1..] && SameRecord(s, t)
      && (if mayRecover && s.session.Some? && !(Budget(s).Some? && Budget(s).value.status == Stopped)
          then && t.current.Some? && t.current.value in t.observations
               && t.pc == Reading(ThenNothing, t.current.value, t.observations[t.current.value].generation)
               && t.observations[t.current.value].processFailure
                  == (if s.current.Some? && s.observations[s.current.value].processFailure.Some?
                      then s.observations[s.current.value].processFailure
                      else Some(Run(Process(s.session.value.process), Iso(s.now), Some(Iso(s.now)), None, Failed, Some(ProcessExited))))
          else t == s.(queue := s.queue[1..]))
  {
  }

  /** A crash leaves what is durable, and nothing else; other writes to the session row leave the failure in it. */
  lemma DurableStays(s: State, session: Option<Session>)
    ensures var t := Next(s, Killed);
      && SameRecord(s, t) && t.cancellation == s.cancellation && t.observations == map[] && t.current.None? && t.queue == [] && t.pc == Idle
    ensures var t := Next(s, SessionWrite(session));
      && t.budget == s.budget && t.session.Some? == session.Some? && (session.Some? ==> Visible(t) == Visible(s))
  {
  }

  // ---------- what Stop covers ----------

  function StartedAt(run: Run): Stamp {
    if run.startedAt.Some? then run.startedAt.value else run.timestamp
  }

  /** Stop covers the turn that is observed and every turn that had started by then. */
  lemma StopCoversIff(s: State, run: Run)
    ensures var observed := if s.current.Some? && s.current.value in s.observations then s.observations[s.current.value].run else None;
      CancelledRun(Next(s, StopPressed), run)
      <==> (observed.Some? && observed.value.turnId == run.turnId) || (StartedAt(run).ms.Some? && StartedAt(run).ms.value <= s.now)
  {
  }

  /** Something was stopped at this time or later. */
  predicate StoppedSince(s: State, at: int) {
    s.now >= at && s.cancellation.Some? && s.cancellation.value.at >= at
  }

  lemma StepStaysStoppedSince(s: State, e: Event, at: int)
    requires StoppedSince(s, at)
    ensures StoppedSince(Next(s, e), at)
  {
    match e
    case TaskStarts(mayRecover) => BeginLeavesTheStop(s, mayRecover);
    case RunDecided(mayRecover) => DecisionIsOver(s, mayRecover);
    case _ =>
  }

  lemma BeginLeavesTheStop(s: State, mayRecover: bool)
    ensures Begin(s, mayRecover).cancellation == s.cancellation && Begin(s, mayRecover).now == s.now
  {
  }

  lemma {:induction false} StaysStoppedSince(s: State, events: seq<Event>, at: int)
    requires StoppedSince(s, at)
    ensures StoppedSince(After(s, events), at)
    decreases |events|
  {
    if events != [] {
      StepStaysStoppedSince(s, events[0], at);
      StaysStoppedSince(Next(s, events[0]), events[1..], at);
    }
  }

  /** However long after Stop, and whatever happened since: when a run fails that had started by then, no retry of it is
      planned. */
  lemma StoppedRunIsNeverPlanned(s: State, after: seq<Event>, mayRecover: bool)
    requires var t := After(Next(s, StopPressed), after);
      Records(t) && StartedAt(t.pc.run).ms.Some? && StartedAt(t.pc.run).ms.value <= s.now
    ensures var u := Next(After(Next(s, StopPressed), after), RunDecided(mayRecover));
      u.budget.Some? && u.budget.value.status == Stopped && u.budget.value.nextRetryAt.None?
  {
    var t := After(Next(s, StopPressed), after);
    StaysStoppedSince(Next(s, StopPressed), after, s.now);
    NewRecordIsScheduledIff(t, mayRecover);
    NewFailureIsRecorded(t, mayRecover);
  }

  // ---------- the queue of the lock ----------

  /** A timer that fires queues its task, once; a timer that is not pending does nothing. */
  lemma TimerQueuesItsTask(s: State, o: nat, timer: Timer)
    ensures var t := Next(s, Timeout(o, timer));
      if HasTimer(s, o, timer)
      then && t.queue == s.queue + [if timer == RetryTimer then RetryTask(o) else AckTask(o)] && SameRecord(s, t)
           && t.observations[o].pending == s.observations[o].pending - multiset{timer}
      else t == s
  {
  }

  /** A task that has the lock has the provider read first, and says what is to follow; a task of an observation that was replaced
      does nothing. */
  lemma TaskReadsFirst(s: State, mayRecover: bool)
    requires s.pc == Idle && s.queue != [] && s.queue[0] != ExitTask && WatchedOk(s)
    ensures var t, task := Next(s, TaskStarts(mayRecover)), s.queue[0];
      && t.queue == s.queue[1..] && SameRecord(s, t)
      && (if task == RefreshTask
          then (if s.current.Some? then t.pc.Reading? && t.pc.after == ThenNothing && t.pc.observation == s.current.value else t.pc == Idle)
          else if s.current == Some(task.observation)
          then t.pc.Reading? && t.pc.observation == task.observation
               && t.pc.after == (if task.RetryTask? then ThenRetry(task.observation, s.observations[task.observation].generation)
                                 else ThenAck(task.observation))
          else t.pc == Idle)
  {
  }

  // ---------- the guard of a retry, spelled out ----------

  /** A new record plans a retry exactly when recovery is allowed, the failure is an overload, an outage or an exit, Stop does not
      cover it, an attempt is left, it is at most ten minutes old, and it ended under this observation or after the retry it
      answers was submitted. */
  lemma RetryIsPlannedIff(s: State, mayRecover: bool)
    requires Records(s)
    ensures var run, prior := s.pc.run, Budget(s);
      var answers := prior.Some? && prior.value.status == Retrying && prior.value.retrySubmittedAt.Some?
                     && prior.value.retrySubmittedAt.value.ms.Some? && run.timestamp.ms.Some?
                     && run.timestamp.ms.value >= prior.value.retrySubmittedAt.value.ms.value && s.now - run.timestamp.ms.value < 600000;
      var f := Budget(Next(s, RunDecided(mayRecover)));
      f.Some?
      && (f.value.status == Scheduled
          <==> && mayRecover && (run.code == Some(ServerOverloaded) || run.code == Some(ServerUnavailable) || run.code == Some(ProcessExited))
               && !CancelledRun(s, run) && f.value.attempts < |s.delays|
               && run.timestamp.ms.Some? && s.now - run.timestamp.ms.value <= 600000
               && (run.timestamp.ms.value >= s.observations[s.pc.observation].attachedAt || answers))
  {
    NewRecordIsScheduledIff(s, mayRecover);
    NewFailureIsRecorded(s, mayRecover);
  }

  /** With the delays the server uses, the three retries of an episode are planned for 15 seconds, 45 seconds and two minutes after
      the failure was recorded. */
  lemma DefaultBackoff(s: State, mayRecover: bool)
    requires Records(s) && s.delays == RUN_RETRY_DELAYS_MS
    ensures var f := Budget(Next(s, RunDecided(mayRecover)));
      f.Some? && (f.value.status == Scheduled ==>
        && f.value.attempts <= 2
        && f.value.nextRetryAt == Some(Iso(s.now + if f.value.attempts == 0 then 15000 else if f.value.attempts == 1 then 45000 else 120000)))
  {
    NewFailureIsRecorded(s, mayRecover);
  }
}
