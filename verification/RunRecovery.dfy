/**
 Retrying a run that a transient provider failure ended (apps/server/src/sessions/run-recovery.ts), for one session. The
 source keys every map and every database value by session id and no path touches another session's entries.

 Each stretch of code between two awaits is one transition. `pc` is what the holder of the session's lock is waiting for;
 everything that needs no lock may happen in between.
 */
module RunRecovery {
  import opened Common

  const RECOVERY_MAX_AGE_MS := 600000
  const RUN_RETRY_DELAYS_MS: seq<nat> := [15000, 45000, 120000]

  /** A timestamp string: its place in text order, and what Date.parse makes of it (None for NaN). */
  datatype Stamp = Stamp(text: int, ms: Option<int>)

  function Iso(t: int): Stamp {
    Stamp(t, Some(t))
  }

  datatype TurnId = Native(id: string) | Process(process: string)
  datatype Code = ServerOverloaded | ServerUnavailable | ProcessExited | Unknown | OtherCode(name: string)
  datatype RunStatus = Running | Completed | Failed | Cancelled
  datatype Run = Run(turnId: TurnId, timestamp: Stamp, startedAt: Option<Stamp>, progressAt: Option<Stamp>, status: RunStatus,
                     code: Option<Code>)

  datatype Status = Scheduled | Retrying | Stopped
  datatype Reason = CancelledByUser | UncertainOutcome | Disabled | CancelledForTurn | NotFresh | NotRetryable | LimitReached
                  | WindowExpired | RelaunchFailed | BlockedBecause(why: Blocked) | NotAcknowledged | SubmitRejected | SubmitUncertain
  datatype Blocked = NotRestored | OtherBlock(why: string)
  datatype Failure = Failure(turnId: TurnId, failedAt: Stamp, code: Code, attempts: nat, maxAttempts: nat, status: Status,
                             nextRetryAt: Option<Stamp>, retrySubmittedAt: Option<Stamp>, stoppedReason: Option<Reason>)

  /** The columns of the session row that recovery reads; `runFailure` is the one only recovery writes. */
  datatype Session = Session(shouldRestore: bool, bound: bool, claude: bool, lastResponseAt: Option<Stamp>, process: string,
                             runFailure: Option<Failure>)
  datatype Cancellation = Cancellation(turnId: Option<TurnId>, at: int)

  datatype Seen = Seen(turnId: TurnId, status: RunStatus, timestamp: Stamp, progressAt: Option<Stamp>)
  datatype Timer = RetryTimer | AckTimer

  /** `timer` is the handle the source keeps; `pending` are the callbacks still to come. Storing a handle over another one
      leaves the other callback pending with nothing left to clear it. */
  datatype Observation = Observation(path: string, attachedAt: int, seen: Option<Seen>, timer: Option<Timer>,
                                     pending: multiset<Timer>, generation: nat, run: Option<Run>, processFailure: Option<Run>)

  /** Work queued on the session's lock. An observation object is named by the number of the one it was when created. */
  datatype Task = RefreshTask | RetryTask(observation: nat) | AckTask(observation: nat) | ExitTask

  /** What runs once an inner `await this.refresh(id)` is over. */
  datatype Then = ThenNothing | ThenRetry(observation: nat, generation: nat) | ThenAck(observation: nat)

  datatype Pc = Idle
              | Reading(after: Then, observation: nat, generation: nat)
              | Deciding(after: Then, observation: nat, run: Run, initial: bool)
              | Resuming(after: Then)
              | CheckingReady(observation: nat, generation: nat)
              | Submitting(observation: nat, generation: nat, before: Failure)

  datatype Outcome = Submitted | Deferred | Rejected | Uncertain

  /** `session`, `budget` and `cancellation` are durable; the observations, the queue and `pc` die with the process. */
  datatype State = State(delays: seq<nat>, now: int, session: Option<Session>, budget: Option<Failure>,
                         cancellation: Option<Cancellation>, observations: map<nat, Observation>, current: Option<nat>,
                         created: nat, queue: seq<Task>, pc: Pc)

  // ---------- private helpers of the source ----------

  function Visible(s: State): Option<Failure> {
    if s.session.Some? then s.session.value.runFailure else None
  }

  /** `budget(id)`: the visible failure, else the stored one. */
  function Budget(s: State): Option<Failure> {
    if Visible(s).Some? then Visible(s) else s.budget
  }

  function ShowFailure(session: Option<Session>, failure: Option<Failure>): Option<Session> {
    if session.Some? then Some(session.value.(runFailure := failure)) else None
  }

  function Save(s: State, failure: Option<Failure>): State {
    s.(budget := failure, session := ShowFailure(s.session, failure))
  }

  function Stop(f: Failure, reason: Reason): Failure {
    f.(status := Stopped, nextRetryAt := None, stoppedReason := Some(reason))
  }

  function Cleared(observation: Observation): Observation {
    if observation.timer.None? then observation
    else observation.(timer := None, pending := observation.pending - multiset{observation.timer.value})
  }

  function ClearTimer(s: State, o: nat): State {
    if o in s.observations then s.(observations := s.observations[o := Cleared(s.observations[o])]) else s
  }

  function SetTimeout(s: State, o: nat, timer: Timer): State {
    if o !in s.observations then s
    else
      var observation := s.observations[o];
      s.(observations := s.observations[o := observation.(timer := Some(timer), pending := observation.pending + multiset{timer})])
  }

  predicate Within(s: State, failedAt: Stamp) {
    failedAt.ms.Some? && s.now - failedAt.ms.value <= RECOVERY_MAX_AGE_MS
  }

  function Schedule(s: State, o: nat, f: Failure): State {
    if !Within(s, f.failedAt) || f.nextRetryAt.None? || f.nextRetryAt.value.ms.None? || f.attempts >= |s.delays|
    then Save(ClearTimer(s, o), Some(Stop(f, WindowExpired)))
    else SetTimeout(ClearTimer(s, o), o, RetryTimer)
  }

  predicate IsCurrent(s: State, o: nat, generation: nat) {
    s.current == Some(o) && o in s.observations && s.observations[o].generation == generation
  }

  function AfterRefresh(after: Then): Pc {
    if after.ThenNothing? then Idle else Resuming(after)
  }

  /** A Stop covers the turn it named and every turn that had started by then. */
  predicate Covers(c: Cancellation, turnId: TurnId, start: Stamp) {
    c.turnId == Some(turnId) || (start.ms.Some? && start.ms.value <= c.at)
  }

  function StartOf(run: Run): Stamp {
    if run.startedAt.Some? then run.startedAt.value else run.timestamp
  }

  predicate CancelledRun(s: State, run: Run) {
    s.cancellation.Some? && Covers(s.cancellation.value, run.turnId, StartOf(run))
  }

  predicate Retryable(code: Option<Code>) {
    code == Some(ServerOverloaded) || code == Some(ServerUnavailable) || code == Some(ProcessExited)
  }

  function NewObservation(path: string, now: int, processFailure: Option<Run>): Observation {
    Observation(path, now, None, None, multiset{}, 0, None, processFailure)
  }

  function ProcessFailure(turnId: TurnId, at: Stamp): Run {
    Run(turnId, at, Some(at), None, Failed, Some(ProcessExited))
  }

  // ---------- what needs no lock ----------

  function Watch(s: State, path: string): State {
    if s.current.Some? && s.current.value in s.observations && s.observations[s.current.value].path == path then s
    else if s.current.Some? && s.current.value in s.observations && s.observations[s.current.value].processFailure.Some?
    then Changed(s.(observations := s.observations[s.current.value := s.observations[s.current.value].(path := path)]))
    else
      var prior := Budget(s);
      var carried := if prior.Some? && prior.value.code == ProcessExited
                     then Some(ProcessFailure(prior.value.turnId, prior.value.failedAt)) else None;
      Changed(Attach(StopWatching(s), NewObservation(path, s.now, carried)))
  }

  function Attach(s: State, observation: Observation): State {
    s.(observations := s.observations[s.created := observation], current := Some(s.created), created := s.created + 1)
  }

  function Changed(s: State): State {
    if s.current.None? then s else s.(queue := s.queue + [RefreshTask])
  }

  function StopWatching(s: State): State {
    if s.current.None? then s else ClearTimer(s, s.current.value).(current := None)
  }

  function Superseded(observation: Observation): Observation {
    Cleared(observation.(generation := observation.generation + 1))
  }

  function Cancel(s: State): State {
    var o := s.current;
    var watched := o.Some? && o.value in s.observations;
    var s1 := if watched
              then s.(observations := s.observations[o.value := Superseded(s.observations[o.value])])
              else s;
    var run := if watched then s.observations[o.value].run else None;
    var s2 := s1.(cancellation := Some(Cancellation(if run.Some? then Some(run.value.turnId) else None, s.now)));
    var failure := Budget(s2);
    if failure.Some? && failure.value.status != Stopped then Save(s2, Some(Stop(failure.value, CancelledByUser))) else s2
  }

  /** The completed run is the one observed, and the session has recorded its response. */
  predicate Confirms(s: State, run: Run) {
    && run.status == Completed && s.current.Some? && s.current.value in s.observations
    && s.observations[s.current.value].run.Some?
    && s.observations[s.current.value].run.value.turnId == run.turnId
    && s.observations[s.current.value].run.value.timestamp == run.timestamp
    && s.session.Some? && s.session.value.shouldRestore && s.session.value.bound
    && s.session.value.lastResponseAt.Some? && s.session.value.lastResponseAt.value.text >= run.timestamp.text
  }

  function ConfirmCompletion(s: State, run: Run): State {
    if !Confirms(s, run) then s
    else
      var s1 := ClearTimer(s, s.current.value);
      if Budget(s1).Some? then Save(s1, None) else s1
  }

  /** Other parts of the server rewrite the session row; they leave the failure column alone. */
  function SessionChanged(s: State, session: Option<Session>): State {
    s.(session := ShowFailure(session, Visible(s)))
  }

  /** A pending callback runs: it forgets the stored handle, whichever timer that was, and queues for the lock. */
  function TimerFires(s: State, o: nat, timer: Timer): State {
    if o !in s.observations || timer !in s.observations[o].pending then s
    else
      var observation := s.observations[o];
      s.(observations := s.observations[o := observation.(timer := None, pending := observation.pending - multiset{timer})],
         queue := s.queue + [if timer.RetryTimer? then RetryTask(o) else AckTask(o)])
  }

  /** The process ends: whatever was only in memory is gone. */
  function Crash(s: State): State {
    s.(observations := map[], current := None, queue := [], pc := Idle)
  }

  // ---------- what the lock holder does ----------

  /** The first queued task starts once the lock is free. */
  function Begin(s: State, mayRecover: bool): State {
    if s.pc != Idle || s.queue == [] then s
    else
      var s1 := s.(queue := s.queue[1..]);
      match s.queue[0]
      case RefreshTask => StartRefresh(s1, ThenNothing)
      case RetryTask(o) => if s.current == Some(o) && o in s.observations then StartRefresh(s1, ThenRetry(o, s.observations[o].generation)) else s1
      case AckTask(o) => if s.current == Some(o) then StartRefresh(s1, ThenAck(o)) else s1
      case ExitTask => StartProcessExit(s1, mayRecover)
  }

  function StartRefresh(s: State, after: Then): State {
    if s.current.None? || s.current.value !in s.observations then s.(pc := AfterRefresh(after))
    else s.(pc := Reading(after, s.current.value, s.observations[s.current.value].generation))
  }

  function StartProcessExit(s: State, mayRecover: bool): State {
    if s.session.None? || !mayRecover then s
    else if Budget(s).Some? && Budget(s).value.status == Stopped then s
    else
      var s1 := if s.current.None? then Attach(s, NewObservation("", s.now, None)) else s;
      var o := s1.current.value;
      if o !in s1.observations then s1
      else
        var failed := if s1.observations[o].processFailure.Some? then s1.observations[o].processFailure
                      else Some(ProcessFailure(Process(s.session.value.process), Iso(s.now)));
        StartRefresh(s1.(observations := s1.observations[o := s1.observations[o].(processFailure := failed)]), ThenNothing)
  }

  /** The process exit that still stands when the monitor answers; a newer provider run replaces it. */
  function StandingExit(observation: Observation, native: Option<Run>): Option<Run> {
    if observation.processFailure.Some? && native.Some?
       && native.value.timestamp.text > observation.processFailure.value.timestamp.text
    then None else observation.processFailure
  }

  /** `monitor.read` has answered: adopt the run unless the observation moved on or nothing is new. */
  function ReadDone(s: State, native: Option<Run>): State {
    if !s.pc.Reading? || s.pc.observation !in s.observations then s
    else
      var o := s.pc.observation;
      var observation := s.observations[o];
      var processFailure := StandingExit(observation, native);
      var run := if processFailure.Some? then processFailure else native;
      var s1 := s.(observations := s.observations[o := observation.(processFailure := processFailure)]);
      if !IsCurrent(s, o, s.pc.generation) || run.None? || observation.seen == Some(KeyOf(run.value))
      then s1.(pc := AfterRefresh(s.pc.after))
      else s1.(observations := s1.observations[o := s1.observations[o].(seen := Some(KeyOf(run.value)), run := run)],
               pc := Deciding(s.pc.after, o, run.value, observation.seen.None?))
  }

  function KeyOf(run: Run): Seen {
    Seen(run.turnId, run.status, run.timestamp, run.progressAt)
  }

  /** Will the rest of `refresh` write a new failure record, for a failing turn that has none? */
  predicate Records(s: State) {
    && s.pc.Deciding? && s.pc.run.status == Failed && s.pc.observation in s.observations
    && s.session.Some? && s.session.value.shouldRestore && s.session.value.bound
    && (Budget(s).Some? ==> Budget(s).value.turnId != s.pc.run.turnId)
  }

  /** The rest of `refresh`, after the callbacks: keep, clear, reschedule or create the failure record. */
  function Decide(s: State, mayRecover: bool): State {
    if !s.pc.Deciding? then s
    else
      var s1 := s.(pc := AfterRefresh(s.pc.after));
      var run := s.pc.run;
      if s.session.None? || !s.session.value.shouldRestore || !s.session.value.bound then s1
      else
        var s2 := ClearTimer(s1, s.pc.observation);
        var prior := Budget(s2);
        if run.status != Failed then NotFailed(s2, run)
        else if prior.Some? && prior.value.turnId == run.turnId then
          if prior.value.status == Scheduled then Schedule(s2, s.pc.observation, prior.value)
          else if s.pc.initial && prior.value.status == Retrying
          then Save(s2, Some(prior.value.(status := Stopped, stoppedReason := Some(UncertainOutcome))))
          else s2
        else NewFailure(s2, s.pc.observation, run, mayRecover)
  }

  function NotFailed(s: State, run: Run): State
    requires s.session.Some?
  {
    var prior := Budget(s);
    if run.status == Running && prior.Some? && prior.value.status == Retrying && run.turnId != prior.value.turnId then
      var since := if prior.value.retrySubmittedAt.Some? then prior.value.retrySubmittedAt.value else prior.value.failedAt;
      if run.progressAt.Some? && run.progressAt.value.text >= since.text then Save(s, None)
      else if Visible(s).Some? then s.(budget := prior, session := ShowFailure(s.session, None))
      else s
    else if s.session.value.claude && run.status == Completed
            && (s.session.value.lastResponseAt.None? || s.session.value.lastResponseAt.value.text < run.timestamp.text)
    then s
    else if prior.Some? then Save(s, None)
    else s
  }

  /** The attempts a new failing turn inherits: those of a retry that made no progress, else none. */
  function CarriedAttempts(prior: Option<Failure>, run: Run): nat {
    var since := if prior.Some? && prior.value.retrySubmittedAt.Some? then prior.value.retrySubmittedAt.value else run.timestamp;
    var progressed := run.progressAt.Some? && run.progressAt.value.text >= since.text;
    if prior.Some? && prior.value.status == Retrying && !progressed then prior.value.attempts else 0
  }

  /** The run ended under this observation, or answers a retry and is not too old. */
  predicate Recent(s: State, attachedAt: int, run: Run) {
    var prior := Budget(s);
    && run.timestamp.ms.Some?
    && (run.timestamp.ms.value >= attachedAt
        || (prior.Some? && prior.value.status == Retrying && prior.value.retrySubmittedAt.Some?
            && prior.value.retrySubmittedAt.value.ms.Some?
            && run.timestamp.ms.value >= prior.value.retrySubmittedAt.value.ms.value
            && s.now - run.timestamp.ms.value < RECOVERY_MAX_AGE_MS))
  }

  function RecordFor(s: State, attachedAt: int, run: Run, mayRecover: bool): Failure {
    var prior := Budget(s);
    var attempts := CarriedAttempts(prior, run);
    var recent := Recent(s, attachedAt, run);
    var cancelled := CancelledRun(s, run);
    var allowed := mayRecover && recent && !cancelled && Retryable(run.code) && attempts < |s.delays|;
    var reason := if !mayRecover then Some(Disabled) else if cancelled then Some(CancelledForTurn) else if !recent then Some(NotFresh)
                  else if !Retryable(run.code) then Some(NotRetryable) else if !allowed then Some(LimitReached) else None;
    Failure(run.turnId, run.timestamp, if run.code.Some? then run.code.value else Unknown, attempts, |s.delays|,
            if allowed then Scheduled else Stopped,
            if allowed then Some(Iso(s.now + s.delays[attempts])) else None, None, reason)
  }

  function NewFailure(s: State, o: nat, run: Run, mayRecover: bool): State {
    if o !in s.observations then s
    else
      var failure := RecordFor(s, s.observations[o].attachedAt, run, mayRecover);
      var s1 := Save(s, Some(failure));
      if failure.status == Scheduled then Schedule(s1, o, failure) else s1
  }

  /** `retry` or the acknowledgement check goes on after its refresh. */
  function Resume(s: State): State {
    if !s.pc.Resuming? then s
    else
      var s1 := s.(pc := Idle);
      match s.pc.after
      case ThenNothing => s1
      case ThenRetry(o, generation) =>
        var failure := Visible(s);
        if failure.None? || failure.value.status != Scheduled
           || o !in s.observations || s.observations[o].generation != generation
           || (failure.value.nextRetryAt.Some? && failure.value.nextRetryAt.value.ms.Some? && failure.value.nextRetryAt.value.ms.value > s.now)
        then s1
        else s.(pc := CheckingReady(o, generation))
      case ThenAck(o) =>
        var failure := Visible(s);
        if failure.Some? && failure.value.status == Retrying && o in s.observations && s.observations[o].run.Some?
           && s.observations[o].run.value.turnId == failure.value.turnId && s.observations[o].run.value.status == Failed
        then Save(s1, Some(failure.value.(status := Stopped, stoppedReason := Some(NotAcknowledged))))
        else s1
  }

  function AttemptOf(s: State, failure: Failure): Failure {
    failure.(attempts := failure.attempts + 1, status := Retrying, nextRetryAt := None, retrySubmittedAt := Some(Iso(s.now)))
  }

  /** Would this answer of `canRetry` lead straight to a submission? */
  predicate Submits(s: State, blocked: Option<Blocked>) {
    && s.pc.CheckingReady? && IsCurrent(s, s.pc.observation, s.pc.generation)
    && Visible(s).Some? && Visible(s).value.status == Scheduled
    && blocked.None? && Within(s, Visible(s).value.failedAt)
  }

  /** `canRetry` has answered. The attempt is saved before the transport is called. */
  function Ready(s: State, blocked: Option<Blocked>): State {
    if !s.pc.CheckingReady? then s
    else
      var o := s.pc.observation;
      var s1 := s.(pc := Idle);
      if !IsCurrent(s, o, s.pc.generation) || Visible(s).None? || Visible(s).value.status != Scheduled then s1
      else
        var failure := Visible(s).value;
        if Submits(s, blocked) then Save(s, Some(AttemptOf(s, failure))).(pc := Submitting(o, s.pc.generation, failure))
        else if failure.code == ProcessExited && blocked == Some(NotRestored) && Within(s, failure.failedAt) then
          if failure.attempts + 1 >= |s.delays| then Save(s1, Some(Stop(failure, RelaunchFailed).(attempts := failure.attempts + 1)))
          else
            var next := failure.(attempts := failure.attempts + 1, status := Scheduled,
                                 nextRetryAt := Some(Iso(s.now + s.delays[failure.attempts + 1])));
            Schedule(Save(s1, Some(next)), o, next)
        else Save(s1, Some(Stop(failure, if blocked.Some? then BlockedBecause(blocked.value) else WindowExpired)))
  }

  /** `submit` has returned or thrown. */
  function SubmitSettled(s: State, outcome: Outcome): State {
    if !s.pc.Submitting? then s
    else
      var o, generation, before := s.pc.observation, s.pc.generation, s.pc.before;
      var s1 := s.(pc := Idle);
      var failure := Visible(s);
      match outcome
      case Submitted =>
        if IsCurrent(s, o, generation) && failure.Some? && failure.value.status == Retrying then SetTimeout(s1, o, AckTimer) else s1
      case Deferred =>
        if failure.Some? && failure.value.status == Retrying && IsCurrent(s, o, generation) && |s.delays| > 0 then
          var step := if before.attempts < |s.delays| - 1 then before.attempts else |s.delays| - 1;
          var next := failure.value.(attempts := before.attempts, status := Scheduled, retrySubmittedAt := None,
                                     nextRetryAt := Some(Iso(s.now + s.delays[step])));
          Schedule(Save(s1, Some(next)), o, next)
        else s1
      case Rejected =>
        if failure.Some? && failure.value.status != Stopped then Save(s1, Some(Stop(failure.value, SubmitRejected))) else s1
      case Uncertain =>
        if failure.Some? && failure.value.status != Stopped
        then Save(s1, Some(failure.value.(status := Stopped, stoppedReason := Some(SubmitUncertain)))) else s1
  }

  // ---------- runs ----------

  datatype Event = Tick(ms: nat) | SessionWrite(session: Option<Session>) | WatchPath(path: string) | RunChanged | Unwatch | StopPressed
                 | Confirmed(run: Run) | Timeout(observation: nat, timer: Timer) | ProcessEnded | TaskStarts(mayRecover: bool)
                 | MonitorAnswers(native: Option<Run>) | RunDecided(mayRecover: bool) | RefreshReturns | ReadinessKnown(blocked: Option<Blocked>)
                 | TransportAnswers(outcome: Outcome) | Killed

  function Next(s: State, e: Event): State {
    match e
    case Tick(ms) => s.(now := s.now + ms)
    case SessionWrite(session) => SessionChanged(s, session)
    case WatchPath(path) => Watch(s, path)
    case RunChanged => Changed(s)
    case Unwatch => StopWatching(s)
    case StopPressed => Cancel(s)
    case Confirmed(run) => ConfirmCompletion(s, run)
    case Timeout(o, timer) => TimerFires(s, o, timer)
    case ProcessEnded => s.(queue := s.queue + [ExitTask])
    case TaskStarts(mayRecover) => Begin(s, mayRecover)
    case MonitorAnswers(native) => ReadDone(s, native)
    case RunDecided(mayRecover) => Decide(s, mayRecover)
    case RefreshReturns => Resume(s)
    case ReadinessKnown(blocked) => Ready(s, blocked)
    case TransportAnswers(outcome) => SubmitSettled(s, outcome)
    case Killed => Crash(s)
  }

  function Initial(delays: seq<nat>, now: int, session: Option<Session>): State {
    State(delays, now, ShowFailure(session, None), None, None, map[], None, 0, [], Idle)
  }

  function After(s: State, events: seq<Event>): State
    decreases |events|
  {
    if events == [] then s else After(Next(s, events[0]), events[1..])
  }
}
