/** The recovery service itself: the fields the source updates, each stretch between two awaits as one method that changes
    them step by step and meets the transition of module RunRecovery. */
module RunRecoveryService {
  import opened Common
  import R = RunRecovery
  import Safety = RunRecoverySafety

  class RunRecovery {
    const delays: seq<nat>
    var now: int
    var session: Option<R.Session>
    var budget: Option<R.Failure>
    var cancellation: Option<R.Cancellation>
    var observations: map<nat, R.Observation>
    var current: Option<nat>
    var created: nat
    var queue: seq<R.Task>
    var pc: R.Pc

    function State(): R.State
      reads this
    {
      R.State(delays, now, session, budget, cancellation, observations, current, created, queue, pc)
    }

    /** The state is one that a run can be in: some history goes with it. */
    ghost predicate Valid()
      reads this
    {
      Safety.Observed(State()) && exists h :: Safety.Inv(Safety.World(State(), h))
    }

    constructor (delays: seq<nat>, now: int, session: Option<R.Session>)
      ensures State() == R.Initial(delays, now, session) && Valid()
    {
      this.delays, this.now, this.session := delays, now, R.ShowFailure(session, None);
      budget, cancellation, observations, current, created, queue, pc := None, None, map[], None, 0, [], R.Idle;
      new;
      assert Safety.Inv(Safety.World(State(), Safety.History(0, None, None)));
    }

    method Save(failure: Option<R.Failure>)
      modifies this`budget, this`session
      ensures State() == R.Save(old(State()), failure)
    {
      budget := failure;
      if session.Some? {
        session := Some(session.value.(runFailure := failure));
      }
    }

    method Stored() returns (failure: Option<R.Failure>)
      ensures failure == R.Budget(State())
    {
      failure := budget;
      if session.Some? && session.value.runFailure.Some? {
        failure := session.value.runFailure;
      }
    }

    method ClearTimer(o: nat)
      modifies this`observations
      ensures State() == R.ClearTimer(old(State()), o)
    {
      if o in observations && observations[o].timer.Some? {
        var observation := observations[o];
        observations := observations[o := observation.(timer := None, pending := observation.pending - multiset{observation.timer.value})];
      } else if o in observations {
        assert observations == observations[o := observations[o]];
      }
    }

    method SetTimeout(o: nat, timer: R.Timer)
      requires o in observations
      modifies this`observations
      ensures State() == R.SetTimeout(old(State()), o, timer)
    {
      var observation := observations[o];
      observations := observations[o := observation.(timer := Some(timer), pending := observation.pending + multiset{timer})];
    }

    method Changed()
      modifies this`queue
      ensures State() == R.Changed(old(State()))
    {
      if current.None? {
        return;
      }
      queue := queue + [R.RefreshTask];
    }

    method StopWatching()
      modifies this`observations, this`current
      ensures State() == R.StopWatching(old(State()))
    {
      if current.Some? {
        ClearTimer(current.value);
      }
      current := None;
    }

    method Watch(path: string)
      modifies this`observations, this`current, this`created, this`queue
      ensures State() == R.Watch(old(State()), path)
    {
      if current.Some? && current.value in observations {
        var existing := observations[current.value];
        if existing.path == path {
          return;
        }
        if existing.processFailure.Some? {
          observations := observations[current.value := existing.(path := path)];
          Changed();
          return;
        }
      }
      StopWatching();
      var prior := Stored();
      var carried: Option<R.Run> := None;
      if prior.Some? && prior.value.code == R.ProcessExited {
        carried := Some(R.ProcessFailure(prior.value.turnId, prior.value.failedAt));
      }
      observations := observations[created := R.NewObservation(path, now, carried)];
      current, created := Some(created), created + 1;
      Changed();
    }

    method Cancel()
      modifies this`observations, this`cancellation, this`budget, this`session
      ensures State() == R.Cancel(old(State()))
      ensures R.Budget(State()).Some? ==> R.Budget(State()).value.status == R.Stopped
    {
      var turnId: Option<R.TurnId> := None;
      if current.Some? && current.value in observations {
        var observation := observations[current.value];
        if observation.run.Some? {
          turnId := Some(observation.run.value.turnId);
        }
        observations := observations[current.value := observation.(generation := observation.generation + 1)];
        ClearTimer(current.value);
      }
      cancellation := Some(R.Cancellation(turnId, now));
      var failure := Stored();
      if failure.Some? && failure.value.status != R.Stopped {
        Save(Some(failure.value.(status := R.Stopped, nextRetryAt := None, stoppedReason := Some(R.CancelledByUser))));
      }
    }

    method ConfirmCompletion(run: R.Run)
      modifies this`observations, this`budget, this`session
      ensures State() == R.ConfirmCompletion(old(State()), run)
      ensures State() == old(State()) || R.Budget(State()).None?
    {
      if run.status != R.Completed || current.None? || current.value !in observations || session.None? {
        return;
      }
      var observed, row := observations[current.value].run, session.value;
      if observed.None? || observed.value.turnId != run.turnId || observed.value.timestamp != run.timestamp || !row.shouldRestore
         || !row.bound || row.lastResponseAt.None? || row.lastResponseAt.value.text < run.timestamp.text {
        return;
      }
      ClearTimer(current.value);
      var failure := Stored();
      if failure.Some? {
        Save(None);
      }
    }

    method TimerFires(o: nat, timer: R.Timer)
      modifies this`observations, this`queue
      ensures State() == R.TimerFires(old(State()), o, timer)
    {
      if o in observations && timer in observations[o].pending {
        var observation := observations[o];
        observations := observations[o := observation.(timer := None, pending := observation.pending - multiset{timer})];
        queue := queue + [if timer.RetryTimer? then R.RetryTask(o) else R.AckTask(o)];
      }
    }

    /** `schedule`: the window and the limit once more, then the timer. */
    method Schedule(o: nat, failure: R.Failure)
      requires o in observations
      modifies this`observations, this`budget, this`session
      ensures State() == R.Schedule(old(State()), o, failure)
      ensures observations[o].timer.Some? || (budget.Some? && budget.value.status == R.Stopped)
    {
      ClearTimer(o);
      if failure.failedAt.ms.None? || now - failure.failedAt.ms.value > R.RECOVERY_MAX_AGE_MS
         || failure.nextRetryAt.None? || failure.nextRetryAt.value.ms.None? || failure.attempts >= |delays| {
        Save(Some(failure.(status := R.Stopped, nextRetryAt := None, stoppedReason := Some(R.WindowExpired))));
        return;
      }
      SetTimeout(o, R.RetryTimer);
    }

    /** `refresh` up to its await. */
    method StartRefresh(after: R.Then)
      modifies this`pc
      ensures State() == R.StartRefresh(old(State()), after)
    {
      if current.None? || current.value !in observations {
        pc := R.AfterRefresh(after);
        return;
      }
      pc := R.Reading(after, current.value, observations[current.value].generation);
    }

    method ProcessExited(mayRecover: bool)
      modifies this`observations, this`current, this`created, this`pc
      ensures State() == R.StartProcessExit(old(State()), mayRecover)
    {
      var failure := Stored();
      if session.None? || !mayRecover || (failure.Some? && failure.value.status == R.Stopped) {
        return;
      }
      if current.None? {
        observations := observations[created := R.NewObservation("", now, None)];
        current, created := Some(created), created + 1;
      }
      var o := current.value;
      if o !in observations {
        return;
      }
      if observations[o].processFailure.None? {
        observations := observations[o := observations[o].(
          processFailure := Some(R.ProcessFailure(R.Process(session.value.process), R.Iso(now))))];
      } else {
        assert observations == observations[o := observations[o].(processFailure := observations[o].processFailure)];
      }
      StartRefresh(R.ThenNothing);
    }

    /** The next holder of the lock runs up to its first await. */
    method TakeLock(mayRecover: bool)
      modifies this`queue, this`observations, this`current, this`created, this`pc
      ensures State() == R.Begin(old(State()), mayRecover)
    {
      if pc != R.Idle || queue == [] {
        return;
      }
      var task := queue[0];
      queue := queue[1..];
      match task
      case RefreshTask => StartRefresh(R.ThenNothing);
      case RetryTask(o) =>
        if current == Some(o) && o in observations {
          StartRefresh(R.ThenRetry(o, observations[o].generation));
        }
      case AckTask(o) =>
        if current == Some(o) {
          StartRefresh(R.ThenAck(o));
        }
      case ExitTask => ProcessExited(mayRecover);
    }

    /** `refresh` between the monitor's answer and the callbacks. */
    method MonitorAnswers(native: Option<R.Run>)
      modifies this`observations, this`pc
      ensures State() == R.ReadDone(old(State()), native)
    {
      if !pc.Reading? || pc.observation !in observations {
        return;
      }
      var o, after, generation := pc.observation, pc.after, pc.generation;
      var observation := observations[o];
      if observation.processFailure.Some? && native.Some?
         && native.value.timestamp.text > observation.processFailure.value.timestamp.text {
        observation := observation.(processFailure := None);
      }
      var run := if observation.processFailure.Some? then observation.processFailure else native;
      observations := observations[o := observation];
      pc := R.AfterRefresh(after);
      if current != Some(o) || observation.generation != generation || run.None? {
        return;
      }
      var key := R.KeyOf(run.value);
      if observation.seen == Some(key) {
        return;
      }
      var initial := observation.seen.None?;
      observation := observation.(seen := Some(key), run := run);
      observations := observations[o := observation];
      pc := R.Deciding(after, o, run.value, initial);
    }

    /** The rest of `refresh`. */
    method DecideRun(mayRecover: bool)
      requires pc.Deciding? ==> pc.observation in observations
      modifies this`observations, this`budget, this`session, this`pc
      ensures State() == R.Decide(old(State()), mayRecover)
    {
      if !pc.Deciding? {
        return;
      }
      var o, run, initial := pc.observation, pc.run, pc.initial;
      pc := R.AfterRefresh(pc.after);
      if session.None? || !session.value.shouldRestore || !session.value.bound {
        return;
      }
      var prior := Stored();
      ClearTimer(o);
      if run.status != R.Failed {
        NotFailed(run, prior);
      } else if prior.Some? && prior.value.turnId == run.turnId {
        if prior.value.status == R.Scheduled {
          Schedule(o, prior.value);
        } else if initial && prior.value.status == R.Retrying {
          Save(Some(prior.value.(status := R.Stopped, stoppedReason := Some(R.UncertainOutcome))));
        }
      } else {
        var failure := R.RecordFor(State(), observations[o].attachedAt, run, mayRecover);
        Save(Some(failure));
        if failure.status == R.Scheduled {
          Schedule(o, failure);
        }
      }
    }

    method NotFailed(run: R.Run, prior: Option<R.Failure>)
      requires session.Some? && prior == R.Budget(State())
      modifies this`budget, this`session
      ensures State() == R.NotFailed(old(State()), run)
    {
      var row := session.value;
      if run.status == R.Running && prior.Some? && prior.value.status == R.Retrying && run.turnId != prior.value.turnId {
        var since := prior.value.failedAt;
        if prior.value.retrySubmittedAt.Some? {
          since := prior.value.retrySubmittedAt.value;
        }
        if run.progressAt.Some? && run.progressAt.value.text >= since.text {
          Save(None);
        } else if row.runFailure.Some? {
          budget := prior;
          session := Some(row.(runFailure := None));
        }
        return;
      }
      if row.claude && run.status == R.Completed
         && (row.lastResponseAt.None? || row.lastResponseAt.value.text < run.timestamp.text) {
        return;
      }
      if prior.Some? {
        Save(None);
      }
    }

    /** `retry`, or the acknowledgement check, after its refresh. */
    method RefreshReturns()
      modifies this`budget, this`session, this`pc
      ensures State() == R.Resume(old(State()))
    {
      if !pc.Resuming? {
        return;
      }
      var after := pc.after;
      pc := R.Idle;
      if session.None? || session.value.runFailure.None? {
        return;
      }
      var failure := session.value.runFailure.value;
      if after.ThenRetry? {
        if failure.status != R.Scheduled || after.observation !in observations
           || observations[after.observation].generation != after.generation
           || (failure.nextRetryAt.Some? && failure.nextRetryAt.value.ms.Some? && failure.nextRetryAt.value.ms.value > now) {
          return;
        }
        pc := R.CheckingReady(after.observation, after.generation);
      } else if after.ThenAck? && failure.status == R.Retrying && after.observation in observations {
        var last := observations[after.observation].run;
        if last.Some? && last.value.turnId == failure.turnId && last.value.status == R.Failed {
          Save(Some(failure.(status := R.Stopped, stoppedReason := Some(R.NotAcknowledged))));
        }
      }
    }

    /** `retry` between `canRetry` and `submit`; the attempt is durable before the transport is called. */
    method ReadinessKnown(blocked: Option<R.Blocked>)
      modifies this`observations, this`budget, this`session, this`pc
      ensures State() == R.Ready(old(State()), blocked)
      ensures pc.Submitting? && !old(pc).Submitting?
              ==> budget.Some? && budget.value.status == R.Retrying && budget.value.attempts == pc.before.attempts + 1
    {
      if !pc.CheckingReady? {
        return;
      }
      var o, generation := pc.observation, pc.generation;
      pc := R.Idle;
      if current != Some(o) || o !in observations || observations[o].generation != generation || session.None?
         || session.value.runFailure.None? || session.value.runFailure.value.status != R.Scheduled {
        return;
      }
      var failure := session.value.runFailure.value;
      var inWindow := failure.failedAt.ms.Some? && now - failure.failedAt.ms.value <= R.RECOVERY_MAX_AGE_MS;
      if blocked.Some? || !inWindow {
        if failure.code == R.ProcessExited && blocked == Some(R.NotRestored) && inWindow {
          var attempts := failure.attempts + 1;
          if attempts >= |delays| {
            Save(Some(failure.(attempts := attempts, status := R.Stopped, nextRetryAt := None, stoppedReason := Some(R.RelaunchFailed))));
            return;
          }
          var next := failure.(attempts := attempts, status := R.Scheduled, nextRetryAt := Some(R.Iso(now + delays[attempts])));
          Reschedule(o, next);
          return;
        }
        var reason := if blocked.Some? then R.BlockedBecause(blocked.value) else R.WindowExpired;
        Save(Some(failure.(status := R.Stopped, nextRetryAt := None, stoppedReason := Some(reason))));
        return;
      }
      Save(Some(failure.(attempts := failure.attempts + 1, status := R.Retrying, nextRetryAt := None,
                         retrySubmittedAt := Some(R.Iso(now)))));
      pc := R.Submitting(o, generation, failure);
    }

    method Reschedule(o: nat, next: R.Failure)
      requires o in observations
      modifies this`observations, this`budget, this`session
      ensures State() == R.Schedule(R.Save(old(State()), Some(next)), o, next)
    {
      Save(Some(next));
      Schedule(o, next);
    }

    /** `retry` once `submit` has returned or thrown. */
    method TransportAnswers(outcome: R.Outcome)
      modifies this`observations, this`budget, this`session, this`pc
      ensures State() == R.SubmitSettled(old(State()), outcome)
    {
      if !pc.Submitting? {
        return;
      }
      var o, generation, before := pc.observation, pc.generation, pc.before;
      pc := R.Idle;
      if session.None? || session.value.runFailure.None? {
        return;
      }
      var failure := session.value.runFailure.value;
      var isCurrent := current == Some(o) && o in observations && observations[o].generation == generation;
      match outcome
      case Submitted =>
        if isCurrent && failure.status == R.Retrying {
          SetTimeout(o, R.AckTimer);
        }
      case Deferred =>
        if isCurrent && failure.status == R.Retrying && |delays| > 0 {
          var step := if before.attempts < |delays| - 1 then before.attempts else |delays| - 1;
          var next := failure.(attempts := before.attempts, status := R.Scheduled, retrySubmittedAt := None,
                               nextRetryAt := Some(R.Iso(now + delays[step])));
          Reschedule(o, next);
        }
      case Rejected =>
        if failure.status != R.Stopped {
          Save(Some(failure.(status := R.Stopped, nextRetryAt := None, stoppedReason := Some(R.SubmitRejected))));
        }
      case Uncertain =>
        if failure.status != R.Stopped {
          Save(Some(failure.(status := R.Stopped, stoppedReason := Some(R.SubmitUncertain))));
        }
    }

    // ---------- runs ----------

    /** A call from outside the lock, or a change beside the service. */
    predicate FromOutside(e: R.Event) {
      e.Tick? || e.SessionWrite? || e.WatchPath? || e.RunChanged? || e.Unwatch? || e.StopPressed? || e.Confirmed? || e.Timeout?
      || e.ProcessEnded? || e.Killed?
    }

    method HandleCall(e: R.Event)
      requires FromOutside(e)
      modifies this
      ensures State() == R.Next(old(State()), e)
    {
      match e
      case Tick(ms) => now := now + ms;
      case SessionWrite(session') => session := R.ShowFailure(session', R.Visible(State()));
      case WatchPath(path) => Watch(path);
      case RunChanged => Changed();
      case Unwatch => StopWatching();
      case StopPressed => Cancel();
      case Confirmed(run) => ConfirmCompletion(run);
      case Timeout(o, timer) => TimerFires(o, timer);
      case ProcessEnded => queue := queue + [R.ExitTask];
      case Killed => observations, current, queue, pc := map[], None, [], R.Idle;
    }

    /** What the lock holder does next. */
    method HandleStretch(e: R.Event)
      requires Safety.Observed(State()) && !FromOutside(e)
      modifies this
      ensures State() == R.Next(old(State()), e)
    {
      match e
      case TaskStarts(mayRecover) => TakeLock(mayRecover);
      case MonitorAnswers(native) => MonitorAnswers(native);
      case RunDecided(mayRecover) => DecideRun(mayRecover);
      case RefreshReturns => RefreshReturns();
      case ReadinessKnown(blocked) => ReadinessKnown(blocked);
      case TransportAnswers(outcome) => TransportAnswers(outcome);
    }

    method Handle(e: R.Event)
      requires Valid()
      modifies this
      ensures State() == R.Next(old(State()), e) && Valid()
    {
      ghost var before := State();
      ghost var h :| Safety.Inv(Safety.World(before, h));
      Safety.StepKeepsObserved(before, e);
      Safety.StepKeepsInv(Safety.World(before, h), e);
      if FromOutside(e) {
        HandleCall(e);
      } else {
        HandleStretch(e);
      }
      assert Safety.Inv(Safety.World(State(), Safety.Observe(h, before, e)));
    }

    /** Any sequence of calls leaves the object in the state of the run, so that what holds of every run holds of the object. */
    method HandleAll(calls: seq<R.Event>)
      requires Valid()
      modifies this
      ensures State() == R.After(old(State()), calls) && Valid()
      ensures budget.Some? ==> Safety.RecordOk(budget.value, delays)
    {
      for i := 0 to |calls|
        invariant Valid() && R.After(State(), calls[i..]) == R.After(old(State()), calls)
      {
        assert calls[i..][1..] == calls[i + 1..] && calls[i..][0] == calls[i];
        Handle(calls[i]);
      }
      ghost var h :| Safety.Inv(Safety.World(State(), h));
    }
  }
}
