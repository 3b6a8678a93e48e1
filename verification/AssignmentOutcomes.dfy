/** What updates, dispatches, waits and registrations make of an assignment, said of their events
    (apps/server/src/coordination/service.ts, tasks.ts and continuation.ts). */
module AssignmentOutcomes {
  import opened Common
  import opened InboxPolicy
  import opened InboxSafety
  import opened Coordination
  import opened CoordinationSafety
  import opened Supervisors
  import Chains

  // ---------- task records ----------

  function Given(given: Option<string>, prior: Option<Task>, field: Task -> string): string {
    if given.Some? then given.value else if prior.Some? then field(prior.value) else ""
  }

  function StateAfter(prior: Option<Task>, input: TaskInput): TaskState {
    if input.state.Some? then input.state.value else if prior.Some? then prior.value.state else Working
  }

  function ActionAfter(prior: Option<Task>, input: TaskInput): Option<string> {
    if input.actionNeeded.Some? then input.actionNeeded.value else if prior.Some? then prior.value.actionNeeded else None
  }

  /** An update of a task record is taken exactly when no text of the result is blank and a task that needs action says which. Each
      field is then what was given, and otherwise what it was; only a task that needs action has an action. */
  lemma TaskUpdateIs(prior: Option<Task>, input: TaskInput)
    ensures var deliverable, doneWhen := Given(input.deliverable, prior, (t: Task) => t.deliverable), Given(input.doneWhen, prior, (t: Task) => t.doneWhen);
      var evidence, state, action := Given(input.evidencePath, prior, (t: Task) => t.evidencePath), StateAfter(prior, input), ActionAfter(prior, input);
      var result := UpdateTask(prior, input);
      && (result.Ok? <==> !Blank(deliverable) && !Blank(doneWhen) && !Blank(evidence)
                          && (state == NeedsAction ==> action.Some? && !Blank(action.value)))
      && (result.Ok? ==> result.value == Task(deliverable, doneWhen, evidence, state, if state == NeedsAction then action else None,
                                              result.value.revision))
  {
  }

  // ---------- updates ----------

  function AwaitingAfter(s: State, id: Id, input: UpdateInput): Option<Awaiting> {
    if input.awaiting.Some? then
      (if input.awaiting.value.Some? then Some(Awaiting(input.awaiting.value.value, s.now, false)) else None)
    else if input.continuation.Some? then None
    else ControlOf(s, id).awaiting
  }

  /** A change of continuation ends a wait and what recovery was doing, and keeps the supervisor unless one is given. */
  lemma ContinuationSets(s: State, id: Id, mode: Mode, supervisor: Option<Option<Id>>)
    ensures var t, prior := SetContinuation(s, id, mode, supervisor), ControlOf(s, id);
      && t == s.(controls := t.controls)
      && ControlOf(t, id) == Control(mode, if supervisor.Some? then supervisor.value else prior.supervisor, None, prior.revision + 1, None)
      && (forall other :: other != id ==> ControlOf(t, other) == ControlOf(s, other))
  {
  }

  lemma RedirectSets(s: State, id: Id, input: UpdateInput)
    ensures var t := Redirect(s, id, input);
      && t.now == s.now && t.assignments == s.assignments && t.tasks == s.tasks
      && ControlOf(t, id).mode == (if input.continuation.Some? then input.continuation.value else ControlOf(s, id).mode)
      && ControlOf(t, id).supervisor == (if input.supervisor.Some? then input.supervisor.value else ControlOf(s, id).supervisor)
      && ControlOf(t, id).awaiting == (if input.continuation.Some? then None else ControlOf(s, id).awaiting)
      && (forall other :: other != id ==> ControlOf(t, other) == ControlOf(s, other))
  {
    if input.continuation.Some? {
      ContinuationSets(s, id, input.continuation.value, input.supervisor);
    }
  }

  lemma AwaitingSets(s: State, id: Id, description: Option<string>)
    requires SetAwaiting(s, id, description).Ok?
    ensures var t := SetAwaiting(s, id, description).value;
      && t == s.(controls := t.controls)
      && ControlOf(t, id).mode == ControlOf(s, id).mode && ControlOf(t, id).supervisor == ControlOf(s, id).supervisor
      && ControlOf(t, id).awaiting == (if description.Some? then Some(Awaiting(description.value, s.now, false)) else None)
      && ControlOf(t, id).revision == ControlOf(s, id).revision + 1
      && ControlOf(t, id).recovery == (if description.Some? && ControlOf(s, id).recovery == Some(Submitted) then Some(Scheduled)
                                       else ControlOf(s, id).recovery)
      && (forall other :: other != id ==> ControlOf(t, other) == ControlOf(s, other))
  {
  }

  /** A wait can be declared exactly in unattended work. */
  lemma WaitIsDeclaredIff(s: State, id: Id, description: string)
    ensures SetAwaiting(s, id, Some(description)).Ok? <==> ControlOf(s, id).mode == Unattended
    ensures SetAwaiting(s, id, None).Ok?
  {
  }

  predicate ControlIsSet(s: State, t: State, id: Id, input: UpdateInput) {
    && ControlOf(t, id).mode == (if input.continuation.Some? then input.continuation.value else ControlOf(s, id).mode)
    && ControlOf(t, id).supervisor == (if input.supervisor.Some? then input.supervisor.value else ControlOf(s, id).supervisor)
    && ControlOf(t, id).awaiting == AwaitingAfter(s, id, input)
  }

  lemma BeforeTaskSets(s: State, id: Id, input: UpdateInput)
    requires id in s.assignments && BeforeTask(s, id, input).Ok?
    ensures var t := BeforeTask(s, id, input).value;
      && t.assignments == s.assignments[id := if input.status.Some? then input.status.value else s.assignments[id]]
      && ControlIsSet(s, t, id, input)
      && (forall other :: other != id ==> ControlOf(t, other) == ControlOf(s, other))
  {
    RedirectSets(s, id, input);
    if input.awaiting.Some? {
      AwaitingSets(Redirect(s, id, input), id, input.awaiting.value);
    }
  }

  /** The assignment is closed to this update: it is finished, or its process is gone. */
  predicate ClosedTo(s: State, id: Id, input: UpdateInput) {
    id in s.assignments && (s.assignments[id] == Disconnected || (s.assignments[id] == Finished && input.status != Some(Active)))
  }

  lemma OpenUpdate(s: State, id: Id, input: UpdateInput, unused: Id, text: string)
    requires id in s.assignments && !ClosedTo(s, id, input) && Update(s, id, input, unused, text).error.None?
    ensures UpdateFrom(s, id, input, unused, text) == Ok(Update(s, id, input, unused, text).state)
  {
  }

  /** An update that is taken, of an assignment that is open, sets what it names and nothing else: status, continuation, supervisor
      and wait; a change of continuation ends a wait. No other assignment and no other control moves. */
  lemma UpdateSetsWhatItNames(s: State, id: Id, input: UpdateInput, unused: Id, text: string)
    requires id in s.assignments && !ClosedTo(s, id, input) && Update(s, id, input, unused, text).error.None?
    ensures var t := Next(s, Updates(id, input, unused, text));
      && t.assignments == s.assignments[id := if input.status.Some? then input.status.value else s.assignments[id]]
      && ControlIsSet(s, t, id, input)
      && (forall other :: other != id ==> ControlOf(t, other) == ControlOf(s, other))
  {
    OpenUpdate(s, id, input, unused, text);
    BeforeTaskSets(s, id, input);
    if input.task.Some? {
      var before := BeforeTask(s, id, input).value;
      TaskUpdateLeavesControls(before, id, input.task.value, input.options, unused, text);
      TaskUpdateLeavesAssignments(before, id, input.task.value, input.options, unused, text);
    }
  }

  lemma TaskUpdateLeavesAssignments(s: State, id: Id, input: TaskInput, options: Options, unused: Id, text: string)
    requires UpdateTaskAndNotify(s, id, input, options, unused, text).Ok?
    ensures UpdateTaskAndNotify(s, id, input, options, unused, text).value.assignments == s.assignments
  {
  }

  /** A closed assignment takes no update. */
  lemma ClosedAssignmentsStay(s: State, id: Id, input: UpdateInput, unused: Id, text: string)
    requires id !in s.assignments || ClosedTo(s, id, input)
    ensures Next(s, Updates(id, input, unused, text)) == s
  {
  }

  // ---------- dispatch ----------

  predicate CanBeStarted(s: State, supervisor: Id, worker: Id) {
    && worker in s.assignments && s.assignments[worker] != Finished && worker !in s.paused && worker !in s.sendOnly
    && supervisor in s.assignments && s.assignments[supervisor] != Finished
    && ControlOf(s, worker).supervisor == Some(supervisor) && ControlOf(s, worker).mode == Unattended
    && ControlOf(s, worker).awaiting.None?
    && ControlOf(s, worker).recovery != Some(Blocked) && ControlOf(s, worker).recovery != Some(Stalled)
  }

  /** The task that a dispatch activates: what it gives, merged into what the worker has. */
  function Activated(s: State, worker: Id, task: Option<TaskInput>): Result<Task, Error> {
    UpdateTask(TaskOf(s, worker), (if task.Some? then task.value else NO_TASK_INPUT).(state := Some(Working)))
  }

  /** A dispatch under a new ID succeeds exactly when the worker is supervised by the caller and can be started, its task is at the
      expected revision and complete, this revision was not dispatched before, and the worker's inbox has room. */
  lemma DispatchSucceedsIff(s: State, supervisor: Id, id: Id, worker: Id, expected: int, task: Option<TaskInput>, text: string)
    requires PostOk(s.post) && id !in s.dispatches && id !in s.post.policies
    ensures Dispatch(s, supervisor, id, worker, expected, task, text).error.None?
            <==> && CanBeStarted(s, supervisor, worker) && RevisionOf(s, worker) == expected && Activated(s, worker, task).Ok?
                 && Revision(worker, Activated(s, worker, task).value.revision) !in s.dispatched
                 && |Pool(Expire(s.post, s.now), worker, false)| < 100
  {
    assert id in s.post.rows ==> RowOk(s.post, id);
  }

  /** Its message is then in the worker's inbox, for a week, and it is the one that may start the worker. */
  lemma DispatchIsEligible(s: State, supervisor: Id, id: Id, worker: Id, expected: int, task: Option<TaskInput>, text: string)
    requires Activates(s, supervisor, id, worker, expected, task)
    ensures var t := Next(s, Dispatches(supervisor, id, worker, expected, task, text));
      && DispatchEligible(t, id) == Some(true)
      && id in t.post.rows && t.post.rows[id] == Row(supervisor, worker, text, s.now, None, None)
      && t.post.policies[id].priority == P2 && t.post.policies[id].expiresAt == s.now + 1000 * 604800
  {
    DispatchOutcomes(s, supervisor, id, worker, expected, task, text);
    DispatchChangesOneTask(s, supervisor, id, worker, expected, task, text);
    ActivatesOnlyStartable(s, supervisor, id, worker, expected, task);
  }

  lemma ActivatesOnlyStartable(s: State, supervisor: Id, id: Id, worker: Id, expected: int, task: Option<TaskInput>)
    requires Activates(s, supervisor, id, worker, expected, task)
    ensures CanBeStarted(s, supervisor, worker) && Activated(s, worker, task).Ok?
    ensures DispatchTask(Expired(s), supervisor, worker, expected, task) == Activated(s, worker, task)
  {
  }

  /** The worker's task is then the one that was asked for, and it is being worked on; no other task moves, and no control. */
  lemma DispatchChangesOneTask(s: State, supervisor: Id, id: Id, worker: Id, expected: int, task: Option<TaskInput>, text: string)
    requires Activates(s, supervisor, id, worker, expected, task)
    ensures var t := Next(s, Dispatches(supervisor, id, worker, expected, task, text));
      && worker in t.tasks && Activated(s, worker, task) == Ok(t.tasks[worker]) && t.tasks[worker].state == Working
      && (forall other :: other != worker ==> TaskOf(t, other) == TaskOf(s, other))
      && t.assignments == s.assignments && t.controls == s.controls && t.paused == s.paused
  {
    DispatchOutcomes(s, supervisor, id, worker, expected, task, text);
    DispatchLeavesControls(s, supervisor, id, worker, expected, task, text);
    DispatchLeavesTheRest(s, supervisor, id, worker, expected, task, text);
    ActivatesOnlyStartable(s, supervisor, id, worker, expected, task);
    ActivatedIsWorking(s, worker, task);
  }

  lemma DispatchLeavesTheRest(s: State, supervisor: Id, id: Id, worker: Id, expected: int, task: Option<TaskInput>, text: string)
    ensures var t := Dispatch(s, supervisor, id, worker, expected, task, text).state;
      t.assignments == s.assignments && t.paused == s.paused && t.now == s.now
  {
  }

  lemma ActivatedIsWorking(s: State, worker: Id, task: Option<TaskInput>)
    requires Activated(s, worker, task).Ok?
    ensures Activated(s, worker, task).value.state == Working
  {
  }

  // ---------- waits ----------

  /** The wait of `id` is four hours old and not announced, and its supervisor is known and has room for P3 mail. */
  predicate Overdue(s: State, id: Id) {
    var control := ControlOf(s, id);
    && control.mode == Unattended && control.awaiting.Some? && !control.awaiting.value.alerted
    && s.now - control.awaiting.value.startedAt >= 4 * 60 * 60 * 1000
    && control.supervisor.Some? && control.supervisor.value in s.assignments
    && |Pool(Expire(s.post, s.now), control.supervisor.value, false)| < 100
  }

  /** The check of a wait tells the supervisor exactly when it is overdue; otherwise it only sweeps. */
  lemma OverdueWaitIsAnnounced(s: State, id: Id, unused: Id, text: string)
    ensures var t := Next(s, Alerts(id, unused, text));
      if Overdue(s, id) then
        var supervisor := ControlOf(s, id).supervisor.value;
        && unused in t.post.rows && t.post.rows[unused] == Row(id, supervisor, text, s.now, None, None)
        && unused in t.post.policies && t.post.policies[unused].priority == P3 && t.post.policies[unused].expiresAt == s.now + 1000 * 3600
        && ControlOf(t, id) == ControlOf(s, id).(awaiting := Some(ControlOf(s, id).awaiting.value.(alerted := true)))
        && (forall other :: other != id ==> ControlOf(t, other) == ControlOf(s, other))
      else t == Expired(s)
  {
  }

  // ---------- registration ----------

  /** The assignment as it registers, before it is bound. */
  function Registered(s: State, id: Id, accepts: Option<bool>): State {
    s.(assignments := s.assignments[id := if id in s.assignments && s.assignments[id] == Finished then Finished else Active],
       sendOnly := if accepts == Some(false) then s.sendOnly + {id} else if accepts == Some(true) then s.sendOnly - {id} else s.sendOnly)
  }

  lemma RegistersAs(s: State, id: Id, accepts: Option<bool>, launchedBy: Option<Id>)
    ensures Register(s, id, accepts, launchedBy)
            == AddEvent(if launchedBy.Some? && ControlOf(s, id).revision == 0 then Bind(Registered(s, id, accepts), id, launchedBy.value)
                        else Registered(s, id, accepts), id)
  {
  }

  lemma AcceptingIs(s: State, id: Id, accepts: Option<bool>)
    ensures var t := Registered(s, id, accepts);
      && (accepts.None? ==> t.sendOnly == s.sendOnly) && (accepts.Some? ==> (id in t.sendOnly <==> !accepts.value))
      && (forall other :: other != id ==> (other in t.sendOnly <==> other in s.sendOnly))
  {
    if accepts.Some? && accepts.value {
      assert accepts == Some(true);
    } else if accepts.Some? {
      assert accepts == Some(false);
    }
  }

  /** An assignment that registers is active, unless it is finished, and takes mail as it says. */
  lemma RegistrationOpens(s: State, id: Id, accepts: Option<bool>, launchedBy: Option<Id>)
    ensures var t := Next(s, Registers(id, accepts, launchedBy));
      && t.assignments == s.assignments[id := if id in s.assignments && s.assignments[id] == Finished then Finished else Active]
      && (accepts.None? ==> t.sendOnly == s.sendOnly) && (accepts.Some? ==> (id in t.sendOnly <==> !accepts.value))
      && (forall other :: other != id ==> (other in t.sendOnly <==> other in s.sendOnly))
      && t.post == s.post && t.tasks == s.tasks
  {
    RegistersAs(s, id, accepts, launchedBy);
    AcceptingIs(s, id, accepts);
  }

  /** The session that an agent launched works unattended for that agent, unless the agent is gone or the assignment was set up
      before. No other control moves. */
  lemma RegistrationBinds(s: State, id: Id, accepts: Option<bool>, launchedBy: Option<Id>)
    ensures var t := Next(s, Registers(id, accepts, launchedBy));
      && (if launchedBy.Some? && ControlOf(s, id).revision == 0
          then ControlOf(t, id) == Control(Unattended, if launchedBy.value in t.assignments && t.assignments[launchedBy.value] != Finished
                                                       then launchedBy else None, None, 1, None)
          else t.controls == s.controls)
      && (forall other :: other != id ==> ControlOf(t, other) == ControlOf(s, other))
  {
    RegistersAs(s, id, accepts, launchedBy);
    if launchedBy.Some? {
      var s1 := Registered(s, id, accepts);
      ContinuationSets(s1, id, Unattended, Some(if launchedBy.value in Unfinished(s1) then launchedBy else None));
    }
  }

  // ---------- which message may start a worker ----------

  /** A message may start a worker exactly when it is a live dispatch for the current revision of a task that is being worked on,
      from the worker's supervisor, neither of them has finished, and the worker is unattended, waits for nothing, is not paused
      and its recovery has not given up. */
  lemma EligibleIff(s: State, id: Id)
    requires id in s.post.policies
    ensures var policy := s.post.policies[id];
      var worker := policy.recipient;
      DispatchEligible(s, id) == Some(true)
      <==> && policy.origin == FromDispatch && !policy.expired && id in s.dispatches
           && worker in s.tasks && s.dispatches[id].taskRevision == s.tasks[worker].revision && s.tasks[worker].state == Working
           && worker in s.assignments && s.assignments[worker] != Finished && worker !in s.paused
           && policy.sender in s.assignments && s.assignments[policy.sender] != Finished
           && ControlOf(s, worker).supervisor == Some(policy.sender) && ControlOf(s, worker).mode == Unattended
           && ControlOf(s, worker).awaiting.None?
           && ControlOf(s, worker).recovery != Some(Blocked) && ControlOf(s, worker).recovery != Some(Stalled)
  {
  }

  // ---------- why a supervisor is refused ----------

  /** The chain from `k` comes to `at`. */
  lemma {:induction false} InadmissibleIsOnTheChain(next: map<Id, Id>, admissible: set<Id>, visited: set<Id>, k: Id, at: Id)
    requires Chains.Check(next, admissible, visited, Some(k)) == Chains.Inadmissible(at)
    ensures at !in admissible && Chains.LeadsTo(next, k, at)
    decreases admissible - visited
  {
    if k !in admissible {
      assert Chains.Walk(next, k, 0) == Some(at);
    } else {
      assert k in admissible - visited;
      assert k !in next ==> Chains.Check(next, admissible, visited + {k}, None) == Chains.Clear;
      assert Chains.Check(next, admissible, visited + {k}, if k in next then Some(next[k]) else None) == Chains.Inadmissible(at);
      InadmissibleIsOnTheChain(next, admissible, visited + {k}, next[k], at);
      var n: nat :| Chains.Walk(next, next[k], n) == Some(at);
      assert Chains.Walk(next, k, n + 1) == Some(at);
    }
  }

  /** A supervisor is refused as finished, or as unknown, because it or one above it is. */
  lemma SupervisorIsRefusedBecause(s: State, id: Id, input: UpdateInput)
    requires input.supervisor.Some? && input.supervisor.value.Some? && SupervisorVerdict(s, id, input).Some?
    ensures var verdict, proposed := SupervisorVerdict(s, id, input).value, input.supervisor.value.value;
      || verdict == SupervisorCycle
      || (verdict == FinishedSupervisor
          && exists x :: Chains.LeadsTo(Links(s), proposed, x) && x in s.assignments && s.assignments[x] == Finished)
      || (verdict == UnknownAssignment && exists x :: Chains.LeadsTo(Links(s), proposed, x) && x !in s.assignments)
  {
    var proposed := input.supervisor.value.value;
    var checked := Chains.Check(Links(s), Unfinished(s), {id}, Some(proposed));
    if checked.Inadmissible? {
      InadmissibleIsOnTheChain(Links(s), Unfinished(s), {id}, proposed, checked.at);
    }
  }

  // ---------- events ----------

  /** The update is announced: it describes the work, or changes who or what goes on with it. */
  predicate Announced(input: UpdateInput) {
    input.describes || input.continuation.Some? || input.supervisor.Some?
  }

  lemma RedirectNumbers(s: State, id: Id, input: UpdateInput)
    ensures var t := Redirect(s, id, input);
      if input.continuation.Some? || input.supervisor.Some?
      then t.log == EventLog(s.log.count + 1, s.log.last[id := s.log.count + 1]) else t.log == s.log
  {
  }

  lemma BeforeTaskNumbers(s: State, id: Id, input: UpdateInput)
    requires id in s.assignments && BeforeTask(s, id, input).Ok?
    ensures var t := BeforeTask(s, id, input).value;
      if Announced(input) then t.log.count > s.log.count && LastEvent(t, id) == t.log.count else t.log == s.log
  {
    RedirectNumbers(s, id, input);
    if input.awaiting.Some? {
      AwaitingSets(Redirect(s, id, input), id, input.awaiting.value);
    }
  }

  lemma TaskUpdateLeavesTheLog(s: State, id: Id, input: TaskInput, options: Options, unused: Id, text: string)
    requires UpdateTaskAndNotify(s, id, input, options, unused, text).Ok?
    ensures UpdateTaskAndNotify(s, id, input, options, unused, text).value.log == s.log
  {
  }

  /** An update that is announced is the assignment's newest event, so that what it hands off is new; any other is no event. */
  lemma UpdateIsNumbered(s: State, id: Id, input: UpdateInput, unused: Id, text: string)
    requires id in s.assignments && !ClosedTo(s, id, input) && Update(s, id, input, unused, text).error.None?
    ensures var t := Next(s, Updates(id, input, unused, text));
      if Announced(input) then t.log.count > s.log.count && LastEvent(t, id) == t.log.count else t.log == s.log
  {
    OpenUpdate(s, id, input, unused, text);
    BeforeTaskNumbers(s, id, input);
    if input.task.Some? {
      TaskUpdateLeavesTheLog(BeforeTask(s, id, input).value, id, input.task.value, input.options, unused, text);
    }
  }
}
