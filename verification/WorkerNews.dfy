/** What a worker's supervisor is told, and when (apps/server/src/coordination/service.ts:201-253, 497-520, 568-601). */
module WorkerNews {
  import opened Common
  import opened InboxPolicy
  import opened Coordination
  import opened CoordinationSafety

  /** The handoff for what last happened to the worker. */
  function NewsKey(s: State, worker: Id, reason: string): HandoffKey {
    HandoffKey(worker, LastEvent(s, worker), RevisionOf(s, worker), reason)
  }

  predicate HandedOff(s: State, worker: Id, reason: string) {
    NewsKey(s, worker, reason) in s.post.handoffs
  }

  predicate HasSupervisor(s: State, worker: Id) {
    ControlOf(s, worker).supervisor.Some? && ControlOf(s, worker).supervisor.value in s.assignments
  }

  /** A handoff is stored once for each event, revision and reason. It is addressed to the supervisor, lasts a week and is P2
      unless the worker says otherwise, and is in the inbox at once exactly when there is room. */
  lemma NotifyHandsOff(s: State, worker: Id, reason: string, options: Options, unused: Id, text: string)
    requires HasSupervisor(s, worker) && Notify(s, worker, reason, options, unused, text).Ok?
    ensures var t := Notify(s, worker, reason, options, unused, text).value;
      var key, supervisor := NewsKey(s, worker, reason), ControlOf(s, worker).supervisor.value;
      var priority := if options.priority.Some? then options.priority.value else P2;
      var room := HasSpace(s.post, supervisor, priority);
      && HandedOff(t, worker, reason)
      && (key in s.post.handoffs ==> t == s)
      && (key !in s.post.handoffs ==>
            && t.post.handoffs == s.post.handoffs[key := Handoff(unused, supervisor, worker, s.now, Some(text), !room, false)]
            && unused in t.post.policies && t.post.policies[unused].priority == priority
            && t.post.policies[unused].sender == worker && t.post.policies[unused].recipient == supervisor
            && t.post.policies[unused].expiresAt == s.now + 1000 * (if options.validFor.Some? then options.validFor.value else 604800)
            && (if room then t.post.rows == s.post.rows[unused := Row(worker, supervisor, text, s.now, None, None)]
                else t.post.rows == s.post.rows))
  {
  }

  lemma NotifyKeepsTheRest(s: State, worker: Id, reason: string, options: Options, unused: Id, text: string)
    requires Notify(s, worker, reason, options, unused, text).Ok?
    ensures var t := Notify(s, worker, reason, options, unused, text).value; t == s.(post := t.post)
  {
  }

  // ---------- tasks ----------

  predicate IsNews(prior: Option<Task>, task: Task) {
    || prior.None? || task.state != prior.value.state
    || (task.state == NeedsAction && task.actionNeeded != prior.value.actionNeeded)
  }

  function NewsOf(task: Task): string {
    if task.state == Done then "A supervised worker completed its task."
    else "A supervised worker needs action: " + (if task.actionNeeded.Some? then task.actionNeeded.value else "")
  }

  lemma TaskUpdateIs(s: State, id: Id, input: TaskInput, options: Options, unused: Id, text: string)
    requires UpdateTask(TaskOf(s, id), input).Ok?
    ensures var task := UpdateTask(TaskOf(s, id), input).value;
      var s1 := s.(tasks := s.tasks[id := task]);
      UpdateTaskAndNotify(s, id, input, options, unused, text)
      == if IsNews(TaskOf(s, id), task) && task.state != Working then Notify(s1, id, NewsOf(task), options, unused, text) else Ok(s1)
  {
  }

  lemma TaskUpdateTells(s: State, id: Id, input: TaskInput, options: Options, unused: Id, text: string)
    requires UpdateTaskAndNotify(s, id, input, options, unused, text).Ok?
    ensures var t := UpdateTaskAndNotify(s, id, input, options, unused, text).value;
      && id in t.tasks && t.controls == s.controls && t.assignments == s.assignments
      && (if IsNews(TaskOf(s, id), t.tasks[id]) && t.tasks[id].state != Working
          then HasSupervisor(t, id) ==> HandedOff(t, id, NewsOf(t.tasks[id]))
          else t.post == s.post)
  {
    var task := UpdateTask(TaskOf(s, id), input).value;
    var s1 := s.(tasks := s.tasks[id := task]);
    TaskUpdateIs(s, id, input, options, unused, text);
    if IsNews(TaskOf(s, id), task) && task.state != Working {
      NotifyKeepsTheRest(s1, id, NewsOf(task), options, unused, text);
      if HasSupervisor(s1, id) {
        NotifyHandsOff(s1, id, NewsOf(task), options, unused, text);
      }
    }
  }

  /** Once an update has changed a task to done, to needing action, or to needing another action, that is handed off to the
      worker's supervisor; and an update tells nothing else. */
  lemma TaskNewsIsHandedOff(s: State, id: Id, input: UpdateInput, unused: Id, text: string)
    requires Update(s, id, input, unused, text).error.None?
    ensures var t := Next(s, Updates(id, input, unused, text));
      && (input.task.Some? ==> id in t.tasks)
      && (if input.task.Some? && IsNews(TaskOf(s, id), t.tasks[id]) && t.tasks[id].state != Working
          then HasSupervisor(t, id) ==> HandedOff(t, id, NewsOf(t.tasks[id]))
          else t.post == s.post)
  {
    if id in s.assignments && UpdateFrom(s, id, input, unused, text).Ok? {
      BeforeTaskIsQuiet(s, id, input);
      if input.task.Some? {
        TaskUpdateTells(BeforeTask(s, id, input).value, id, input.task.value, input.options, unused, text);
      }
    }
  }

  // ---------- ends ----------

  lemma CloseIs(s: State, id: Id)
    requires Close(s, id).Ok?
    ensures var t := Close(s, id).value;
      && id in t.assignments && t.assignments[id] == Finished && t.post == s.post
      && (forall other :: other != id ==> (other in t.assignments <==> other in s.assignments))
      && ControlOf(t, id).supervisor == ControlOf(s, id).supervisor && ControlOf(t, id).mode == WaitingForInput
      && ControlOf(t, id).awaiting.None? && ControlOf(t, id).recovery.None?
      && (id in t.tasks <==> id in s.tasks) && (id in t.tasks ==> t.tasks[id].state == Done)
  {
  }

  /** An assignment that finishes is closed, with its task and without a wait; if work was owed, its supervisor is told. */
  lemma FinishIsHandedOff(s: State, id: Id, options: Options, unused: Id, text: string)
    requires id in s.assignments && s.assignments[id] != Finished && Finish(s, id, options, unused, text).error.None?
    ensures var t := Next(s, Finishes(id, options, unused, text));
      && id in t.assignments && t.assignments[id] == Finished
      && ControlOf(t, id).mode == WaitingForInput && ControlOf(t, id).awaiting.None?
      && (id in t.tasks <==> id in s.tasks) && (id in t.tasks ==> t.tasks[id].state == Done)
      && (StillOwed(s, id) && HasSupervisor(s, id) ==> HandedOff(t, id, "A supervised worker completed its assignment."))
      && (!StillOwed(s, id) ==> t.post == s.post)
  {
    CloseIs(s, id);
    var closed := Close(s, id).value;
    if StillOwed(s, id) {
      NotifyKeepsTheRest(closed, id, "A supervised worker completed its assignment.", options, unused, text);
      if HasSupervisor(s, id) {
        NotifyHandsOff(closed, id, "A supervised worker completed its assignment.", options, unused, text);
      }
    }
  }

  /** A worker that disconnects with work owed, while it is unattended, is reported to its supervisor. */
  lemma DisconnectIsHandedOff(s: State, id: Id, unused: Id, text: string)
    requires id in s.assignments && s.assignments[id] != Finished && s.assignments[id] != Disconnected
    ensures var t := Next(s, Disconnects(id, unused, text));
      && id in t.assignments && t.assignments[id] == Disconnected
      && (if ControlOf(s, id).mode == Unattended && StillOwed(s, id)
          then HasSupervisor(s, id) ==> HandedOff(t, id, "An unattended supervised worker disconnected.")
          else t.post == s.post)
  {
    var s1 := AddEvent(s.(assignments := s.assignments[id := Disconnected]), id);
    var reason := "An unattended supervised worker disconnected.";
    if ControlOf(s, id).mode == Unattended && StillOwed(s, id) {
      assert Notify(s1, id, reason, Options(None, None, None), unused, text).Ok?;
      NotifyKeepsTheRest(s1, id, reason, Options(None, None, None), unused, text);
      if HasSupervisor(s, id) {
        NotifyHandsOff(s1, id, reason, Options(None, None, None), unused, text);
      }
    }
  }
}
