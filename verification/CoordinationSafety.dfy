/** What every run of the coordination service keeps: mail is bounded, delivered at most once and never lost; handoffs are
    conserved; each task revision is dispatched at most once. */
module CoordinationSafety {
  import opened Common
  import opened InboxPolicy
  import opened InboxSafety
  import opened InboxHistory
  import opened Coordination

  // ---------- the message operations, one after another ----------

  ghost predicate Sound(p: Post, q: Post) {
    PostOk(q) && Evolves(p, q)
  }

  lemma SoundChains(p: Post, q: Post, r: Post)
    requires PostOk(p) && Sound(p, q) && Sound(q, r)
    ensures Sound(p, r)
  {
    EvolvesChains(p, q, r);
  }

  lemma ExpireSound(p: Post, now: int)
    requires PostOk(p)
    ensures Sound(p, Expire(p, now))
  {
    ExpirySweepsExactly(p, now);
    ExpireEvolves(p, now);
  }

  lemma InsertSound(p: Post, id: Id, policy: Policy, text: string)
    requires PostOk(p) && id !in p.policies && FreshPolicy(policy, text) && HasSpace(p, policy.recipient, policy.priority)
    ensures Sound(p, Insert(p, id, policy, text))
  {
    InsertKeeps(p, id, policy, text);
    InsertEvolves(p, id, policy, text);
  }

  lemma HandOffSound(p: Post, key: HandoffKey, id: Id, policy: Policy, text: string)
    requires PostOk(p) && id !in p.policies && key !in p.handoffs && FreshPolicy(policy, text)
    ensures Sound(p, HandOff(p, key, id, policy, text))
  {
    HandOffKeeps(p, key, id, policy, text);
    HandOffEvolves(p, key, id, policy, text);
  }

  lemma {:induction false} SupplySound(p: Post, batch: seq<Id>, now: int)
    requires PostOk(p) && AllPending(p, batch)
    ensures Sound(p, Supply(p, batch, now))
    decreases |batch|
  {
    if batch == [] {
      EvolvesStays(p);
    } else {
      var q := SupplyOne(p, batch[0], now);
      SupplyOneKeeps(p, batch[0], now);
      SupplyOneEvolves(p, batch[0], now);
      SupplySound(q, batch[1..], now);
      SoundChains(p, q, Supply(q, batch[1..], now));
    }
  }

  lemma {:induction false} AcknowledgeSound(o: AckOutcome, recipient: Id, ids: seq<Id>, now: int)
    requires PostOk(o.post) && AcknowledgeAll(o, recipient, ids, now).Ok?
    ensures Sound(o.post, AcknowledgeAll(o, recipient, ids, now).value.post)
    decreases |ids|
  {
    if ids == [] {
      EvolvesStays(o.post);
    } else {
      var step := AcknowledgeOne(o.post, recipient, ids[0], now);
      if step.value.None? {
        AcknowledgeSound(o.(expiredUnread := o.expiredUnread + [ids[0]]), recipient, ids[1..], now);
      } else {
        var next := AckOutcome(step.value.value, o.acknowledged + [ids[0]], o.expiredUnread);
        AcknowledgeOneKeeps(o.post, recipient, ids[0], now);
        AcknowledgeOneEvolves(o.post, recipient, ids[0], now);
        AcknowledgeSound(next, recipient, ids[1..], now);
        SoundChains(o.post, next.post, AcknowledgeAll(next, recipient, ids[1..], now).value.post);
      }
    }
  }

  lemma {:induction false} FlushSound(p: Post, keys: seq<HandoffKey>, known: set<Id>)
    requires PostOk(p)
    ensures Sound(p, Flush(p, keys, known))
    decreases |keys|
  {
    if keys == [] {
      EvolvesStays(p);
    } else {
      var q := FlushOne(p, keys[0], known);
      FlushOneKeeps(p, keys[0], known);
      FlushOneEvolves(p, keys[0], known);
      FlushSound(q, keys[1..], known);
      SoundChains(p, q, Flush(q, keys[1..], known));
    }
  }

  // ---------- one event ----------

  predicate SameMail(s: State, t: State) {
    t.post == s.post && t.tasks == s.tasks && t.dispatches == s.dispatches && t.dispatched == s.dispatched
  }

  /** A random UUID is new; a dispatch ID must be, because `dispatch` never looks for a message policy. */
  predicate FreshIds(s: State, e: Event) {
    match e
    case Updates(_, _, unused, _) => unused !in s.post.policies
    case Finishes(_, _, unused, _) => unused !in s.post.policies
    case Disconnects(_, unused, _) => unused !in s.post.policies
    case Alerts(_, unused, _) => unused !in s.post.policies
    case Dispatches(_, id, _, _, _, _) => id in s.dispatches || id !in s.post.policies
    case _ => true
  }

  /** `send` changes nothing, or sweeps, or sweeps and then inserts a message whose ID is new and for which there is room. */
  lemma SendOutcomes(s: State, sender: Id, id: Id, recipient: Id, text: string, options: Options)
    ensures var q, r := Expire(s.post, s.now), Send(s, sender, id, recipient, text, options).state.post;
      var policy := PolicyFor(sender, recipient, text, options, Direct, s.now);
      r == s.post || r == q
      || (r == Insert(q, id, policy, text) && id !in q.policies && FreshPolicy(policy, text) && HasSpace(q, policy.recipient, policy.priority))
  {
  }

  lemma SendSound(s: State, sender: Id, id: Id, recipient: Id, text: string, options: Options)
    requires PostOk(s.post)
    ensures Sound(s.post, Send(s, sender, id, recipient, text, options).state.post)
  {
    var p, q := s.post, Expire(s.post, s.now);
    var r := Send(s, sender, id, recipient, text, options).state.post;
    SendOutcomes(s, sender, id, recipient, text, options);
    if r == p {
      EvolvesStays(p);
    } else {
      ExpireSound(p, s.now);
      if r != q {
        InsertSound(q, id, PolicyFor(sender, recipient, text, options, Direct, s.now), text);
        SoundChains(p, q, r);
      }
    }
  }

  lemma InboxSound(s: State, reader: Id, awareness: bool, supply: bool, order: seq<Id>)
    requires PostOk(s.post)
    ensures Sound(s.post, Inbox(s, reader, awareness, supply, order).post)
  {
    var batch := Batch(Selected(s, reader, awareness, order));
    SelectionIsOfferable(s, reader, awareness, order);
    if supply {
      SupplySound(s.post, batch, s.now);
    } else {
      EvolvesStays(s.post);
    }
  }

  lemma MailSound(s: State, id: Id, awareness: bool, supply: bool, order: seq<Id>)
    requires PostOk(s.post)
    ensures Sound(s.post, Mail(s, id, awareness, supply, order).state.post)
  {
    if id !in s.assignments {
      EvolvesStays(s.post);
    } else {
      ExpireSound(s.post, s.now);
      InboxSound(Expired(s), id, awareness, supply, order);
      SoundChains(s.post, Expired(s).post, Inbox(Expired(s), id, awareness, supply, order).post);
    }
  }

  lemma FlushHandoffsSound(s: State, keys: seq<HandoffKey>)
    requires PostOk(s.post)
    ensures Sound(s.post, FlushHandoffs(s, keys).post)
  {
    var q := Expire(s.post, s.now);
    ExpireSound(s.post, s.now);
    FlushSound(q, keys, s.assignments.Keys);
    SoundChains(s.post, q, Flush(q, keys, s.assignments.Keys));
  }

  lemma AcknowledgeEventSound(s: State, id: Id, ids: seq<Id>, keys: seq<HandoffKey>)
    requires PostOk(s.post)
    ensures Sound(s.post, Acknowledge(s, id, ids, keys).state.post)
  {
    var q := Expire(s.post, s.now);
    var o := AckOutcome(q, [], []);
    EvolvesStays(s.post);
    ExpireSound(s.post, s.now);
    var outcome := AcknowledgeAll(o, id, ids, s.now);
    if outcome.Ok? {
      var t := s.(post := outcome.value.post);
      AcknowledgeSound(o, id, ids, s.now);
      SoundChains(s.post, q, t.post);
      FlushHandoffsSound(t, keys);
      SoundChains(s.post, t.post, FlushHandoffs(t, keys).post);
    }
  }

  lemma NotifySound(s: State, worker: Id, reason: string, options: Options, unused: Id, text: string)
    requires PostOk(s.post) && unused !in s.post.policies && Notify(s, worker, reason, options, unused, text).Ok?
    ensures var t := Notify(s, worker, reason, options, unused, text).value;
      Sound(s.post, t.post) && t == s.(post := t.post)
  {
    EvolvesStays(s.post);
    var t := Notify(s, worker, reason, options, unused, text).value;
    if t != s {
      var key := HandoffKey(worker, LastEvent(s, worker), RevisionOf(s, worker), reason);
      var full := Options(Some(if options.priority.Some? then options.priority.value else P2),
                          Some(if options.validFor.Some? then options.validFor.value else DURABLE_VALID_FOR), options.wakeReason);
      HandOffSound(s.post, key, unused, PolicyFor(worker, ControlOf(s, worker).supervisor.value, text, full, FromHandoff, s.now), text);
    }
  }

  lemma UpdateSound(s: State, id: Id, input: UpdateInput, unused: Id, text: string)
    requires PostOk(s.post) && unused !in s.post.policies
    ensures Sound(s.post, Update(s, id, input, unused, text).state.post)
  {
    EvolvesStays(s.post);
    if id in s.assignments && UpdateFrom(s, id, input, unused, text).Ok? {
      UpdateFromSound(s, id, input, unused, text);
    }
  }

  lemma UpdateFromSound(s: State, id: Id, input: UpdateInput, unused: Id, text: string)
    requires PostOk(s.post) && unused !in s.post.policies && id in s.assignments && UpdateFrom(s, id, input, unused, text).Ok?
    ensures Sound(s.post, UpdateFrom(s, id, input, unused, text).value.post)
  {
    BeforeTaskIsQuiet(s, id, input);
    if input.task.Some? {
      TaskUpdateSound(BeforeTask(s, id, input).value, id, input.task.value, input.options, unused, text);
    } else {
      EvolvesStays(s.post);
    }
  }

  lemma BeforeTaskIsQuiet(s: State, id: Id, input: UpdateInput)
    requires id in s.assignments && BeforeTask(s, id, input).Ok?
    ensures SameMail(s, BeforeTask(s, id, input).value)
  {
    RedirectIsQuiet(s, id, input);
  }

  lemma RedirectIsQuiet(s: State, id: Id, input: UpdateInput)
    ensures SameMail(s, Redirect(s, id, input))
  {
  }

  lemma TaskUpdateSound(s: State, id: Id, input: TaskInput, options: Options, unused: Id, text: string)
    requires PostOk(s.post) && unused !in s.post.policies && UpdateTaskAndNotify(s, id, input, options, unused, text).Ok?
    ensures var t := UpdateTaskAndNotify(s, id, input, options, unused, text).value;
      Sound(s.post, t.post) && t == s.(tasks := t.tasks, post := t.post) && UpdateTask(TaskOf(s, id), input).Ok?
      && t.tasks == s.tasks[id := UpdateTask(TaskOf(s, id), input).value]
  {
    EvolvesStays(s.post);
    var prior, task := TaskOf(s, id), UpdateTask(TaskOf(s, id), input).value;
    var s1 := s.(tasks := s.tasks[id := task]);
    var news := prior.None? || task.state != prior.value.state || (task.state == NeedsAction && task.actionNeeded != prior.value.actionNeeded);
    if news && task.state == Done {
      NotifySound(s1, id, "A supervised worker completed its task.", options, unused, text);
    } else if news && task.state == NeedsAction && task.actionNeeded.Some? {
      NotifySound(s1, id, "A supervised worker needs action: " + task.actionNeeded.value, options, unused, text);
    }
  }

  lemma FinishSound(s: State, id: Id, options: Options, unused: Id, text: string)
    requires PostOk(s.post) && unused !in s.post.policies
    ensures Sound(s.post, Finish(s, id, options, unused, text).state.post)
  {
    var t := Finish(s, id, options, unused, text).state;
    EvolvesStays(s.post);
    if t != s {
      var closed := Close(s, id).value;
      CloseIsOneTask(s, id);
      if StillOwed(s, id) {
        NotifySound(closed, id, "A supervised worker completed its assignment.", options, unused, text);
      }
    }
  }

  /** At most one task, that of `id`, differs, and it moved on by one revision. */
  predicate OneTask(s: State, t: State, id: Id) {
    && t.dispatches == s.dispatches && t.dispatched == s.dispatched
    && (t.tasks == s.tasks || (id in t.tasks && t.tasks == s.tasks[id := t.tasks[id]] && TaskEvolves(s, t, id)))
  }

  lemma CloseIsOneTask(s: State, id: Id)
    requires Close(s, id).Ok?
    ensures Close(s, id).value.post == s.post && OneTask(s, Close(s, id).value, id)
  {
    if TaskOf(s, id).Some? {
      UpdateTaskEvolves(TaskOf(s, id), NO_TASK_INPUT.(state := Some(Done)));
    }
  }

  lemma DisconnectSound(s: State, id: Id, unused: Id, text: string)
    requires PostOk(s.post) && unused !in s.post.policies
    ensures Sound(s.post, Disconnect(s, id, unused, text).state.post)
  {
    EvolvesStays(s.post);
    var s1 := AddEvent(s.(assignments := s.assignments[id := Disconnected]), id);
    if Notify(s1, id, "An unattended supervised worker disconnected.", Options(None, None, None), unused, text).Ok? {
      NotifySound(s1, id, "An unattended supervised worker disconnected.", Options(None, None, None), unused, text);
    }
  }

  lemma AlertSound(s: State, id: Id, unused: Id, text: string)
    requires PostOk(s.post) && unused !in s.post.policies
    ensures Sound(s.post, AlertOverdueAwait(s, id, unused, text).post)
  {
    var s1 := Expired(s);
    ExpireSound(s.post, s.now);
    if AlertDue(s1, id) {
      var policy := PolicyFor(id, ControlOf(s1, id).supervisor.value, text, Options(None, None, None), Overdue, s.now);
      InsertSound(s1.post, unused, policy, text);
      SoundChains(s.post, s1.post, Insert(s1.post, unused, policy, text));
    }
  }

  function DispatchPolicy(s: State, supervisor: Id, worker: Id, text: string): Policy {
    PolicyFor(supervisor, worker, text, Options(Some(P2), Some(DURABLE_VALID_FOR), None), FromDispatch, s.now)
  }

  /** Every check `dispatch` makes on a new ID before it inserts the row. */
  predicate DispatchGuards(s: State, supervisor: Id, id: Id, worker: Id, expected: int, task: Option<TaskInput>) {
    var s1 := Expired(s);
    && id !in s.dispatches && DispatchTask(s1, supervisor, worker, expected, task).Ok?
    && Revision(worker, DispatchTask(s1, supervisor, worker, expected, task).value.revision) !in s.dispatched
    && worker !in s.sendOnly && HasSpace(s1.post, worker, P2)
  }

  /** Does this call insert a dispatch, or does it refuse or repeat one? */
  predicate Activates(s: State, supervisor: Id, id: Id, worker: Id, expected: int, task: Option<TaskInput>) {
    DispatchGuards(s, supervisor, id, worker, expected, task) && id !in Expire(s.post, s.now).rows
  }

  lemma DispatchOutcomes(s: State, supervisor: Id, id: Id, worker: Id, expected: int, task: Option<TaskInput>, text: string)
    ensures var q, t := Expire(s.post, s.now), Dispatch(s, supervisor, id, worker, expected, task, text).state;
      if !Activates(s, supervisor, id, worker, expected, task) then t == s.(post := q)
      else
        var next := DispatchTask(Expired(s), supervisor, worker, expected, task).value;
        && t.post == Insert(q, id, DispatchPolicy(s, supervisor, worker, text), text) && t.tasks == s.tasks[worker := next]
        && t.dispatches == s.dispatches[id := Dispatched(Fingerprint(supervisor, worker, expected, task), next.revision)]
        && t.dispatched == s.dispatched[Revision(worker, next.revision) := id]
  {
  }

  lemma DispatchSound(s: State, supervisor: Id, id: Id, worker: Id, expected: int, task: Option<TaskInput>, text: string)
    requires PostOk(s.post) && (id in s.dispatches || id !in s.post.policies)
    ensures Sound(s.post, Dispatch(s, supervisor, id, worker, expected, task, text).state.post)
  {
    var q := Expire(s.post, s.now);
    DispatchOutcomes(s, supervisor, id, worker, expected, task, text);
    ExpireSound(s.post, s.now);
    if Activates(s, supervisor, id, worker, expected, task) {
      var policy := DispatchPolicy(s, supervisor, worker, text);
      InsertSound(q, id, policy, text);
      SoundChains(s.post, q, Insert(q, id, policy, text));
    }
  }

  lemma StepSound(s: State, e: Event)
    requires PostOk(s.post) && FreshIds(s, e)
    ensures Sound(s.post, Next(s, e).post)
  {
    match e
    case Sends(sender, id, recipient, text, options) => SendSound(s, sender, id, recipient, text, options);
    case Reads(id, awareness, supply, order) => MailSound(s, id, awareness, supply, order);
    case Acknowledges(id, ids, keys) => AcknowledgeEventSound(s, id, ids, keys);
    case Reconciles(keys) => FlushHandoffsSound(s, keys);
    case Updates(id, input, unused, text) => UpdateSound(s, id, input, unused, text);
    case Dispatches(supervisor, id, worker, expected, task, text) => DispatchSound(s, supervisor, id, worker, expected, task, text);
    case Finishes(id, options, unused, text) => FinishSound(s, id, options, unused, text);
    case Disconnects(id, unused, text) => DisconnectSound(s, id, unused, text);
    case Alerts(id, unused, text) => AlertSound(s, id, unused, text);
    case Expires => ExpireSound(s.post, s.now);
    case Tick(_) => EvolvesStays(s.post);
    case Registers(_, _, _) => EvolvesStays(s.post);
    case HumanSets(_, _) => EvolvesStays(s.post);
    case RecoveryMoves(_, _) => EvolvesStays(s.post);
    case Pauses(_, _) => EvolvesStays(s.post);
  }

  // ---------- tasks and dispatches ----------

  predicate TaskEvolves(s: State, t: State, w: Id) {
    && (w in s.tasks ==> w in t.tasks && (t.tasks[w] == s.tasks[w] || t.tasks[w].revision == s.tasks[w].revision + 1))
    && (w !in s.tasks && w in t.tasks ==> t.tasks[w].revision == 1)
  }

  /** Dispatch records are only ever added. */
  ghost predicate RecordsGrow(s: State, t: State) {
    && (forall m :: m in s.dispatches ==> m in t.dispatches && t.dispatches[m] == s.dispatches[m])
    && (forall r :: r in s.dispatched ==> r in t.dispatched && t.dispatched[r] == s.dispatched[r])
    && (forall w :: TaskEvolves(s, t, w))
  }

  predicate RecordOk(s: State, m: Id)
    requires m in s.dispatches
  {
    && m in s.post.policies && s.post.policies[m].origin == FromDispatch
    && s.post.policies[m].recipient == s.dispatches[m].fingerprint.worker
    && s.post.policies[m].sender == s.dispatches[m].fingerprint.supervisor
    && Revision(s.dispatches[m].fingerprint.worker, s.dispatches[m].taskRevision) in s.dispatched
    && s.dispatched[Revision(s.dispatches[m].fingerprint.worker, s.dispatches[m].taskRevision)] == m
  }

  /** Every dispatch is the one recorded for its worker and task revision. */
  ghost predicate RecordsOk(s: State) {
    forall m :: m in s.dispatches ==> RecordOk(s, m)
  }

  predicate SameRecords(s: State, t: State) {
    t.tasks == s.tasks && t.dispatches == s.dispatches && t.dispatched == s.dispatched
  }

  lemma NotifyIsMail(s: State, worker: Id, reason: string, options: Options, unused: Id, text: string)
    requires Notify(s, worker, reason, options, unused, text).Ok?
    ensures var t := Notify(s, worker, reason, options, unused, text).value; t == s.(post := t.post)
  {
  }

  lemma DisconnectLeavesRecords(s: State, id: Id, unused: Id, text: string)
    ensures SameRecords(s, Disconnect(s, id, unused, text).state)
  {
    var s1 := AddEvent(s.(assignments := s.assignments[id := Disconnected]), id);
    if Notify(s1, id, "An unattended supervised worker disconnected.", Options(None, None, None), unused, text).Ok? {
      NotifyIsMail(s1, id, "An unattended supervised worker disconnected.", Options(None, None, None), unused, text);
    }
  }

  lemma AlertLeavesRecords(s: State, id: Id, unused: Id, text: string)
    ensures SameRecords(s, AlertOverdueAwait(s, id, unused, text))
  {
  }

  lemma SendLeavesRecords(s: State, sender: Id, id: Id, recipient: Id, text: string, options: Options)
    ensures SameRecords(s, Send(s, sender, id, recipient, text, options).state)
  {
  }

  lemma RegisterLeavesRecords(s: State, id: Id, accepts: Option<bool>, launchedBy: Option<Id>)
    ensures SameRecords(s, Register(s, id, accepts, launchedBy))
  {
  }

  lemma OtherEventsLeaveRecords(s: State, e: Event)
    requires !e.Dispatches? && !e.Updates? && !e.Finishes?
    ensures SameRecords(s, Next(s, e))
  {
    match e
    case Sends(sender, id, recipient, text, options) => SendLeavesRecords(s, sender, id, recipient, text, options);
    case Registers(id, accepts, launchedBy) => RegisterLeavesRecords(s, id, accepts, launchedBy);
    case Disconnects(id, unused, text) => DisconnectLeavesRecords(s, id, unused, text);
    case Alerts(id, unused, text) => AlertLeavesRecords(s, id, unused, text);
    case Reads(id, awareness, supply, order) => MailLeavesRecords(s, id, awareness, supply, order);
    case Acknowledges(id, ids, keys) => AcknowledgeLeavesRecords(s, id, ids, keys);
    case _ =>
  }

  lemma MailLeavesRecords(s: State, id: Id, awareness: bool, supply: bool, order: seq<Id>)
    ensures SameRecords(s, Mail(s, id, awareness, supply, order).state)
  {
  }

  lemma AcknowledgeLeavesRecords(s: State, id: Id, ids: seq<Id>, keys: seq<HandoffKey>)
    ensures SameRecords(s, Acknowledge(s, id, ids, keys).state)
  {
  }

  lemma UpdateTaskEvolves(prior: Option<Task>, input: TaskInput)
    requires UpdateTask(prior, input).Ok?
    ensures var task := UpdateTask(prior, input).value;
      && (prior.None? ==> task.revision == 1)
      && (prior.Some? ==> task == prior.value
                          || (task.revision == prior.value.revision + 1 && task.(revision := prior.value.revision) != prior.value))
  {
  }

  lemma OneTaskGrows(s: State, t: State, id: Id)
    requires OneTask(s, t, id)
    ensures RecordsGrow(s, t)
  {
  }

  lemma StepGrowsRecords(s: State, e: Event)
    ensures RecordsGrow(s, Next(s, e))
  {
    match e
    case Dispatches(supervisor, id, worker, expected, task, text) => DispatchGrows(s, supervisor, id, worker, expected, task, text);
    case Updates(id, input, unused, text) =>
      UpdateIsOneTask(s, id, input, unused, text);
      OneTaskGrows(s, Next(s, e), id);
    case Finishes(id, options, unused, text) =>
      FinishIsOneTask(s, id, options, unused, text);
      OneTaskGrows(s, Next(s, e), id);
    case _ => OtherEventsLeaveRecords(s, e);
  }

  lemma DispatchGrows(s: State, supervisor: Id, id: Id, worker: Id, expected: int, task: Option<TaskInput>, text: string)
    ensures RecordsGrow(s, Dispatch(s, supervisor, id, worker, expected, task, text).state)
  {
    DispatchOutcomes(s, supervisor, id, worker, expected, task, text);
    if Activates(s, supervisor, id, worker, expected, task) {
      var input := (if task.Some? then task.value else NO_TASK_INPUT).(state := Some(Working));
      UpdateTaskEvolves(TaskOf(s, worker), input);
      ActivationGrows(s, Dispatch(s, supervisor, id, worker, expected, task, text).state, id, worker,
                      UpdateTask(TaskOf(s, worker), input).value);
    }
  }

  lemma ActivationGrows(s: State, t: State, id: Id, worker: Id, next: Task)
    requires id !in s.dispatches && Revision(worker, next.revision) !in s.dispatched
    requires t.tasks == s.tasks[worker := next] && id in t.dispatches && t.dispatches == s.dispatches[id := t.dispatches[id]]
    requires t.dispatched == s.dispatched[Revision(worker, next.revision) := id]
    requires if worker in s.tasks then next == s.tasks[worker] || next.revision == s.tasks[worker].revision + 1 else next.revision == 1
    ensures RecordsGrow(s, t)
  {
  }

  lemma UpdateIsOneTask(s: State, id: Id, input: UpdateInput, unused: Id, text: string)
    ensures OneTask(s, Update(s, id, input, unused, text).state, id)
  {
    var t := Update(s, id, input, unused, text).state;
    if t != s {
      var s3 := BeforeTask(s, id, input).value;
      BeforeTaskIsQuiet(s, id, input);
      if input.task.Some? {
        TaskUpdateIsOneTask(s3, id, input.task.value, input.options, unused, text);
      }
    }
  }

  lemma TaskUpdateIsOneTask(s: State, id: Id, input: TaskInput, options: Options, unused: Id, text: string)
    requires UpdateTaskAndNotify(s, id, input, options, unused, text).Ok?
    ensures OneTask(s, UpdateTaskAndNotify(s, id, input, options, unused, text).value, id)
  {
    UpdateTaskEvolves(TaskOf(s, id), input);
    var task := UpdateTask(TaskOf(s, id), input).value;
    var s1 := s.(tasks := s.tasks[id := task]);
    var t := UpdateTaskAndNotify(s, id, input, options, unused, text).value;
    if t != s1 {
      var reason := if task.state == Done then "A supervised worker completed its task."
                    else "A supervised worker needs action: " + task.actionNeeded.value;
      NotifyIsMail(s1, id, reason, options, unused, text);
    }
  }

  lemma FinishIsOneTask(s: State, id: Id, options: Options, unused: Id, text: string)
    ensures OneTask(s, Finish(s, id, options, unused, text).state, id)
  {
    var t := Finish(s, id, options, unused, text).state;
    if t != s {
      var closed := Close(s, id).value;
      CloseIsOneTask(s, id);
      if StillOwed(s, id) {
        NotifyIsMail(closed, id, "A supervised worker completed its assignment.", options, unused, text);
      }
    }
  }

  lemma StepKeepsRecords(s: State, e: Event)
    requires PostOk(s.post) && RecordsOk(s) && FreshIds(s, e)
    ensures RecordsOk(Next(s, e))
  {
    var t := Next(s, e);
    StepSound(s, e);
    if e.Dispatches? {
      DispatchKeepsRecords(s, e);
    } else {
      if e.Updates? {
        UpdateIsOneTask(s, e.id, e.input, e.unused, e.text);
      } else if e.Finishes? {
        FinishIsOneTask(s, e.id, e.options, e.unused, e.text);
      } else {
        OtherEventsLeaveRecords(s, e);
      }
      forall m | m in t.dispatches ensures RecordOk(t, m) {
        assert PolicyEvolves(s.post, t.post, m);
        assert RecordOk(s, m);
      }
    }
  }

  lemma DispatchKeepsRecords(s: State, e: Event)
    requires PostOk(s.post) && RecordsOk(s) && FreshIds(s, e) && e.Dispatches?
    requires Evolves(s.post, Next(s, e).post)
    ensures RecordsOk(Next(s, e))
  {
    var t := Next(s, e);
    DispatchOutcomes(s, e.supervisor, e.id, e.worker, e.expectedRevision, e.task, e.text);
    StepGrowsRecords(s, e);
    forall m | m in t.dispatches ensures RecordOk(t, m) {
      if m in s.dispatches {
        assert PolicyEvolves(s.post, t.post, m);
        assert RecordOk(s, m);
        OldRecordOk(s, t, m);
      } else {
        NewRecordOk(s, e.supervisor, e.id, e.worker, e.expectedRevision, e.task, e.text);
      }
    }
  }

  lemma OldRecordOk(s: State, t: State, m: Id)
    requires m in s.dispatches && RecordOk(s, m) && PolicyEvolves(s.post, t.post, m) && RecordsGrow(s, t)
    ensures RecordOk(t, m)
  {
  }

  lemma NewRecordOk(s: State, supervisor: Id, id: Id, worker: Id, expected: int, task: Option<TaskInput>, text: string)
    requires Activates(s, supervisor, id, worker, expected, task)
    ensures var t := Dispatch(s, supervisor, id, worker, expected, task, text).state;
      id in t.dispatches && RecordOk(t, id)
  {
    DispatchOutcomes(s, supervisor, id, worker, expected, task, text);
  }

}
