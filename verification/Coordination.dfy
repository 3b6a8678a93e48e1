/**
 Assignments, their supervisors, tasks and mail: apps/server/src/coordination/service.ts, tasks.ts and continuation.ts.
 An operation that throws inside its transaction leaves what the transaction found; an expiry outside it stays done.
 Texts, fresh message IDs and the order of a batch are parameters.
 */
module Coordination {
  import opened Common
  import opened InboxPolicy
  import Chains

  const AWAIT_ALERT_MS := 4 * 60 * 60000
  const BATCH_LIMIT := 20
  const MAIL_NOTICE_INTERVAL_MS := 900000

  datatype Status = Active | Waiting | Disconnected | Finished
  datatype Mode = Unattended | WaitingForInput
  datatype RecoveryStatus = Scheduled | Submitting | Submitted | Blocked | Stalled
  datatype Awaiting = Awaiting(description: string, startedAt: int, alerted: bool)
  datatype Control = Control(mode: Mode, supervisor: Option<Id>, awaiting: Option<Awaiting>, revision: nat, recovery: Option<RecoveryStatus>)

  datatype TaskState = Working | NeedsAction | Done
  datatype Task = Task(deliverable: string, doneWhen: string, evidencePath: string, state: TaskState, actionNeeded: Option<string>,
                       revision: nat)
  /** Each field may be absent; `actionNeeded` may also be given as null. */
  datatype TaskInput = TaskInput(deliverable: Option<string>, doneWhen: Option<string>, evidencePath: Option<string>,
                                 state: Option<TaskState>, actionNeeded: Option<Option<string>>)

  /** A collision-free digest of what a dispatch asks for. */
  datatype Fingerprint = Fingerprint(supervisor: Id, worker: Id, expectedRevision: int, task: Option<TaskInput>)
  datatype Dispatched = Dispatched(fingerprint: Fingerprint, taskRevision: nat)
  datatype Revision = Revision(worker: Id, revision: nat)

  /** How many coordination_events there are, and the greatest number each assignment has. */
  datatype EventLog = EventLog(count: nat, last: map<Id, nat>)
  /** Each reader's last digest of worker reports: when, and which were ready for it. */
  datatype Digests = Digests(at: map<Id, int>, members: map<Id, set<Id>>)

  datatype State = State(now: int, assignments: map<Id, Status>, sendOnly: set<Id>, paused: set<Id>, controls: map<Id, Control>,
                         tasks: map<Id, Task>, dispatches: map<Id, Dispatched>, dispatched: map<Revision, Id>,
                         log: EventLog, digests: Digests, post: Post)

  datatype Error = UnknownAssignment | ResumeFirst | SupervisorCycle | FinishedSupervisor | AwaitingNeedsUnattended
                 | TaskIncomplete | ActionMissing | InvalidOptions | DifferentContent | SendOnly | InboxFull | Refused(why: AckError)
                 | NotTheSupervisor | DispatchPaused | RevisionChanged | AlreadyDispatched | WorkerUnavailable | DuplicateKey
  datatype Reply = Reply(state: State, error: Option<Error>)

  // ---------- records ----------

  function ControlOf(s: State, id: Id): Control {
    if id in s.controls then s.controls[id] else Control(WaitingForInput, None, None, 0, None)
  }

  function TaskOf(s: State, id: Id): Option<Task> {
    if id in s.tasks then Some(s.tasks[id]) else None
  }

  function RevisionOf(s: State, id: Id): nat {
    if id in s.tasks then s.tasks[id].revision else 0
  }

  function LastEvent(s: State, id: Id): nat {
    if id in s.log.last then s.log.last[id] else 0
  }

  function AddEvent(s: State, id: Id): State {
    s.(log := EventLog(s.log.count + 1, s.log.last[id := s.log.count + 1]))
  }

  function SetControl(s: State, id: Id, control: Control): State {
    s.(controls := s.controls[id := control])
  }

  function LinksOf(controls: map<Id, Control>): map<Id, Id> {
    map id | id in controls && controls[id].supervisor.Some? :: controls[id].supervisor.value
  }

  function Links(s: State): map<Id, Id> {
    LinksOf(s.controls)
  }

  function Unfinished(s: State): set<Id> {
    set id | id in s.assignments && s.assignments[id] != Finished
  }

  function Expired(s: State): State {
    s.(post := Expire(s.post, s.now))
  }

  // ---------- continuation.ts ----------

  function SetContinuation(s: State, id: Id, mode: Mode, supervisor: Option<Option<Id>>): State {
    var prior := ControlOf(s, id);
    SetControl(s, id, Control(mode, if supervisor.Some? then supervisor.value else prior.supervisor, None, prior.revision + 1, None))
  }

  function SetAwaiting(s: State, id: Id, description: Option<string>): Result<State, Error> {
    var control := ControlOf(s, id);
    if description.Some? && control.mode != Unattended then Err(AwaitingNeedsUnattended)
    else
      var awaiting := if description.Some? then Some(Awaiting(description.value, s.now, false)) else None;
      var recovery := if description.Some? && control.recovery == Some(Submitted) then Some(Scheduled) else control.recovery;
      Ok(SetControl(s, id, control.(awaiting := awaiting, recovery := recovery, revision := control.revision + 1)))
  }

  /** Is the wait of `id` four hours old, not yet announced, and has it someone to announce it to? */
  predicate AlertDue(s: State, id: Id) {
    var control := ControlOf(s, id);
    && control.mode == Unattended && control.awaiting.Some? && !control.awaiting.value.alerted && control.supervisor.Some?
    && s.now - control.awaiting.value.startedAt >= AWAIT_ALERT_MS
    && control.supervisor.value in s.assignments
    && HasSpace(s.post, control.supervisor.value, P3)
  }

  function AlertOverdueAwait(s: State, id: Id, unused: Id, text: string): State {
    AlertOnce(Expired(s), id, unused, text)
  }

  function AlertOnce(s: State, id: Id, unused: Id, text: string): State {
    if !AlertDue(s, id) then s
    else
      var control := ControlOf(s, id);
      var policy := PolicyFor(id, control.supervisor.value, text, Options(None, None, None), Overdue, s.now);
      SetControl(s.(post := Insert(s.post, unused, policy, text)), id,
                 control.(awaiting := Some(control.awaiting.value.(alerted := true))))
  }

  // ---------- tasks.ts ----------

  predicate Blank(s: string) {
    forall c :: c in s ==> c == ' ' || c == '\t' || c == '\n' || c == '\r'
  }

  function Merged(given: Option<string>, prior: Option<string>): string {
    if given.Some? then given.value else if prior.Some? then prior.value else ""
  }

  function Merge(prior: Option<Task>, input: TaskInput): Task {
    var state := if input.state.Some? then input.state.value else if prior.Some? then prior.value.state else Working;
    var action := if input.actionNeeded.Some? then input.actionNeeded.value else if prior.Some? then prior.value.actionNeeded else None;
    Task(Merged(input.deliverable, if prior.Some? then Some(prior.value.deliverable) else None),
         Merged(input.doneWhen, if prior.Some? then Some(prior.value.doneWhen) else None),
         Merged(input.evidencePath, if prior.Some? then Some(prior.value.evidencePath) else None),
         state, action, (if prior.Some? then prior.value.revision else 0) + 1)
  }

  function UpdateTask(prior: Option<Task>, input: TaskInput): Result<Task, Error> {
    var task := Merge(prior, input);
    if Blank(task.deliverable) || Blank(task.doneWhen) || Blank(task.evidencePath) then Err(TaskIncomplete)
    else if task.state == NeedsAction && (task.actionNeeded.None? || Blank(task.actionNeeded.value)) then Err(ActionMissing)
    else
      var value := if task.state == NeedsAction then task else task.(actionNeeded := None);
      if prior.Some? && prior.value.(revision := value.revision) == value then Ok(prior.value) else Ok(value)
  }

  /** Is this the current, deliverable command of its worker? None when the source throws: the message has no policy. */
  function DispatchEligible(s: State, id: Id): Option<bool> {
    if id !in s.post.policies then None
    else
      var policy := s.post.policies[id];
      var control := ControlOf(s, policy.recipient);
      Some(&& policy.origin == FromDispatch && !policy.expired
           && policy.sender in s.assignments && s.assignments[policy.sender] != Finished
           && id in s.dispatches && policy.recipient in s.tasks
           && s.dispatches[id].taskRevision == s.tasks[policy.recipient].revision && s.tasks[policy.recipient].state == Working
           && policy.recipient in s.assignments && s.assignments[policy.recipient] != Finished
           && control.supervisor == Some(policy.sender) && control.mode == Unattended && control.awaiting.None?
           && control.recovery != Some(Blocked) && control.recovery != Some(Stalled)
           && policy.recipient !in s.paused)
  }

  // ---------- service.ts ----------

  function Send(s: State, sender: Id, id: Id, recipient: Id, text: string, options: Options): Reply {
    if recipient !in s.assignments then Reply(s, Some(UnknownAssignment))
    else SendSwept(Expired(s), sender, id, recipient, text, options)
  }

  function SendSwept(s: State, sender: Id, id: Id, recipient: Id, text: string, options: Options): Reply {
    if id in s.post.policies then
      Reply(s, if s.post.policies[id].hash != Hash(sender, recipient, text) then Some(DifferentContent) else None)
    else if !ValidOptions(options) then Reply(s, Some(InvalidOptions))
    else if recipient in s.sendOnly then Reply(s, Some(SendOnly))
    else if !HasSpace(s.post, recipient, PriorityOf(options)) then Reply(s, Some(InboxFull))
    else if id in s.post.rows then Reply(s, Some(DuplicateKey))
    else Reply(s.(post := Insert(s.post, id, PolicyFor(sender, recipient, text, options, Direct, s.now), text)), None)
  }

  datatype Channel = FromSupervisor | FromWorker | FromPeer

  function ChannelOf(s: State, row: Row): Channel {
    if ControlOf(s, row.recipient).supervisor == Some(row.sender) then FromSupervisor
    else if ControlOf(s, row.sender).supervisor == Some(row.recipient) then FromWorker
    else FromPeer
  }

  predicate DigestDue(s: State, reader: Id) {
    s.now - (if reader in s.digests.at then s.digests.at[reader] else 0) >= MAIL_NOTICE_INTERVAL_MS
  }

  predicate InLastDigest(s: State, reader: Id, id: Id) {
    reader in s.digests.members && id in s.digests.members[reader]
  }

  predicate Offered(s: State, reader: Id, id: Id) {
    Offerable(s.post, reader, s.now, id)
  }

  /** Is something urgent among what can be offered? `order` lists the rows as the query sorts them, by creation time and ID. */
  predicate Urgent(s: State, reader: Id, order: seq<Id>) {
    exists id :: id in order && Offered(s, reader, id) && s.post.policies[id].priority == P1
  }

  /** A worker's report: P2 mail from a supervised worker. */
  predicate IsReport(s: State, id: Id) {
    id in s.post.rows && id in s.post.policies && s.post.policies[id].priority == P2 && ChannelOf(s, s.post.rows[id]) == FromWorker
  }

  /** The filter of `inbox`: `mail` takes all (`awareness`); a hook takes no P3, and worker mail only when a digest is due,
      something urgent goes out anyway, or it belongs to the digest just begun. */
  predicate Passes(s: State, reader: Id, awareness: bool, urgent: bool, id: Id) {
    && Offered(s, reader, id)
    && (awareness
        || (s.post.policies[id].priority != P3
            && (s.post.policies[id].priority == P1 || ChannelOf(s, s.post.rows[id]) != FromWorker || DigestDue(s, reader) || urgent
                || (s.post.rows[id].suppliedAt.None? && InLastDigest(s, reader, id)))))
  }

  function OfPriority(s: State, reader: Id, awareness: bool, urgent: bool, order: seq<Id>, priority: Priority): seq<Id>
    decreases |order|
  {
    if order == [] then []
    else
      var rest, last := OfPriority(s, reader, awareness, urgent, order[..|order| - 1], priority), order[|order| - 1];
      if Passes(s, reader, awareness, urgent, last) && s.post.policies[last].priority == priority then rest + [last] else rest
  }

  /** The sort by priority keeps the order of creation within each. */
  function Selected(s: State, reader: Id, awareness: bool, order: seq<Id>): seq<Id> {
    var urgent := Urgent(s, reader, order);
    OfPriority(s, reader, awareness, urgent, order, P1) + OfPriority(s, reader, awareness, urgent, order, P2)
    + OfPriority(s, reader, awareness, urgent, order, P3)
  }

  function Batch(selected: seq<Id>): seq<Id> {
    if |selected| <= BATCH_LIMIT then selected else selected[..BATCH_LIMIT]
  }

  /** A digest that goes out is remembered with all the reports that were ready for it. */
  function NoteDigest(s: State, reader: Id, urgent: bool, selected: seq<Id>): State {
    if (DigestDue(s, reader) || urgent) && exists id :: id in Batch(selected) && IsReport(s, id)
    then s.(digests := Digests(s.digests.at[reader := s.now], s.digests.members[reader := set id | id in selected && IsReport(s, id)]))
    else s
  }

  /** `poll` (without awareness mail) and `mail` (with it). */
  function Mail(s: State, id: Id, awareness: bool, supply: bool, order: seq<Id>): Reply {
    if id !in s.assignments then Reply(s, Some(UnknownAssignment))
    else Reply(Inbox(Expired(s), id, awareness, supply, order), None)
  }

  function Inbox(s: State, reader: Id, awareness: bool, supply: bool, order: seq<Id>): State {
    var selected := Selected(s, reader, awareness, order);
    if !supply then s
    else
      SelectionIsOfferable(s, reader, awareness, order);
      NoteDigest(s, reader, Urgent(s, reader, order), selected).(post := Supply(s.post, Batch(selected), s.now))
  }

  lemma {:induction false} OfPriorityIs(s: State, reader: Id, awareness: bool, urgent: bool, order: seq<Id>, priority: Priority, id: Id)
    ensures id in OfPriority(s, reader, awareness, urgent, order, priority)
            <==> id in order && Passes(s, reader, awareness, urgent, id) && s.post.policies[id].priority == priority
    decreases |order|
  {
    if order != [] {
      assert order == order[..|order| - 1] + [order[|order| - 1]];
      OfPriorityIs(s, reader, awareness, urgent, order[..|order| - 1], priority, id);
    }
  }

  /** What is selected is exactly what passes the filter. */
  lemma SelectionIs(s: State, reader: Id, awareness: bool, order: seq<Id>, id: Id)
    ensures id in Selected(s, reader, awareness, order)
            <==> id in order && Passes(s, reader, awareness, Urgent(s, reader, order), id)
  {
    var urgent := Urgent(s, reader, order);
    OfPriorityIs(s, reader, awareness, urgent, order, P1, id);
    OfPriorityIs(s, reader, awareness, urgent, order, P2, id);
    OfPriorityIs(s, reader, awareness, urgent, order, P3, id);
  }

  lemma SelectionIsOfferable(s: State, reader: Id, awareness: bool, order: seq<Id>)
    ensures forall id :: id in Batch(Selected(s, reader, awareness, order)) ==> Offerable(s.post, reader, s.now, id)
  {
    forall id | id in Batch(Selected(s, reader, awareness, order)) ensures Offerable(s.post, reader, s.now, id) {
      SelectionIs(s, reader, awareness, order, id);
    }
  }

  function FlushHandoffs(s: State, keys: seq<HandoffKey>): State {
    s.(post := Flush(Expire(s.post, s.now), keys, s.assignments.Keys))
  }

  function Acknowledge(s: State, id: Id, ids: seq<Id>, keys: seq<HandoffKey>): Reply {
    match AcknowledgeAll(AckOutcome(Expire(s.post, s.now), [], []), id, ids, s.now)
    case Err(e) => Reply(s, Some(Refused(e)))
    case Ok(o) => Reply(FlushHandoffs(s.(post := o.post), keys), None)
  }

  function Notify(s: State, worker: Id, reason: string, options: Options, unused: Id, text: string): Result<State, Error> {
    var control := ControlOf(s, worker);
    if control.supervisor.None? || control.supervisor.value !in s.assignments then Ok(s)
    else
      var key := HandoffKey(worker, LastEvent(s, worker), RevisionOf(s, worker), reason);
      var full := Options(Some(if options.priority.Some? then options.priority.value else P2),
                          Some(if options.validFor.Some? then options.validFor.value else DURABLE_VALID_FOR), options.wakeReason);
      if key in s.post.handoffs then Ok(s)
      else if !ValidOptions(full) then Err(InvalidOptions)
      else Ok(s.(post := HandOff(s.post, key, unused, PolicyFor(worker, control.supervisor.value, text, full, FromHandoff, s.now), text)))
  }

  /** `describes`: a description, checkout or summary is given. */
  datatype UpdateInput = UpdateInput(describes: bool, status: Option<Status>, continuation: Option<Mode>, supervisor: Option<Option<Id>>,
                                     task: Option<TaskInput>, awaiting: Option<Option<string>>, options: Options)

  function SupervisorVerdict(s: State, id: Id, input: UpdateInput): Option<Error> {
    if input.supervisor.None? || input.supervisor.value.None? then None
    else
      match Chains.Check(Links(s), Unfinished(s), {id}, input.supervisor.value)
      case Clear => None
      case Cycle => Some(SupervisorCycle)
      case Inadmissible(at) => Some(if at in s.assignments then FinishedSupervisor else UnknownAssignment)
  }

  function Redirect(s: State, id: Id, input: UpdateInput): State {
    if input.continuation.Some? then AddEvent(SetContinuation(s, id, input.continuation.value, input.supervisor), id)
    else if input.supervisor.Some? then
      var control := ControlOf(s, id);
      AddEvent(SetControl(s, id, control.(supervisor := input.supervisor.value, revision := control.revision + 1)), id)
    else s
  }

  function Update(s: State, id: Id, input: UpdateInput, unused: Id, text: string): Reply {
    if id !in s.assignments then Reply(s, Some(UnknownAssignment))
    else
      var status := s.assignments[id];
      if status == Finished && input.status != Some(Active) && input.continuation != Some(Unattended)
         && !input.describes && input.supervisor.None? && input.task.None? && input.awaiting.None?
      then Reply(s, None)
      else if (status == Finished && input.status != Some(Active)) || status == Disconnected then Reply(s, Some(ResumeFirst))
      else
        match UpdateFrom(s, id, input, unused, text)
        case Ok(t) => Reply(t, None)
        case Err(e) => Reply(s, Some(e))
  }

  function UpdateFrom(s: State, id: Id, input: UpdateInput, unused: Id, text: string): Result<State, Error>
    requires id in s.assignments
  {
    match BeforeTask(s, id, input)
    case Err(e) => Err(e)
    case Ok(t) => if input.task.None? then Ok(t) else UpdateTaskAndNotify(t, id, input.task.value, input.options, unused, text)
  }

  /** What `update` does before it turns to its task input. */
  function BeforeTask(s: State, id: Id, input: UpdateInput): Result<State, Error>
    requires id in s.assignments
  {
    var verdict := SupervisorVerdict(s, id, input);
    if verdict.Some? then Err(verdict.value)
    else
      var s1 := Redirect(s, id, input);
      var awaited := if input.awaiting.Some? then SetAwaiting(s1, id, input.awaiting.value) else Ok(s1);
      if awaited.Err? then awaited
      else
        var status := if input.status.Some? then input.status.value else s.assignments[id];
        var s2 := awaited.value.(assignments := s.assignments[id := status]);
        Ok(if input.describes then AddEvent(s2, id) else s2)
  }

  function UpdateTaskAndNotify(s: State, id: Id, input: TaskInput, options: Options, unused: Id, text: string): Result<State, Error> {
    var prior := TaskOf(s, id);
    match UpdateTask(prior, input)
    case Err(e) => Err(e)
    case Ok(task) =>
      var s1 := s.(tasks := s.tasks[id := task]);
      var news := prior.None? || task.state != prior.value.state || (task.state == NeedsAction && task.actionNeeded != prior.value.actionNeeded);
      if news && task.state == Done then Notify(s1, id, "A supervised worker completed its task.", options, unused, text)
      else if news && task.state == NeedsAction && task.actionNeeded.Some?
      then Notify(s1, id, "A supervised worker needs action: " + task.actionNeeded.value, options, unused, text)
      else Ok(s1)
  }

  const NO_TASK_INPUT := TaskInput(None, None, None, None, None)

  function Dispatch(s: State, supervisor: Id, id: Id, worker: Id, expectedRevision: int, task: Option<TaskInput>, text: string): Reply {
    DispatchSwept(Expired(s), supervisor, id, worker, expectedRevision, task, text)
  }

  function DispatchSwept(s: State, supervisor: Id, id: Id, worker: Id, expectedRevision: int, task: Option<TaskInput>, text: string): Reply {
    var fingerprint := Fingerprint(supervisor, worker, expectedRevision, task);
    if id in s.dispatches then Reply(s, if s.dispatches[id].fingerprint != fingerprint then Some(DifferentContent) else None)
    else
      match DispatchNew(s, supervisor, id, worker, expectedRevision, task, text)
      case Err(e) => Reply(s, Some(e))
      case Ok(t) => Reply(t, None)
  }

  function DispatchNew(s: State, supervisor: Id, id: Id, worker: Id, expectedRevision: int, task: Option<TaskInput>, text: string)
    : Result<State, Error>
  {
    match DispatchTask(s, supervisor, worker, expectedRevision, task)
    case Err(e) => Err(e)
    case Ok(next) =>
      if Revision(worker, next.revision) in s.dispatched then Err(AlreadyDispatched)
      else if worker in s.sendOnly || !HasSpace(s.post, worker, P2) then Err(WorkerUnavailable)
      else if id in s.post.rows then Err(DuplicateKey)
      else
        var record := Dispatched(Fingerprint(supervisor, worker, expectedRevision, task), next.revision);
        Ok(InsertDispatch(s.(tasks := s.tasks[worker := next]), supervisor, id, worker, record, text))
  }

  function InsertDispatch(s: State, supervisor: Id, id: Id, worker: Id, record: Dispatched, text: string): State {
    var policy := PolicyFor(supervisor, worker, text, Options(Some(P2), Some(DURABLE_VALID_FOR), None), FromDispatch, s.now);
    AddEvent(s.(post := Insert(s.post, id, policy, text),
                dispatches := s.dispatches[id := record],
                dispatched := s.dispatched[Revision(worker, record.taskRevision) := id]), supervisor)
  }

  /** The guards of a dispatch, and the worker task it activates. */
  function DispatchTask(s: State, supervisor: Id, worker: Id, expectedRevision: int, task: Option<TaskInput>): Result<Task, Error> {
    var control := ControlOf(s, worker);
    if worker !in s.assignments then Err(UnknownAssignment)
    else if control.supervisor != Some(supervisor) then Err(NotTheSupervisor)
    else if supervisor !in s.assignments then Err(UnknownAssignment)
    else if s.assignments[supervisor] == Finished || s.assignments[worker] == Finished || control.mode != Unattended
            || control.awaiting.Some? || control.recovery == Some(Blocked) || control.recovery == Some(Stalled) || worker in s.paused
    then Err(DispatchPaused)
    else if RevisionOf(s, worker) != expectedRevision then Err(RevisionChanged)
    else UpdateTask(TaskOf(s, worker), (if task.Some? then task.value else NO_TASK_INPUT).(state := Some(Working)))
  }

  predicate StillOwed(s: State, id: Id) {
    TaskOf(s, id).None? || TaskOf(s, id).value.state != Done
  }

  function Finish(s: State, id: Id, options: Options, unused: Id, text: string): Reply {
    if id !in s.assignments then Reply(s, Some(UnknownAssignment))
    else if s.assignments[id] == Finished then Reply(s, None)
    else if ControlOf(s, id).supervisor.Some? && StillOwed(s, id) && !ValidOptions(options) then Reply(s, Some(InvalidOptions))
    else
      match CloseAndReport(s, id, options, unused, text)
      case Ok(t) => Reply(t, None)
      case Err(e) => Reply(s, Some(e))
  }

  function CloseAndReport(s: State, id: Id, options: Options, unused: Id, text: string): Result<State, Error> {
    match Close(s, id)
    case Err(e) => Err(e)
    case Ok(closed) =>
      if !StillOwed(s, id) then Ok(closed)
      else Notify(closed, id, "A supervised worker completed its assignment.", options, unused, text)
  }

  function Close(s: State, id: Id): Result<State, Error> {
    var s1 := SetContinuation(s, id, WaitingForInput, None);
    var s2 := AddEvent(s1.(assignments := s1.assignments[id := Finished]), id);
    if TaskOf(s, id).None? then Ok(s2)
    else
      match UpdateTask(TaskOf(s, id), NO_TASK_INPUT.(state := Some(Done)))
      case Err(e) => Err(e)
      case Ok(task) => Ok(s2.(tasks := s2.tasks[id := task]))
  }

  /** `disconnect`, and each row that `reconcileProcesses` finds without its process. */
  function Disconnect(s: State, id: Id, unused: Id, text: string): Reply {
    if id !in s.assignments then Reply(s, Some(UnknownAssignment))
    else if s.assignments[id] == Finished || s.assignments[id] == Disconnected then Reply(s, None)
    else
      var s1 := AddEvent(s.(assignments := s.assignments[id := Disconnected]), id);
      if ControlOf(s1, id).mode != Unattended || !StillOwed(s1, id) then Reply(s1, None)
      else
        match Notify(s1, id, "An unattended supervised worker disconnected.", Options(None, None, None), unused, text)
        case Ok(t) => Reply(t, None)
        case Err(e) => Reply(s1, Some(e))
  }

  /** `register`, with what GrantService.bindAssignment does for a session an agent launched (`launchedBy`) that holds a grant. */
  function Register(s: State, id: Id, accepts: Option<bool>, launchedBy: Option<Id>): State {
    var status := if id in s.assignments && s.assignments[id] == Finished then Finished else Active;
    var s1 := s.(assignments := s.assignments[id := status],
                 sendOnly := if accepts == Some(false) then s.sendOnly + {id} else if accepts == Some(true) then s.sendOnly - {id} else s.sendOnly);
    AddEvent(if launchedBy.Some? && ControlOf(s1, id).revision == 0 then Bind(s1, id, launchedBy.value) else s1, id)
  }

  function Bind(s: State, id: Id, supervisor: Id): State {
    SetContinuation(s, id, Unattended, Some(if supervisor in Unfinished(s) then Some(supervisor) else None))
  }

  // ---------- runs ----------

  datatype Event = Tick(ms: nat)
                 | Registers(id: Id, accepts: Option<bool>, launchedBy: Option<Id>)
                 | Sends(sender: Id, id: Id, recipient: Id, text: string, options: Options)
                 | Reads(id: Id, awareness: bool, supply: bool, order: seq<Id>)
                 | Acknowledges(id: Id, ids: seq<Id>, keys: seq<HandoffKey>)
                 | Reconciles(keys: seq<HandoffKey>)
                 | Updates(id: Id, input: UpdateInput, unused: Id, text: string)
                 | Dispatches(supervisor: Id, id: Id, worker: Id, expectedRevision: int, task: Option<TaskInput>, text: string)
                 | Finishes(id: Id, options: Options, unused: Id, text: string)
                 | Disconnects(id: Id, unused: Id, text: string)
                 | Alerts(id: Id, unused: Id, text: string)
                 | Expires
                 | HumanSets(id: Id, mode: Mode)
                 | RecoveryMoves(id: Id, recovery: Option<RecoveryStatus>)
                 | Pauses(id: Id, on: bool)

  function Next(s: State, e: Event): State {
    match e
    case Tick(ms) => s.(now := s.now + ms)
    case Registers(id, accepts, launchedBy) => Register(s, id, accepts, launchedBy)
    case Sends(sender, id, recipient, text, options) => Send(s, sender, id, recipient, text, options).state
    case Reads(id, awareness, supply, order) => Mail(s, id, awareness, supply, order).state
    case Acknowledges(id, ids, keys) => Acknowledge(s, id, ids, keys).state
    case Reconciles(keys) => FlushHandoffs(s, keys)
    case Updates(id, input, unused, text) => Update(s, id, input, unused, text).state
    case Dispatches(supervisor, id, worker, expected, task, text) => Dispatch(s, supervisor, id, worker, expected, task, text).state
    case Finishes(id, options, unused, text) => Finish(s, id, options, unused, text).state
    case Disconnects(id, unused, text) => Disconnect(s, id, unused, text).state
    case Alerts(id, unused, text) => AlertOverdueAwait(s, id, unused, text)
    case Expires => Expired(s)
    case HumanSets(id, mode) => SetContinuation(s, id, mode, None)
    case RecoveryMoves(id, recovery) => SetControl(s, id, ControlOf(s, id).(recovery := recovery))
    case Pauses(id, on) => s.(paused := if on then s.paused + {id} else s.paused - {id})
  }

  function Initial(now: int): State {
    State(now, map[], {}, {}, map[], map[], map[], map[], EventLog(0, map[]), Digests(map[], map[]), NoPost)
  }

  function Execute(s: State, events: seq<Event>): State
    decreases |events|
  {
    if events == [] then s else Execute(Next(s, events[0]), events[1..])
  }
}
