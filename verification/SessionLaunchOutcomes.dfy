/** Why a request ends as it does, what a call needs, and what becomes of a wake-up that comes during a pass. */
module SessionLaunchOutcomes {
  import opened Common
  import opened SessionLaunches
  import opened SessionLaunchSafety

  // ---------- authority, spelled out ----------

  /** Who a grant is for, at this moment: the assignment itself, one it was launched with, its session or its project. */
  predicate IsFor(g: Grants, grant: Grant, id: Id, assignment: Id) {
    var binding := if assignment in g.bindings then g.bindings[assignment] else Binding(None, {}, None);
    || id in binding.inherited
    || grant.definition.grantee == ToAssignment(assignment)
    || (binding.session.Some? && grant.definition.grantee == ToSession(binding.session.value))
    || (binding.project.Some? && grant.definition.grantee == ToProject(binding.project.value))
  }

  predicate StillRuns(g: Grants, definition: Definition) {
    definition.endsWith.Some? ==> definition.endsWith.value in g.finished && !g.finished[definition.endsWith.value]
  }

  lemma HoldsIff(g: Grants, assignment: Id, id: Id)
    ensures Holds(g, assignment, id)
            <==> id in g.table && g.table[id].status == Active && StillRuns(g, g.table[id].definition) && IsFor(g, g.table[id], id, assignment)
  {
  }

  /** At the moment a session action is called the grant the request names is active, its assignment has not ended, it is for
      the requester, it lists the action, and it names the project or no project at all. */
  lemma CallsAreCovered(s: State, e: Event, id: Id)
    requires Inv(s) && Invokes(s, e, id)
    ensures id in s.requests && s.requests[id].grant in Next(s, e).grants.table
    ensures var request, g := s.requests[id], Next(s, e).grants;
      var grant := g.table[request.grant];
      && grant.status == Active && StillRuns(g, grant.definition) && IsFor(g, grant, request.grant, request.assignment)
      && request.action in grant.definition.actions
      && (grant.definition.projects == {} || request.project in grant.definition.projects)
  {
    InvocationIsAuthorized(s, e, id);
    HoldsIff(Next(s, e).grants, s.requests[id].assignment, s.requests[id].grant);
  }

  /** Under a grant that is limited to models, a launch or restart is called only in the step that learned that the session's
      model is one of them. */
  lemma CallsUseListedModels(s: State, e: Event, id: Id)
    requires Inv(s) && Invokes(s, e, id) && id in s.requests && s.requests[id].action != CloseSession
    requires s.requests[id].grant in s.grants.table && s.grants.table[s.requests[id].grant].definition.models != {}
    ensures e.ModelAnswered? && e.model.Model? && e.model.name in s.grants.table[s.requests[id].grant].definition.models
  {
    match e
    case RowTaken(order, look) => TakingCallsOnlyCloses(s, order, look);
    case ProjectAnswered(answer, room) =>
    case ModelAnswered(model, room) =>
    case _ =>
  }

  lemma TakingCallsOnlyCloses(s: State, order: seq<Id>, look: Look)
    requires Inv(s) && !s.pc.Acting? && NextRow(s, order, look).pc.Acting?
    ensures NextRow(s, order, look).pc.id in s.requests && s.requests[NextRow(s, order, look).pc.id].action == CloseSession
  {
    assert s.pc.rest[0] in s.pc.rest;
  }

  /** A launch or restart is called only for a project that is configured and enabled. */
  lemma CallsAreInEnabledProjects(s: State, e: Event, id: Id)
    requires Inv(s) && Invokes(s, e, id) && e.ProjectAnswered?
    ensures e.answer == Configured(true) && e.room
  {
  }

  // ---------- why a request is completed ----------

  /** The session of an interrupted request is there and bound; after a restart it is of a new epoch. */
  predicate ShowsDone(look: Look, action: Action) {
    look.Found? && look.restorable && look.status == SessionBound && (action == LaunchSession || look.newEpoch)
  }

  predicate Becomes(s: State, e: Event, id: Id, status: Status) {
    id in s.requests && s.requests[id].status != status && id in Next(s, e).requests && Next(s, e).requests[id].status == status
  }

  predicate Took(s: State, id: Id) {
    s.pc.Between? && s.pc.rest != [] && s.pc.rest[0].id == id && !s.stopped
  }

  predicate Awaited(s: State, id: Id) {
    (s.pc.AwaitingProject? || s.pc.AwaitingModel?) && s.pc.id == id
  }

  predicate ReturnsFor(s: State, e: Event, id: Id, outcome: Outcome) {
    s.pc.Acting? && s.pc.id == id && e == ActionReturned(outcome)
  }

  lemma OnlyTheRowTakenChanges(s: State, row: Snapshot, rest: seq<Snapshot>, look: Look, id: Id)
    requires id in s.requests && id != row.id
    ensures id in Process(s, row, rest, look).requests && Process(s, row, rest, look).requests[id] == s.requests[id]
  {
    if row.id in s.requests && s.requests[row.id].action != CloseSession {
      var (t, goesOn) := Resume(s, row.id, s.requests[row.id], rest, look);
      ResumeChangesOneRow(s, row.id, s.requests[row.id], rest, look, id);
      CheckChangesOneRow(if row.status == Starting then t else s, row.id, rest, id);
    }
  }

  lemma ResumeChangesOneRow(s: State, row: Id, request: Request, rest: seq<Snapshot>, look: Look, id: Id)
    requires id in s.requests && id != row && row in s.requests
    ensures var t := Resume(s, row, request, rest, look).0; id in t.requests && t.requests[id] == s.requests[id]
  {
  }

  lemma CheckChangesOneRow(s: State, row: Id, rest: seq<Snapshot>, id: Id)
    requires id in s.requests && id != row && row in s.requests
    ensures id in CheckGrant(s, row, rest).requests && CheckGrant(s, row, rest).requests[id] == s.requests[id]
  {
  }

  /** What taking a row can make of it, from `starting`: done or failed by what the session shows, and otherwise it starts over,
      unless it may no longer do so. */
  lemma TakingEndsFor(s: State, row: Snapshot, rest: seq<Snapshot>, look: Look)
    requires SnapshotOk(row) && row.id in s.requests
    ensures var t, before := Process(s, row, rest, look), s.requests[row.id];
      && row.id in t.requests
      && (t.requests[row.id].status == Completed && before.status != Completed
          ==> before.status == Starting && before.action != CloseSession && ShowsDone(look, before.action))
      && (t.requests[row.id].status == Failed && before.status != Failed
          ==> before.status == Starting && before.action != CloseSession && look.Found? && !ShowsDone(look, before.action)
              && look.status != SessionStarting)
      && (t.requests[row.id].status == Cancelled && before.status != Cancelled
          ==> !Unfinished(s.grants, before.assignment) || !Holds(s.grants, before.assignment, before.grant)
              || (before.action == CloseSession && !MayClose(s, before)))
  {
    var before := s.requests[row.id];
    if before.action == CloseSession {
    } else if row.status == Starting {
      ResumeEndsFor(s, row.id, before, rest, look);
      var (t, goesOn) := Resume(s, row.id, before, rest, look);
      CheckEndsFor(t, row.id, rest);
    } else {
      CheckEndsFor(s, row.id, rest);
    }
  }

  lemma ResumeEndsFor(s: State, id: Id, request: Request, rest: seq<Snapshot>, look: Look)
    requires id in s.requests && request == s.requests[id]
    ensures var (t, goesOn) := Resume(s, id, request, rest, look);
      && id in t.requests && t.grants == s.grants && t.requests[id] == request.(status := t.requests[id].status)
      && (if request.status != Starting then t.requests[id].status == request.status && !goesOn
          else if ShowsDone(look, request.action) then t.requests[id].status == Completed && !goesOn
          else if look.Found? && look.status == SessionStarting then t.requests[id].status == Starting && !goesOn
          else if look.Found? && (!look.restorable || look.status == SessionError || look.status == SessionEnded)
          then t.requests[id].status == Failed && !goesOn
          else t.requests[id].status == Queued && goesOn)
  {
  }

  lemma CheckEndsFor(s: State, id: Id, rest: seq<Snapshot>)
    requires id in s.requests
    ensures var t, before := CheckGrant(s, id, rest), s.requests[id];
      && id in t.requests
      && (if before.status == Queued && (!Unfinished(s.grants, before.assignment) || !Holds(s.grants, before.assignment, before.grant))
          then t.requests[id].status == Cancelled else t.requests[id].status == before.status)
  {
  }

  /** The answer to a check shows that the request may not go on: its project is disabled or not covered, its model is not
      listed, or its grant was lost while it waited. */
  predicate RefusedBy(s: State, e: Event, id: Id) {
    && Awaited(s, id) && id in s.requests
    && (|| (e.ProjectAnswered? && e.answer.Configured?
            && (!e.answer.enabled || !Covers(s.pc.grant, s.requests[id].action, s.requests[id].project)))
        || (e.ModelAnswered? && (e.model.NoModel? || (e.model.Model? && e.model.name !in s.pc.grant.models)))
        || ((e.ProjectAnswered? || e.ModelAnswered?) && !Holds(s.grants, s.requests[id].assignment, s.requests[id].grant)))
  }

  /** Only an answer of the session action, of a check or of a caller ends the request in this step. */
  predicate EndsByAnswer(s: State, e: Event, id: Id) {
    id in s.requests && id in Next(s, e).requests && Next(s, e).requests[id].status != s.requests[id].status ==>
      match Next(s, e).requests[id].status
      case Completed => ReturnsFor(s, e, id, Done)
      case Failed =>
        ReturnsFor(s, e, id, Broken) || (Awaited(s, id) && e.ProjectAnswered? && !e.answer.Configured?)
        || (Awaited(s, id) && e.ModelAnswered? && e.model.ModelLookupFailed?)
      case Cancelled =>
        RefusedBy(s, e, id)
        || (e.CancelCalled? && e.id == id && s.requests[id].status == Queued
            && (e.caller.Some? ==> e.caller.value == s.requests[id].assignment))
      case _ => true
  }

  lemma ReservationEndsFor(s: State, id: Id, rest: seq<Snapshot>, room: bool, other: Id)
    requires id in s.requests && other in s.requests
    ensures var t := Reserve(s, id, rest, room);
      && other in t.requests
      && (t.requests[other].status == s.requests[other].status
          || (other == id && t.requests[id].status == Starting)
          || (other == id && t.requests[id].status == Cancelled && !Holds(s.grants, s.requests[id].assignment, s.requests[id].grant)))
  {
  }

  lemma ProjectAnswerEnds(s: State, answer: ProjectAnswer, room: bool, id: Id)
    requires Inv(s)
    ensures EndsByAnswer(s, ProjectAnswered(answer, room), id)
  {
    if s.pc.AwaitingProject? && id in s.requests {
      ReservationEndsFor(s, s.pc.id, s.pc.rest, room, id);
    }
  }

  lemma ModelAnswerEnds(s: State, model: ModelAnswer, room: bool, id: Id)
    requires Inv(s)
    ensures EndsByAnswer(s, ModelAnswered(model, room), id)
  {
    if s.pc.AwaitingModel? && id in s.requests {
      ReservationEndsFor(s, s.pc.id, s.pc.rest, room, id);
    }
  }

  lemma EndsOtherwise(s: State, e: Event, id: Id)
    requires Inv(s) && !e.RowTaken?
    ensures EndsByAnswer(s, e, id)
  {
    match e
    case ProjectAnswered(answer, room) => ProjectAnswerEnds(s, answer, room, id);
    case ModelAnswered(model, room) => ModelAnswerEnds(s, model, room, id);
    case _ =>
  }

  /** In any run a request becomes completed only when its session action is answered as done, or when the action was
      interrupted and its session is found to be there. */
  lemma CompletedOnlyIf(before: seq<Event>, e: Event, id: Id)
    requires Becomes(Execute(EMPTY, before), e, id, Completed)
    ensures var s := Execute(EMPTY, before);
      || ReturnsFor(s, e, id, Done)
      || (Took(s, id) && e.RowTaken? && s.requests[id].status == Starting && s.requests[id].action != CloseSession
          && ShowsDone(e.look, s.requests[id].action))
  {
    RunIsSafe(EMPTY, before);
    if e.RowTaken? {
      EndsWhenTaken(Execute(EMPTY, before), e, id);
    } else {
      EndsOtherwise(Execute(EMPTY, before), e, id);
    }
  }

  lemma EndsWhenTaken(s: State, e: Event, id: Id)
    requires Inv(s) && id in s.requests
    ensures var t := Next(s, e);
      e.RowTaken? && id in t.requests && t.requests[id].status != s.requests[id].status ==>
        && Took(s, id)
        && (t.requests[id].status == Completed
            ==> s.requests[id].status == Starting && s.requests[id].action != CloseSession && ShowsDone(e.look, s.requests[id].action))
        && (t.requests[id].status == Failed
            ==> s.requests[id].status == Starting && s.requests[id].action != CloseSession && e.look.Found?
                && !ShowsDone(e.look, s.requests[id].action) && e.look.status != SessionStarting)
        && (t.requests[id].status == Cancelled
            ==> !Unfinished(s.grants, s.requests[id].assignment) || !Holds(s.grants, s.requests[id].assignment, s.requests[id].grant)
                || (s.requests[id].action == CloseSession && !MayClose(s, s.requests[id])))
  {
    if e.RowTaken? && s.pc.Between? && s.pc.rest != [] && !s.stopped {
      assert s.pc.rest[0] in s.pc.rest;
      if s.pc.rest[0].id == id {
        TakingEndsFor(s, s.pc.rest[0], s.pc.rest[1..], e.look);
      } else {
        OnlyTheRowTakenChanges(s, s.pc.rest[0], s.pc.rest[1..], e.look, id);
      }
    }
  }

  /** A request fails only when its action broke, when its interrupted session is found to be over, or when the project or the
      model cannot be looked up. */
  lemma FailedOnlyIf(before: seq<Event>, e: Event, id: Id)
    requires Becomes(Execute(EMPTY, before), e, id, Failed)
    ensures var s := Execute(EMPTY, before);
      || ReturnsFor(s, e, id, Broken)
      || (Took(s, id) && e.RowTaken? && e.look.Found? && !ShowsDone(e.look, s.requests[id].action) && e.look.status != SessionStarting)
      || (Awaited(s, id) && e.ProjectAnswered? && !e.answer.Configured?)
      || (Awaited(s, id) && e.ModelAnswered? && e.model.ModelLookupFailed?)
  {
    RunIsSafe(EMPTY, before);
    if e.RowTaken? {
      EndsWhenTaken(Execute(EMPTY, before), e, id);
    } else {
      EndsOtherwise(Execute(EMPTY, before), e, id);
    }
  }

  /** A request is cancelled only by a caller who may, while it is queued, or because its requester or its grant is gone, or
      because a check refuses it. */
  lemma CancelledOnlyIf(before: seq<Event>, e: Event, id: Id)
    requires Becomes(Execute(EMPTY, before), e, id, Cancelled)
    ensures var s := Execute(EMPTY, before);
      || (e.CancelCalled? && e.id == id && s.requests[id].status == Queued
          && (e.caller.Some? ==> e.caller.value == s.requests[id].assignment))
      || (Took(s, id) && e.RowTaken?
          && (!Unfinished(s.grants, s.requests[id].assignment) || !Holds(s.grants, s.requests[id].assignment, s.requests[id].grant)
              || (s.requests[id].action == CloseSession && !MayClose(s, s.requests[id]))))
      || RefusedBy(s, e, id)
  {
    RunIsSafe(EMPTY, before);
    if e.RowTaken? {
      EndsWhenTaken(Execute(EMPTY, before), e, id);
    } else {
      EndsOtherwise(Execute(EMPTY, before), e, id);
    }
  }

  // ---------- what each answer makes of a request ----------

  /** The session action of a request has returned: done, refused before it began, or broken. */
  lemma ActionAnswers(before: seq<Event>, outcome: Outcome)
    requires Execute(EMPTY, before).pc.Acting?
    ensures var s := Execute(EMPTY, before);
      var t, id := Next(s, ActionReturned(outcome)), s.pc.id;
      && t.pc == Between(s.pc.rest) && id in t.requests
      && (outcome == Done ==> t.requests[id].status == Completed)
      && (outcome == Broken ==> t.requests[id].status == Failed)
      && (outcome == Rejected ==> t.requests[id].status == Queued)
  {
    RunIsSafe(EMPTY, before);
  }

  /** The next row of the pass was interrupted while it was `starting`. */
  lemma InterruptedRow(s: State, order: seq<Id>, look: Look)
    requires Inv(s) && s.pc.Between? && s.pc.rest != [] && !s.stopped && s.pc.rest[0].status == Starting
    requires s.pc.rest[0].id in s.requests
    requires var request := s.requests[s.pc.rest[0].id]; request.status == Starting && request.action != CloseSession
    ensures var t, id := Next(s, RowTaken(order, look)), s.pc.rest[0].id;
      var request := s.requests[id];
      && id in t.requests
      && (if ShowsDone(look, request.action) then t.requests[id].status == Completed
          else if look.Found? && look.status == SessionStarting then t.requests[id].status == Starting
          else if look.Found? && (!look.restorable || look.status == SessionError || look.status == SessionEnded)
          then t.requests[id].status == Failed
          else if Unfinished(s.grants, request.assignment) && Holds(s.grants, request.assignment, request.grant)
          then t.requests[id].status == Queued && t.pc.AwaitingProject? && t.pc.id == id
          else t.requests[id].status == Cancelled)
  {
    var row, rest := s.pc.rest[0], s.pc.rest[1..];
    var request := s.requests[row.id];
    var (t, goesOn) := Resume(s, row.id, request, rest, look);
    ResumeEndsFor(s, row.id, request, rest, look);
    CheckEndsFor(t, row.id, rest);
  }

  /** The project of a queued request is known: it fails, is cancelled, waits for its model, stays queued without room, or is
      called. */
  lemma ProjectAnswers(s: State, answer: ProjectAnswer, room: bool)
    requires Inv(s) && s.pc.AwaitingProject? && s.requests[s.pc.id].status == Queued
    ensures var t, id := Next(s, ProjectAnswered(answer, room)), s.pc.id;
      var request := s.requests[id];
      && id in t.requests
      && (if !answer.Configured? then t.requests[id].status == Failed
          else if !answer.enabled || request.action !in s.pc.grant.actions
                  || (s.pc.grant.projects != {} && request.project !in s.pc.grant.projects)
          then t.requests[id].status == Cancelled
          else if s.pc.grant.models != {} then t.pc == AwaitingModel(id, s.pc.grant, s.pc.rest) && t.requests[id].status == Queued
          else if !room then t.pc == Between(s.pc.rest) && t.requests[id].status == Queued
          else if !Holds(s.grants, request.assignment, request.grant) then t.requests[id].status == Cancelled
          else t.pc == Acting(id, s.pc.rest) && t.requests[id].status == Starting)
  {
  }

  // ---------- decisions about a grant ----------

  /** A pending grant is decided once: approved it is active, and denied it is not; both with the definition as edited. */
  lemma DecisionSticks(s: State, id: Id, approve: bool, edited: Option<Definition>)
    requires id in s.grants.table && s.grants.table[id].status == Pending
    ensures var g := Next(s, GrantDecided(id, approve, edited)).grants;
      && id in g.table && g.table[id].status == (if approve then Active else Denied)
      && g.table[id].definition == (if edited.Some? then edited.value else s.grants.table[id].definition)
      && g.table[id].createdBy == s.grants.table[id].createdBy
      && (forall other :: other in s.grants.table && other != id ==> other in g.table && g.table[other] == s.grants.table[other])
  {
  }

  // ---------- no wake-up is lost ----------

  /** A pass takes up exactly the live rows that the query lists. */
  lemma {:induction false} SnapshotIff(requests: map<Id, Request>, order: seq<Id>, row: Snapshot)
    ensures row in Snapshots(requests, order)
            <==> row.id in order && row.id in requests && requests[row.id].status == row.status
                 && (row.status == Queued || row.status == Starting)
    decreases |order|
  {
    if order != [] {
      SnapshotIff(requests, order[1..], row);
      assert row.id in order <==> row.id == order[0] || row.id in order[1..];
    }
  }

  /** A pass begins in this step, over a snapshot of the rows as they are. */
  predicate Begins(s: State, e: Event) {
    || (e.Woken? && s.pc == Idle && !s.stopped && Next(s, e).pc == Between(Snapshots(s.requests, e.order)))
    || (e.RowTaken? && s.pc == Between([]) && Next(s, e).pc == Between(Snapshots(s.requests, e.order)))
  }

  /** Some pass begins in the run. */
  predicate SomePassBegins(s: State, events: seq<Event>)
    decreases |events|
  {
    events != [] && (Begins(s, events[0]) || SomePassBegins(Next(s, events[0]), events[1..]))
  }

  predicate Uninterrupted(events: seq<Event>) {
    forall e :: e in events ==> e != Killed && e != StopCalled
  }

  /** Another pass is owed: one is running, and a wake-up came since it began. */
  predicate Owed(s: State) {
    s.pc != Idle && s.again && !s.stopped
  }

  lemma OwedStays(s: State, e: Event)
    requires Owed(s) && e != Killed && e != StopCalled
    ensures Owed(Next(s, e)) || Begins(s, e)
  {
    match e
    case RowTaken(order, look) =>
      if s.pc.Between? && s.pc.rest != [] {
        ProcessOwes(s, s.pc.rest[0], s.pc.rest[1..], look);
      }
    case _ =>
  }

  lemma ProcessOwes(s: State, row: Snapshot, rest: seq<Snapshot>, look: Look)
    ensures var t := Process(s, row, rest, look); t.pc != Idle && t.again == s.again && t.stopped == s.stopped
  {
    if row.id in s.requests && s.requests[row.id].action != CloseSession && row.status == Starting {
      var (t, goesOn) := Resume(s, row.id, s.requests[row.id], rest, look);
      assert t.pc == Between(rest) && t.again == s.again && t.stopped == s.stopped;
    }
  }

  lemma {:induction false} OwedPassBegins(s: State, events: seq<Event>)
    requires Owed(s) && Uninterrupted(events) && Execute(s, events).pc == Idle
    ensures SomePassBegins(s, events)
    decreases |events|
  {
    if events != [] {
      assert events[0] in events && forall e :: e in events[1..] ==> e in events;
      OwedStays(s, events[0]);
      if !Begins(s, events[0]) {
        OwedPassBegins(Next(s, events[0]), events[1..]);
      }
    }
  }

  /** A wake-up that comes while a pass is running is not lost: unless the server is stopped or killed, the loop does not come to
      rest before another pass has begun. */
  lemma NoWakeIsLost(s: State, order: seq<Id>, after: seq<Event>)
    requires !s.stopped && s.pc != Idle && Uninterrupted(after)
    requires Execute(Next(s, Woken(order)), after).pc == Idle
    ensures SomePassBegins(Next(s, Woken(order)), after)
  {
    OwedPassBegins(Next(s, Woken(order)), after);
  }

  // ---------- requests, cancels and grants as they are made ----------

  /** A request is queued exactly when its ID is new and the grant it names is active, is for the requester and covers it. */
  lemma RequestIsQueuedIff(s: State, id: Id, request: Request)
    requires id !in s.requests
    ensures var t := Next(s, Requested(id, request));
      && (id in t.requests
          <==> && request.grant in s.grants.table
               && s.grants.table[request.grant].status == Active && StillRuns(s.grants, s.grants.table[request.grant].definition)
               && IsFor(s.grants, s.grants.table[request.grant], request.grant, request.assignment)
               && request.action in s.grants.table[request.grant].definition.actions
               && (s.grants.table[request.grant].definition.projects == {}
                   || request.project in s.grants.table[request.grant].definition.projects))
      && (id in t.requests ==> t.requests[id] == request.(status := Queued))
  {
    HoldsIff(s.grants, request.assignment, request.grant);
  }

  /** A cancel is answered for the requester of the request, and for the server itself; it takes a queued request and no other. */
  lemma CancelTakesQueued(s: State, id: Id, caller: Option<Id>)
    ensures Cancel(s, id, caller).Ok? <==> id in s.requests && (caller.Some? ==> s.requests[id].assignment == caller.value)
    ensures Cancel(s, id, caller).Ok? ==>
      var t := Next(s, CancelCalled(id, caller));
      if s.requests[id].status == Queued then t == s.(requests := s.requests[id := s.requests[id].(status := Cancelled)]) else t == s
  {
  }

  /** A grant that is recorded is active, one that is requested is pending; a revoked one is revoked, and when an assignment ends,
      exactly the active grants that end with it expire. */
  lemma GrantsAreEntered(s: State, id: Id, createdBy: Id, definition: Definition, assignment: Id)
    ensures id !in s.grants.table ==>
      && Next(s, GrantRecorded(id, createdBy, definition)).grants.table == s.grants.table[id := Grant(createdBy, Active, definition)]
      && Next(s, GrantRequested(id, createdBy, definition)).grants.table == s.grants.table[id := Grant(createdBy, Pending, definition)]
    ensures id in s.grants.table ==>
      && Next(s, GrantRevoked(id)).grants.table == s.grants.table[id := s.grants.table[id].(status := Revoked)]
      && var g := Next(s, GrantsExpire(assignment)).grants;
         && id in g.table
         && g.table[id] == if s.grants.table[id].status == Active && s.grants.table[id].definition.endsWith == Some(assignment)
                           then s.grants.table[id].(status := Expired) else s.grants.table[id]
  {
  }

  /** After the server was told to stop, the pass takes up no further row, and no other begins. */
  lemma StopEndsThePass(s: State, order: seq<Id>, look: Look)
    requires s.stopped
    ensures s.pc.Between? ==> Next(s, RowTaken(order, look)) == s.(pc := Idle)
    ensures Next(s, Woken(order)) == s
  {
  }

  /** A close is called only while its requester still runs; a launch or restart begins its checks only then. */
  lemma OnlyRunningRequestersAct(s: State, e: Event, id: Id)
    requires Inv(s) && id in s.requests
    ensures Invokes(s, e, id) && s.requests[id].action == CloseSession ==> Unfinished(s.grants, s.requests[id].assignment)
    ensures !Awaited(s, id) && Awaited(Next(s, e), id) ==> Unfinished(s.grants, s.requests[id].assignment)
  {
    if e.RowTaken? && s.pc.Between? && s.pc.rest != [] && !s.stopped {
      assert s.pc.rest[0] in s.pc.rest;
      TakingAsksFor(s, s.pc.rest[0], s.pc.rest[1..], e.look, id);
    }
  }

  lemma TakingAsksFor(s: State, row: Snapshot, rest: seq<Snapshot>, look: Look, id: Id)
    requires SnapshotOk(row) && id in s.requests
    ensures var t := Process(s, row, rest, look);
      && (t.pc.Acting? && t.pc.id == id ==> Unfinished(s.grants, s.requests[id].assignment))
      && (Awaited(t, id) ==> Unfinished(s.grants, s.requests[id].assignment))
  {
    if row.id in s.requests && s.requests[row.id].action != CloseSession && row.status == Starting {
      ResumeEndsFor(s, row.id, s.requests[row.id], rest, look);
    }
  }
}
