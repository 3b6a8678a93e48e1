/** What every interleaving of drain, cancel, revoke and crash keeps. */
module SessionLaunchSafety {
  import opened Common
  import opened SessionLaunches

  // ---------- the invariant ----------

  predicate SnapshotOk(row: Snapshot) {
    Live(row.status)
  }

  ghost predicate RestOk(rest: seq<Snapshot>) {
    forall row :: row in rest ==> SnapshotOk(row)
  }

  /** The definition captured before an await is still that of the request's grant, which has been decided. */
  predicate CapturedOk(s: State, id: Id, definition: Definition) {
    && id in s.requests && s.requests[id].action != CloseSession
    && s.requests[id].grant in s.grants.table
    && s.grants.table[s.requests[id].grant].status != Pending
    && s.grants.table[s.requests[id].grant].definition == definition
  }

  ghost predicate Inv(s: State) {
    match s.pc
    case Idle => true
    case Between(rest) => RestOk(rest)
    case AwaitingProject(id, grant, rest) => RestOk(rest) && CapturedOk(s, id, grant)
    case AwaitingModel(id, grant, rest) => RestOk(rest) && CapturedOk(s, id, grant) && Covers(grant, s.requests[id].action, s.requests[id].project)
    case Acting(id, rest) => RestOk(rest) && id in s.requests && s.requests[id].status == Starting
  }

  lemma {:induction false} SnapshotsOk(requests: map<Id, Request>, order: seq<Id>)
    ensures RestOk(Snapshots(requests, order))
    decreases |order|
  {
    if order != [] {
      SnapshotsOk(requests, order[1..]);
    }
  }

  // ---------- grants ----------

  /** A decided grant keeps its definition and never becomes pending again; a revoked one stays revoked. */
  predicate GrantEvolves(g: Grants, h: Grants, id: Id) {
    id in g.table ==>
      && id in h.table && h.table[id].createdBy == g.table[id].createdBy
      && (g.table[id].status != Pending ==> h.table[id].status != Pending && h.table[id].definition == g.table[id].definition)
      && (g.table[id].status == Revoked ==> h.table[id].status == Revoked)
      && (h.table[id].status == Active ==> g.table[id].status == Active || g.table[id].status == Pending)
  }

  lemma StepEvolvesGrant(s: State, e: Event, id: Id)
    requires Inv(s)
    ensures GrantEvolves(s.grants, Next(s, e).grants, id)
  {
    match e
    case RowTaken(order, look) => NextRowIsSafe(s, order, look);
    case ProjectAnswered(answer, room) => AnswersAreSafe(s, answer, NoModel, room);
    case ModelAnswered(model, room) => AnswersAreSafe(s, NotConfigured, model, room);
    case _ =>
  }

  // ---------- requests ----------

  /** The row is the same but for its status, and a row that reached its end keeps that too. */
  predicate RequestEvolves(s: State, t: State, id: Id) {
    id in s.requests ==>
      && id in t.requests && t.requests[id] == s.requests[id].(status := t.requests[id].status)
      && (!Live(s.requests[id].status) ==> t.requests[id].status == s.requests[id].status)
  }

  ghost predicate AllEvolve(s: State, t: State) {
    forall x :: RequestEvolves(s, t, x)
  }

  lemma ProcessIsSafe(s: State, row: Snapshot, rest: seq<Snapshot>, look: Look)
    requires SnapshotOk(row) && RestOk(rest)
    ensures Inv(Process(s, row, rest, look)) && AllEvolve(s, Process(s, row, rest, look))
    ensures Process(s, row, rest, look).grants == s.grants
  {
    if row.id in s.requests && s.requests[row.id].action != CloseSession {
      var request := s.requests[row.id];
      if row.status == Starting {
        ResumeIsSafe(s, row.id, request, rest, look);
        var (t, goesOn) := Resume(s, row.id, request, rest, look);
        if goesOn {
          CheckIsSafe(t, row.id, rest);
        }
      } else {
        CheckIsSafe(s, row.id, rest);
      }
    }
  }

  lemma CheckIsSafe(s: State, id: Id, rest: seq<Snapshot>)
    requires RestOk(rest) && id in s.requests && s.requests[id].action != CloseSession
    ensures Inv(CheckGrant(s, id, rest)) && AllEvolve(s, CheckGrant(s, id, rest))
    ensures CheckGrant(s, id, rest).grants == s.grants
  {
  }

  lemma ResumeIsSafe(s: State, id: Id, request: Request, rest: seq<Snapshot>, look: Look)
    requires RestOk(rest) && id in s.requests && request == s.requests[id] && request.action != CloseSession
    ensures var (t, goesOn) := Resume(s, id, request, rest, look);
      && Inv(t) && AllEvolve(s, t) && t.grants == s.grants && !t.pc.Acting?
      && (goesOn ==> Live(s.requests[id].status))
      && t.requests[id] == s.requests[id].(status := t.requests[id].status)
  {
  }

  lemma NextRowIsSafe(s: State, order: seq<Id>, look: Look)
    requires Inv(s)
    ensures Inv(NextRow(s, order, look)) && AllEvolve(s, NextRow(s, order, look))
    ensures NextRow(s, order, look).grants == s.grants
  {
    if s.pc.Between? {
      if s.pc.rest == [] {
        SnapshotsOk(s.requests, order);
      } else if !s.stopped {
        assert s.pc.rest[0] in s.pc.rest;
        ProcessIsSafe(s, s.pc.rest[0], s.pc.rest[1..], look);
      }
    }
  }

  lemma ReserveIsSafe(s: State, id: Id, rest: seq<Snapshot>, room: bool)
    requires RestOk(rest) && id in s.requests
    ensures Inv(Reserve(s, id, rest, room)) && AllEvolve(s, Reserve(s, id, rest, room))
    ensures Reserve(s, id, rest, room).grants == s.grants
  {
  }

  lemma AnswersAreSafe(s: State, project: ProjectAnswer, model: ModelAnswer, room: bool)
    requires Inv(s)
    ensures Inv(ProjectKnown(s, project, room)) && AllEvolve(s, ProjectKnown(s, project, room))
    ensures Inv(ModelKnown(s, model, room)) && AllEvolve(s, ModelKnown(s, model, room))
    ensures ProjectKnown(s, project, room).grants == s.grants && ModelKnown(s, model, room).grants == s.grants
  {
    if s.pc.AwaitingProject? || s.pc.AwaitingModel? {
      ReserveIsSafe(s, s.pc.id, s.pc.rest, room);
    }
  }

  /** What happens beside the loop leaves it where it is. */
  predicate Beside(e: Event) {
    !e.RowTaken? && !e.ProjectAnswered? && !e.ModelAnswered? && !e.ActionReturned? && !e.Woken? && !e.Killed?
  }

  lemma BesideIsSafe(s: State, e: Event)
    requires Inv(s) && Beside(e)
    ensures Inv(Next(s, e)) && AllEvolve(s, Next(s, e)) && Next(s, e).pc == s.pc
  {
    var t := Next(s, e);
    assert AllEvolve(s, t);
    if s.pc.AwaitingProject? || s.pc.AwaitingModel? {
      assert RequestEvolves(s, t, s.pc.id);
      StepEvolvesGrant(s, e, s.requests[s.pc.id].grant);
    }
  }

  lemma StepIsSafe(s: State, e: Event)
    requires Inv(s)
    ensures Inv(Next(s, e)) && AllEvolve(s, Next(s, e))
  {
    match e
    case RowTaken(order, look) => NextRowIsSafe(s, order, look);
    case ProjectAnswered(answer, room) => AnswersAreSafe(s, answer, NoModel, room);
    case ModelAnswered(model, room) => AnswersAreSafe(s, NotConfigured, model, room);
    case Woken(order) => SnapshotsOk(s.requests, order);
    case ActionReturned(outcome) =>
    case Killed =>
    case _ => BesideIsSafe(s, e);
  }

  lemma {:induction false} RunIsSafe(s: State, events: seq<Event>)
    requires Inv(s)
    ensures Inv(Execute(s, events))
    decreases |events|
  {
    if events != [] {
      StepIsSafe(s, events[0]);
      RunIsSafe(Next(s, events[0]), events[1..]);
    }
  }

  /** In every state a run reaches from the empty one, whatever crashed or was revoked on the way: a session action is under
      way only for a row that is `starting`, and what a check goes on with after an await is still the definition of the
      request's grant, which has been decided. */
  lemma ReachableIsSafe(events: seq<Event>)
    ensures var s := Execute(EMPTY, events);
      && Inv(s)
      && (s.pc.Acting? ==> s.pc.id in s.requests && s.requests[s.pc.id].status == Starting)
      && (s.pc.AwaitingProject? || s.pc.AwaitingModel? ==> CapturedOk(s, s.pc.id, s.pc.grant))
  {
    RunIsSafe(EMPTY, events);
  }

  // ---------- the promises ----------

  /** A completed, failed or cancelled request stays what it is, whatever is still working on an old snapshot of it. */
  lemma {:induction false} EndsAreAbsorbing(s: State, events: seq<Event>, id: Id)
    requires Inv(s) && id in s.requests
    ensures id in Execute(s, events).requests
    ensures Execute(s, events).requests[id] == s.requests[id].(status := Execute(s, events).requests[id].status)
    ensures !Live(s.requests[id].status) ==> Execute(s, events).requests[id] == s.requests[id]
    decreases |events|
  {
    if events != [] {
      StepIsSafe(s, events[0]);
      assert RequestEvolves(s, Next(s, events[0]), id);
      EndsAreAbsorbing(Next(s, events[0]), events[1..], id);
    }
  }

  /** A session action starts only from a row that is still live, which it leaves `starting`; a launch or restart only from
      `queued`. At that moment the request's grant is active for the requester, and its definition covers the action and the
      project. */
  lemma InvocationIsAuthorized(s: State, e: Event, id: Id)
    requires Inv(s) && Invokes(s, e, id)
    ensures id in s.requests && Next(s, e).requests[id] == s.requests[id].(status := Starting)
    ensures if s.requests[id].action == CloseSession then Live(s.requests[id].status) else s.requests[id].status == Queued
    ensures var request, g := s.requests[id], Next(s, e).grants;
      && Holds(g, request.assignment, request.grant)
      && Covers(g.table[request.grant].definition, request.action, request.project)
  {
    match e
    case RowTaken(order, look) =>
      assert s.pc.rest[0] in s.pc.rest;
    case ProjectAnswered(answer, room) =>
    case ModelAnswered(model, room) =>
    case _ =>
  }

  function Invocations(s: State, events: seq<Event>, id: Id): nat
    decreases |events|
  {
    if events == [] then 0 else (if Invokes(s, events[0], id) then 1 else 0) + Invocations(Next(s, events[0]), events[1..], id)
  }

  /** Once a request has ended its session action is never called again; in particular after a successful cancel. */
  lemma {:induction false} EndedRequestsAreNotInvoked(s: State, events: seq<Event>, id: Id)
    requires Inv(s) && id in s.requests && !Live(s.requests[id].status)
    ensures Invocations(s, events, id) == 0
    decreases |events|
  {
    if events != [] {
      StepIsSafe(s, events[0]);
      assert RequestEvolves(s, Next(s, events[0]), id);
      if Invokes(s, events[0], id) {
        InvocationIsAuthorized(s, events[0], id);
      }
      EndedRequestsAreNotInvoked(Next(s, events[0]), events[1..], id);
    }
  }

  /** The request goes back from `starting` to `queued`: the action refused it, or its process was interrupted. */
  predicate PutBack(s: State, e: Event, id: Id) {
    && id in s.requests && s.requests[id].status == Starting
    && id in Next(s, e).requests && Next(s, e).requests[id].status == Queued
  }

  function TimesPutBack(s: State, events: seq<Event>, id: Id): nat
    decreases |events|
  {
    if events == [] then 0 else (if PutBack(s, events[0], id) then 1 else 0) + TimesPutBack(Next(s, events[0]), events[1..], id)
  }

  /** Is the row there and `starting`? */
  function Started(s: State, id: Id): nat {
    if id in s.requests && s.requests[id].status == Starting then 1 else 0
  }

  predicate NotStarted(s: State, id: Id) {
    id in s.requests ==> s.requests[id].status != Starting
  }

  lemma NewRowsAreQueued(s: State, e: Event, id: Id)
    requires Inv(s) && id !in s.requests && id in Next(s, e).requests
    ensures Next(s, e).requests[id].status == Queued
  {
    match e
    case RowTaken(order, look) => TakingAddsNothing(s, order, look);
    case ProjectAnswered(answer, room) =>
    case ModelAnswered(model, room) =>
    case _ =>
  }

  lemma TakingAddsNothing(s: State, order: seq<Id>, look: Look)
    ensures NextRow(s, order, look).requests.Keys == s.requests.Keys
  {
    if s.pc.Between? && s.pc.rest != [] && !s.stopped {
      ProcessAddsNothing(s, s.pc.rest[0], s.pc.rest[1..], look);
    }
  }

  lemma ProcessAddsNothing(s: State, row: Snapshot, rest: seq<Snapshot>, look: Look)
    ensures Process(s, row, rest, look).requests.Keys == s.requests.Keys
  {
    if row.id in s.requests && s.requests[row.id].action != CloseSession {
      var (t, goesOn) := Resume(s, row.id, s.requests[row.id], rest, look);
      ResumeAddsNothing(s, row.id, s.requests[row.id], rest, look);
      CheckAddsNothing(if row.status == Starting then t else s, row.id, rest);
    }
  }

  lemma ResumeAddsNothing(s: State, row: Id, request: Request, rest: seq<Snapshot>, look: Look)
    requires row in s.requests
    ensures Resume(s, row, request, rest, look).0.requests.Keys == s.requests.Keys
  {
  }

  lemma CheckAddsNothing(s: State, row: Id, rest: seq<Snapshot>)
    requires row in s.requests
    ensures CheckGrant(s, row, rest).requests.Keys == s.requests.Keys
  {
  }

  /** A row becomes `starting` only in the step that calls its action. */
  lemma OnlyCallsStart(s: State, e: Event, id: Id)
    requires Inv(s) && id in s.requests
    requires s.requests[id].status == Queued && id in Next(s, e).requests && Next(s, e).requests[id].status == Starting
    ensures Invokes(s, e, id)
  {
    match e
    case RowTaken(order, look) =>
      if s.pc.Between? && s.pc.rest != [] && !s.stopped {
        TakingStartsNothing(s, s.pc.rest[0], s.pc.rest[1..], look, id);
      }
    case _ =>
  }

  lemma TakingStartsNothing(s: State, row: Snapshot, rest: seq<Snapshot>, look: Look, id: Id)
    requires NotStarted(s, id)
    ensures var t := Process(s, row, rest, look); NotStarted(t, id) || (t.pc.Acting? && t.pc.id == id)
  {
    if row.id in s.requests && s.requests[row.id].action != CloseSession {
      var (t, goesOn) := Resume(s, row.id, s.requests[row.id], rest, look);
      ResumeStartsNothing(s, row.id, s.requests[row.id], rest, look, id);
      CheckStartsNothing(if row.status == Starting then t else s, row.id, rest, id);
    }
  }

  lemma ResumeStartsNothing(s: State, row: Id, request: Request, rest: seq<Snapshot>, look: Look, id: Id)
    requires NotStarted(s, id) && row in s.requests
    ensures NotStarted(Resume(s, row, request, rest, look).0, id)
  {
  }

  lemma CheckStartsNothing(s: State, row: Id, rest: seq<Snapshot>, id: Id)
    requires NotStarted(s, id) && row in s.requests
    ensures NotStarted(CheckGrant(s, row, rest), id)
  {
  }

  /** One step of a request that is live after it: from `queued` it calls the action exactly if it leaves the row `starting`,
      and from `starting` to `queued` it puts the row back. */
  lemma StepOfALiveRow(s: State, e: Event, id: Id)
    requires Inv(s) && id in Next(s, e).requests && Live(Next(s, e).requests[id].status)
    ensures Started(s, id) == 0 ==> (Invokes(s, e, id) <==> Started(Next(s, e), id) == 1)
    ensures PutBack(s, e, id) <==> Started(s, id) == 1 && Started(Next(s, e), id) == 0
    ensures Invokes(s, e, id) ==> id in s.requests
    ensures Invokes(s, e, id) && Started(s, id) == 1 ==> s.requests[id].action == CloseSession
    ensures id in s.requests ==> Live(s.requests[id].status) && Next(s, e).requests[id].action == s.requests[id].action
  {
    StepIsSafe(s, e);
    assert RequestEvolves(s, Next(s, e), id);
    if Invokes(s, e, id) {
      InvocationIsAuthorized(s, e, id);
    } else if id !in s.requests {
      NewRowsAreQueued(s, e, id);
    } else if s.requests[id].status == Queued && Next(s, e).requests[id].status == Starting {
      OnlyCallsStart(s, e, id);
    }
  }

  lemma StepWithoutTheRow(s: State, e: Event, id: Id)
    requires Inv(s) && id !in Next(s, e).requests
    ensures !Invokes(s, e, id) && !PutBack(s, e, id) && id !in s.requests
  {
    StepIsSafe(s, e);
    assert RequestEvolves(s, Next(s, e), id);
    if Invokes(s, e, id) {
      InvocationIsAuthorized(s, e, id);
    }
  }

  /** What is live at the end of a run was live, or not there, all the time. */
  lemma LiveBefore(s: State, events: seq<Event>, id: Id)
    requires Inv(s) && id in s.requests && id in Execute(s, events).requests && Live(Execute(s, events).requests[id].status)
    ensures Live(s.requests[id].status) && Execute(s, events).requests[id].action == s.requests[id].action
  {
    EndsAreAbsorbing(s, events, id);
  }

  /** Starts, calls and requeues of a launch or restart balance. A close that was interrupted is called again from
      `starting`, so its calls may outnumber its starts. */
  lemma {:induction false} CallsMatchStarts(s: State, events: seq<Event>, id: Id)
    requires Inv(s) && id in Execute(s, events).requests && Live(Execute(s, events).requests[id].status)
    requires Execute(s, events).requests[id].action != CloseSession
    ensures Started(s, id) + Invocations(s, events, id) == TimesPutBack(s, events, id) + Started(Execute(s, events), id)
    decreases |events|
  {
    if events != [] {
      var t := Next(s, events[0]);
      StepIsSafe(s, events[0]);
      CallsMatchStarts(t, events[1..], id);
      if id in t.requests {
        LiveBefore(t, events[1..], id);
        StepOfALiveRow(s, events[0], id);
      } else {
        StepWithoutTheRow(s, events[0], id);
      }
    }
  }

  /** A request of any kind that is `queued` after a run was called in it exactly if it was put back in it. */
  lemma {:induction false} CalledIffPutBack(s: State, events: seq<Event>, id: Id)
    requires Inv(s) && id in Execute(s, events).requests && Execute(s, events).requests[id].status == Queued
    ensures Started(s, id) == 1 ==> TimesPutBack(s, events, id) > 0
    ensures Started(s, id) == 0 ==> (Invocations(s, events, id) == 0 <==> TimesPutBack(s, events, id) == 0)
    decreases |events|
  {
    if events != [] {
      var t := Next(s, events[0]);
      StepIsSafe(s, events[0]);
      CalledIffPutBack(t, events[1..], id);
      if id in t.requests {
        LiveBefore(t, events[1..], id);
        StepOfALiveRow(s, events[0], id);
      } else {
        StepWithoutTheRow(s, events[0], id);
      }
    }
  }

  /** A request of any kind that is cancelled while queued: its action is not under way and is never called from then on. It
      was called before only if it had been put back in the queue, and a launch or restart exactly as often as that. The run
      before may begin in any safe state where the request is not yet made or is queued, so in `EMPTY`. */
  lemma CancelledRequestsAreNotCalled(s: State, before: seq<Event>, id: Id, caller: Option<Id>, after: seq<Event>)
    requires Inv(s) && (id in s.requests ==> s.requests[id].status == Queued)
    requires var t := Execute(s, before); id in t.requests && t.requests[id].status == Queued && Cancel(t, id, caller).Ok?
    ensures var t := Execute(s, before);
      && Cancel(t, id, caller).value.requests[id].status == Cancelled
      && !(t.pc.Acting? && t.pc.id == id)
      && (Invocations(s, before, id) == 0 <==> TimesPutBack(s, before, id) == 0)
      && (t.requests[id].action != CloseSession ==> Invocations(s, before, id) == TimesPutBack(s, before, id))
      && Invocations(Cancel(t, id, caller).value, after, id) == 0
  {
    var t := Execute(s, before);
    RunIsSafe(s, before);
    CalledIffPutBack(s, before, id);
    if t.requests[id].action != CloseSession {
      CallsMatchStarts(s, before, id);
    }
    StepIsSafe(t, CancelCalled(id, caller));
    EndedRequestsAreNotInvoked(Cancel(t, id, caller).value, after, id);
  }

  const BOSS_GRANT := Grant("boss", Active, Definition(ToAssignment("boss"), {LaunchSession}, {}, {}, None))
  const BOSS_REQUEST := Request("boss", "g", LaunchSession, Queued, "s", "p")
  const TO_ONE_REQUEST := [AssignmentMoves("boss", false), GrantRecorded("g", "boss", BOSS_GRANT.definition), Requested("r", BOSS_REQUEST)]
  const ONE_REQUEST := State(Grants(map["g" := BOSS_GRANT], map["boss" := false], map[]), map["r" := BOSS_REQUEST], Idle, false, false)
  const ONE_REFUSAL := [Woken(["r"]), RowTaken([], NoSession), ProjectAnswered(Configured(true), true), ActionReturned(Rejected)]

  lemma RefusedOnce()
    ensures Invocations(ONE_REQUEST, ONE_REFUSAL, "r") == 1
    ensures "r" in Execute(ONE_REQUEST, ONE_REFUSAL).requests && Execute(ONE_REQUEST, ONE_REFUSAL).requests["r"] == BOSS_REQUEST
  {
    var s1 := Next(ONE_REQUEST, ONE_REFUSAL[0]);
    assert Snapshots(ONE_REQUEST.requests, ["r"]) == [Snapshot("r", Queued)] by {
      assert ["r"][1..] == [];
      assert Snapshots(ONE_REQUEST.requests, []) == [];
    }
    assert s1 == ONE_REQUEST.(pc := Between([Snapshot("r", Queued)]));
    var s2 := Next(s1, ONE_REFUSAL[1]);
    assert s2 == s1.(pc := AwaitingProject("r", BOSS_GRANT.definition, []));
    var s3 := Next(s2, ONE_REFUSAL[2]);
    assert s3.pc == Acting("r", []) && s3.requests["r"].status == Starting;
    var s4 := Next(s3, ONE_REFUSAL[3]);
    assert s4.requests["r"].status == Queued;
    Unfold(ONE_REQUEST, ONE_REFUSAL, "r");
    Unfold(s1, ONE_REFUSAL[1..], "r");
    Unfold(s2, ONE_REFUSAL[2..], "r");
    Unfold(s3, ONE_REFUSAL[3..], "r");
    assert ONE_REFUSAL[3..][1..] == [];
  }

  /** So a cancelled request may have been called before: here a session was asked for, its session refused the input, and
      the cancel came after. */
  lemma ARefusedRequestWasCalled()
    ensures var t := Execute(EMPTY, TO_ONE_REQUEST + ONE_REFUSAL);
      && Invocations(EMPTY, TO_ONE_REQUEST + ONE_REFUSAL, "r") == 1
      && Cancel(t, "r", None).Ok? && Cancel(t, "r", None).value.requests["r"].status == Cancelled
  {
    var events := TO_ONE_REQUEST + ONE_REFUSAL;
    var s1 := Next(EMPTY, events[0]);
    assert s1 == EMPTY.(grants := Grants(map[], map["boss" := false], map[]));
    var s2 := Next(s1, events[1]);
    assert s2 == EMPTY.(grants := Grants(map["g" := BOSS_GRANT], map["boss" := false], map[]));
    assert Next(s2, events[2]) == ONE_REQUEST;
    Unfold(EMPTY, events, "r");
    Unfold(s1, events[1..], "r");
    Unfold(s2, events[2..], "r");
    assert events[2..][1..] == ONE_REFUSAL;
    RefusedOnce();
  }

  lemma Unfold(s: State, events: seq<Event>, id: Id)
    requires events != []
    ensures Execute(s, events) == Execute(Next(s, events[0]), events[1..])
    ensures Invocations(s, events, id) == (if Invokes(s, events[0], id) then 1 else 0) + Invocations(Next(s, events[0]), events[1..], id)
  {
  }

  /** Too late: cancelling a request that is not queued changes nothing. */
  lemma LateCancelChangesNothing(s: State, id: Id, caller: Option<Id>)
    requires id in s.requests && s.requests[id].status != Queued && Cancel(s, id, caller).Ok?
    ensures Cancel(s, id, caller).value == s
  {
  }

  /** What a grant was approved for is final, and a revoked grant stays revoked. */
  lemma {:induction false} GrantsAreFinal(s: State, events: seq<Event>, id: Id)
    requires Inv(s) && id in s.grants.table
    ensures id in Execute(s, events).grants.table
    ensures s.grants.table[id].status != Pending ==> Execute(s, events).grants.table[id].definition == s.grants.table[id].definition
                                                     && Execute(s, events).grants.table[id].status != Pending
    ensures s.grants.table[id].status == Revoked ==> Execute(s, events).grants.table[id].status == Revoked
    decreases |events|
  {
    if events != [] {
      StepIsSafe(s, events[0]);
      StepEvolvesGrant(s, events[0], id);
      GrantsAreFinal(Next(s, events[0]), events[1..], id);
    }
  }

  /** Nothing is done under a grant once it is revoked, not even for a request whose checks had all been passed. */
  lemma {:induction false} RevokedGrantsAreNotUsed(s: State, events: seq<Event>, id: Id)
    requires Inv(s) && id in s.requests && s.requests[id].grant in s.grants.table
    requires s.grants.table[s.requests[id].grant].status == Revoked
    ensures Invocations(s, events, id) == 0
    decreases |events|
  {
    if events != [] {
      var t := Next(s, events[0]);
      StepIsSafe(s, events[0]);
      StepEvolvesGrant(s, events[0], s.requests[id].grant);
      assert RequestEvolves(s, t, id);
      if Invokes(s, events[0], id) {
        InvocationIsAuthorized(s, events[0], id);
      }
      RevokedGrantsAreNotUsed(t, events[1..], id);
    }
  }
}
