/** The two services over their tables. Every method is one stretch between awaits and meets the transition of module
    SessionLaunches. */
module SessionLaunchService {
  import opened Common
  import L = SessionLaunches
  import Safety = SessionLaunchSafety

  class GrantService {
    var table: map<L.Id, L.Grant>
    var finished: map<L.Id, bool>
    var bindings: map<L.Id, L.Binding>

    function Grants(): L.Grants
      reads this
    {
      L.Grants(table, finished, bindings)
    }

    constructor ()
      ensures Grants() == L.EMPTY.grants
    {
      table, finished, bindings := map[], map[], map[];
    }

    method Insert(id: L.Id, createdBy: L.Id, status: L.GrantStatus, definition: L.Definition)
      modifies this`table
      ensures Grants() == L.InsertGrant(old(Grants()), id, L.Grant(createdBy, status, definition))
    {
      if id !in table {
        table := table[id := L.Grant(createdBy, status, definition)];
      }
    }

    method Decide(id: L.Id, approve: bool, edited: Option<L.Definition>) returns (decided: bool)
      modifies this`table
      ensures Grants() == L.Decide(old(Grants()), id, approve, edited)
      ensures decided <==> id in old(table) && old(table)[id].status == L.Pending
    {
      if id !in table || table[id].status != L.Pending {
        return false;
      }
      var grant := table[id].(status := if approve then L.Active else L.Denied);
      if edited.Some? {
        grant := grant.(definition := edited.value);
      }
      table := table[id := grant];
      return true;
    }

    method Revoke(id: L.Id) returns (found: bool)
      modifies this`table
      ensures Grants() == L.Revoke(old(Grants()), id) && (found <==> id in old(table))
      ensures forall assignment :: !L.Holds(Grants(), assignment, id)
    {
      if id !in table {
        return false;
      }
      table := table[id := table[id].(status := L.Revoked)];
      return true;
    }

    /** The update of every row that ends with the assignment. */
    method ExpireForAssignment(assignment: L.Id)
      modifies this`table
      ensures Grants() == L.ExpireForAssignment(old(Grants()), assignment)
      ensures forall id :: id in table ==> !L.EndsWith(table[id], assignment)
    {
      ghost var before := table;
      var todo := table.Keys;
      while todo != {}
        invariant todo <= before.Keys
        invariant table == map id | id in before ::
          if id !in todo && L.EndsWith(before[id], assignment) then before[id].(status := L.Expired) else before[id]
        decreases |todo|
      {
        var id :| id in todo;
        if L.EndsWith(table[id], assignment) {
          table := table[id := table[id].(status := L.Expired)];
        }
        todo := todo - {id};
      }
    }
  }

  class AgentSessionLaunches {
    const grants: GrantService
    var requests: map<L.Id, L.Request>
    var pc: L.Pc
    var again: bool
    var stopped: bool

    function State(): L.State
      reads this, grants
    {
      L.State(grants.Grants(), requests, pc, again, stopped)
    }

    ghost predicate Valid()
      reads this, grants
    {
      Safety.Inv(State())
    }

    constructor (grants: GrantService)
      ensures this.grants == grants
      ensures State() == L.EMPTY.(grants := grants.Grants()) && Valid()
    {
      this.grants := grants;
      requests, pc, again, stopped := map[], L.Idle, false, false;
    }

    /** The compare-and-set. */
    method Update(id: L.Id, expected: L.Status, status: L.Status) returns (changed: bool)
      modifies this`requests
      ensures State() == L.Set(old(State()), id, expected, status) && changed == L.Matches(old(State()), id, expected)
    {
      if id !in requests || requests[id].status != expected {
        return false;
      }
      requests := requests[id := requests[id].(status := status)];
      return true;
    }

    method Cancel(id: L.Id, caller: Option<L.Id>) returns (result: Result<bool, L.CancelError>)
      modifies this`requests
      ensures match L.Cancel(old(State()), id, caller)
              case Err(e) => result == Err(e) && State() == old(State())
              case Ok(t) => State() == t && result == Ok(t.requests[id].status == L.Cancelled)
      ensures old(Valid()) && result == Ok(true) ==> !(pc.Acting? && pc.id == id)
    {
      if id !in requests {
        return Err(L.UnknownRequest);
      }
      if caller.Some? && requests[id].assignment != caller.value {
        return Err(L.OtherAssignment);
      }
      var _ := Update(id, L.Queued, L.Cancelled);
      return Ok(requests[id].status == L.Cancelled);
    }

    method Enqueue(id: L.Id, request: L.Request)
      modifies this`requests
      ensures State() == L.Enqueue(old(State()), id, request)
    {
      if id in requests || !L.Holds(grants.Grants(), request.assignment, request.grant) {
        return;
      }
      if !L.Covers(grants.table[request.grant].definition, request.action, request.project) {
        return;
      }
      requests := requests[id := request.(status := L.Queued)];
    }

    method TakeSnapshot(order: seq<L.Id>) returns (rows: seq<L.Snapshot>)
      ensures rows == L.Snapshots(requests, order)
    {
      rows := [];
      for i := |order| downto 0
        invariant rows == L.Snapshots(requests, order[i..])
      {
        assert order[i..][0] == order[i] && order[i..][1..] == order[i + 1..];
        if order[i] in requests && L.Live(requests[order[i]].status) {
          rows := [L.Snapshot(order[i], requests[order[i]].status)] + rows;
        }
      }
    }

    method Drain(order: seq<L.Id>)
      modifies this`again, this`pc
      ensures State() == L.Drain(old(State()), order)
    {
      if pc != L.Idle {
        again := true;
        return;
      }
      again := false;
      var rows := TakeSnapshot(order);
      pc := L.Between(rows);
    }

    /** The loop between two rows, up to the next await. */
    method NextRow(order: seq<L.Id>, look: L.Look)
      modifies this`requests, this`again, this`pc
      ensures State() == L.NextRow(old(State()), order, look)
    {
      if !pc.Between? {
        return;
      }
      if pc.rest == [] {
        if again && !stopped {
          again := false;
          var rows := TakeSnapshot(order);
          pc := L.Between(rows);
        } else {
          pc := L.Idle;
        }
      } else if stopped {
        pc := L.Idle;
      } else {
        Process(pc.rest[0], pc.rest[1..], look);
      }
    }

    method Process(row: L.Snapshot, rest: seq<L.Snapshot>, look: L.Look)
      modifies this`requests, this`pc
      ensures State() == L.Process(old(State()), row, rest, look)
    {
      if row.id !in requests {
        pc := L.Between(rest);
        return;
      }
      var request := requests[row.id];
      if request.action == L.CloseSession {
        ProcessClose(row, request, rest);
      } else {
        ProcessStart(row, request, rest, look);
      }
    }

    method ProcessStart(row: L.Snapshot, request: L.Request, rest: seq<L.Snapshot>, look: L.Look)
      requires row.id in requests && request == requests[row.id]
      modifies this`requests, this`pc
      ensures State() == L.ProcessStart(old(State()), row, request, rest, look)
    {
      if row.status == L.Starting {
        var goesOn := Resume(row.id, request, rest, look);
        if !goesOn {
          return;
        }
      }
      CheckGrant(row.id, rest);
    }

    method ProcessClose(row: L.Snapshot, request: L.Request, rest: seq<L.Snapshot>)
      requires row.id in requests && request == requests[row.id]
      modifies this`requests, this`pc
      ensures State() == L.ProcessClose(old(State()), row, request, rest)
      ensures pc.Acting? ==> L.MayClose(State(), request) && requests[row.id].status == L.Starting
    {
      pc := L.Between(rest);
      if !L.Unfinished(grants.Grants(), request.assignment) || !L.MayClose(State(), request) {
        var _ := Update(row.id, row.status, L.Cancelled);
        return;
      }
      var reserved := Update(row.id, row.status, L.Starting);
      if reserved {
        pc := L.Acting(row.id, rest);
      }
    }

    /** A row found `starting`. Does the original reservation continue? */
    method Resume(id: L.Id, request: L.Request, rest: seq<L.Snapshot>, look: L.Look) returns (goesOn: bool)
      requires id in requests && request == requests[id]
      modifies this`requests, this`pc
      ensures (State(), goesOn) == L.Resume(old(State()), id, request, rest, look)
    {
      pc := L.Between(rest);
      if look.Found? && look.restorable && look.status == L.SessionBound && (request.action == L.LaunchSession || look.newEpoch) {
        var _ := Update(id, L.Starting, L.Completed);
        return false;
      }
      if look.Found? && look.status == L.SessionStarting {
        return false;
      }
      if look.Found? && (!look.restorable || look.status == L.SessionError || look.status == L.SessionEnded) {
        var _ := Update(id, L.Starting, L.Failed);
        return false;
      }
      goesOn := Update(id, L.Starting, L.Queued);
    }

    method CheckGrant(id: L.Id, rest: seq<L.Snapshot>)
      requires id in requests
      modifies this`requests, this`pc
      ensures State() == L.CheckGrant(old(State()), id, rest)
      ensures pc.AwaitingProject? ==> L.Holds(grants.Grants(), requests[id].assignment, requests[id].grant)
    {
      var request := requests[id];
      if !L.Unfinished(grants.Grants(), request.assignment) || !L.Holds(grants.Grants(), request.assignment, request.grant) {
        var _ := Update(id, L.Queued, L.Cancelled);
        pc := L.Between(rest);
        return;
      }
      pc := L.AwaitingProject(id, grants.table[request.grant].definition, rest);
    }

    method ProjectKnown(answer: L.ProjectAnswer, room: bool)
      modifies this`requests, this`pc
      ensures State() == L.ProjectKnown(old(State()), answer, room)
    {
      if !pc.AwaitingProject? || pc.id !in requests {
        return;
      }
      var id, grant, rest := pc.id, pc.grant, pc.rest;
      if !answer.Configured? {
        var _ := Update(id, L.Queued, L.Failed);
        pc := L.Between(rest);
      } else if !answer.enabled || !L.Covers(grant, requests[id].action, requests[id].project) {
        var _ := Update(id, L.Queued, L.Cancelled);
        pc := L.Between(rest);
      } else if grant.models != {} {
        pc := L.AwaitingModel(id, grant, rest);
      } else {
        Reserve(id, rest, room);
      }
    }

    method ModelKnown(answer: L.ModelAnswer, room: bool)
      modifies this`requests, this`pc
      ensures State() == L.ModelKnown(old(State()), answer, room)
    {
      if !pc.AwaitingModel? || pc.id !in requests {
        return;
      }
      var id, grant, rest := pc.id, pc.grant, pc.rest;
      if answer.ModelLookupFailed? {
        var _ := Update(id, L.Queued, L.Failed);
        pc := L.Between(rest);
      } else if answer.NoModel? || answer.name !in grant.models {
        var _ := Update(id, L.Queued, L.Cancelled);
        pc := L.Between(rest);
      } else {
        Reserve(id, rest, room);
      }
    }

    method Reserve(id: L.Id, rest: seq<L.Snapshot>, room: bool)
      requires id in requests
      modifies this`requests, this`pc
      ensures State() == L.Reserve(old(State()), id, rest, room)
      ensures pc.Acting? ==> requests[id].status == L.Starting && L.Holds(grants.Grants(), requests[id].assignment, requests[id].grant)
    {
      pc := L.Between(rest);
      if !room {
        return;
      }
      var reserved := Update(id, L.Queued, L.Starting);
      if !reserved {
        return;
      }
      if !L.Holds(grants.Grants(), requests[id].assignment, requests[id].grant) {
        var _ := Update(id, L.Starting, L.Cancelled);
        return;
      }
      pc := L.Acting(id, rest);
    }

    method ActionSettles(outcome: L.Outcome)
      modifies this`requests, this`pc
      ensures State() == L.ActionSettles(old(State()), outcome)
    {
      if !pc.Acting? {
        return;
      }
      var status := L.Failed;
      if outcome == L.Done {
        status := L.Completed;
      } else if outcome == L.Rejected {
        status := L.Queued;
      }
      var _ := Update(pc.id, L.Starting, status);
      pc := L.Between(pc.rest);
    }

    // ---------- runs ----------

    /** A call of the grant service, or a change beside both services. */
    predicate OnGrants(e: L.Event) {
      e.GrantRecorded? || e.GrantRequested? || e.GrantDecided? || e.GrantRevoked? || e.GrantsExpire? || e.AssignmentMoves? || e.SessionRebinds?
    }

    method HandleOnGrants(e: L.Event)
      requires OnGrants(e)
      modifies grants
      ensures State() == L.Next(old(State()), e)
    {
      match e
      case GrantRecorded(id, createdBy, definition) => grants.Insert(id, createdBy, L.Active, definition);
      case GrantRequested(id, createdBy, definition) => grants.Insert(id, createdBy, L.Pending, definition);
      case GrantDecided(id, approve, edited) => var _ := grants.Decide(id, approve, edited);
      case GrantRevoked(id) => var _ := grants.Revoke(id);
      case GrantsExpire(assignment) => grants.ExpireForAssignment(assignment);
      case AssignmentMoves(assignment, finished) => grants.finished := grants.finished[assignment := finished];
      case SessionRebinds(assignment, binding) => grants.bindings := grants.bindings[assignment := binding];
    }

    method HandleRequest(e: L.Event)
      requires !OnGrants(e)
      modifies this
      ensures State() == L.Next(old(State()), e)
    {
      match e
      case Requested(id, request) => Enqueue(id, request);
      case CancelCalled(id, caller) => var _ := Cancel(id, caller);
      case Woken(order) => if !stopped { Drain(order); }
      case RowTaken(order, look) => NextRow(order, look);
      case ProjectAnswered(answer, room) => ProjectKnown(answer, room);
      case ModelAnswered(model, room) => ModelKnown(model, room);
      case ActionReturned(outcome) => ActionSettles(outcome);
      case StopCalled => stopped := true;
      case Killed => pc, again, stopped := L.Idle, false, false;
    }

    /** Any sequence of calls leaves the object in the state of the run, so that what holds of every run holds of the object. */
    method HandleAll(calls: seq<L.Event>)
      requires Valid()
      modifies this, grants
      ensures State() == L.Execute(old(State()), calls) && Valid()
      ensures pc.Acting? ==> pc.id in requests && requests[pc.id].status == L.Starting
    {
      for i := 0 to |calls|
        invariant Valid() && L.Execute(State(), calls[i..]) == L.Execute(old(State()), calls)
      {
        assert calls[i..][1..] == calls[i + 1..] && calls[i..][0] == calls[i];
        Safety.StepIsSafe(State(), calls[i]);
        if OnGrants(calls[i]) {
          HandleOnGrants(calls[i]);
        } else {
          HandleRequest(calls[i]);
        }
      }
    }
  }
}
