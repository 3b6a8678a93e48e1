/**
 Standing grants and the session requests made under them (apps/server/src/grants/service.ts and
 apps/server/src/grants/session-launches.ts). `drain` awaits while it works through a snapshot of the rows, so cancel,
 revoke, a new request or the end of the process may come between any two of its stretches.
 */
module SessionLaunches {
  import opened Common

  type Id = string

  datatype Action = LaunchSession | RestartSession | CloseSession

  // ---------- grants ----------

  datatype Grantee = ToSession(id: Id) | ToAssignment(id: Id) | ToProject(slug: string)
  /** Empty `projects` or `models` means any. `endsWith`: the grant expires when that assignment finishes. */
  datatype Definition = Definition(grantee: Grantee, actions: set<Action>, projects: set<string>, models: set<string>, endsWith: Option<Id>)
  datatype GrantStatus = Pending | Active | Denied | Revoked | Expired
  datatype Grant = Grant(createdBy: Id, status: GrantStatus, definition: Definition)

  /** The Console session of an assignment: its ID, the grants it was launched with, its project. */
  datatype Binding = Binding(session: Option<Id>, inherited: set<Id>, project: Option<string>)

  /** `finished` has an entry for every known assignment. */
  datatype Grants = Grants(table: map<Id, Grant>, finished: map<Id, bool>, bindings: map<Id, Binding>)

  predicate Unfinished(g: Grants, assignment: Id) {
    assignment in g.finished && !g.finished[assignment]
  }

  /** The status a grant is shown with: an active one whose assignment has ended is expired. */
  function Shown(g: Grants, grant: Grant): GrantStatus {
    if grant.status == Active && grant.definition.endsWith.Some? && !Unfinished(g, grant.definition.endsWith.value) then Expired
    else grant.status
  }

  /** Is the grant among `grantsFor(assignment)`? */
  predicate Holds(g: Grants, assignment: Id, id: Id) {
    && id in g.table && Shown(g, g.table[id]) == Active
    && var binding := if assignment in g.bindings then g.bindings[assignment] else Binding(None, {}, None);
    (id in binding.inherited
     || match g.table[id].definition.grantee
        case ToAssignment(a) => a == assignment
        case ToSession(session) => binding.session == Some(session)
        case ToProject(slug) => binding.project == Some(slug))
  }

  predicate Covers(definition: Definition, action: Action, project: string) {
    action in definition.actions && (definition.projects == {} || project in definition.projects)
  }

  function InsertGrant(g: Grants, id: Id, grant: Grant): Grants {
    if id in g.table then g else g.(table := g.table[id := grant])
  }

  /** `decide`; whoever decides may edit the definition of a request that is still pending. */
  function Decide(g: Grants, id: Id, approve: bool, edited: Option<Definition>): Grants {
    if id !in g.table || g.table[id].status != Pending then g
    else
      var definition := if edited.Some? then edited.value else g.table[id].definition;
      g.(table := g.table[id := g.table[id].(status := if approve then Active else Denied, definition := definition)])
  }

  function Revoke(g: Grants, id: Id): Grants {
    if id !in g.table then g else g.(table := g.table[id := g.table[id].(status := Revoked)])
  }

  predicate EndsWith(grant: Grant, assignment: Id) {
    grant.status == Active && grant.definition.endsWith == Some(assignment)
  }

  function ExpireForAssignment(g: Grants, assignment: Id): Grants {
    g.(table := map id | id in g.table ::
         if EndsWith(g.table[id], assignment) then g.table[id].(status := Expired) else g.table[id])
  }

  // ---------- requests ----------

  datatype Status = Queued | Starting | Completed | Failed | Cancelled
  datatype Request = Request(assignment: Id, grant: Id, action: Action, status: Status, session: Id, project: string)

  /** A row as `drain` read it, with the status it last knew. */
  datatype Snapshot = Snapshot(id: Id, status: Status)

  datatype Pc = Idle
              | Between(rest: seq<Snapshot>)
              | AwaitingProject(id: Id, grant: Definition, rest: seq<Snapshot>)
              | AwaitingModel(id: Id, grant: Definition, rest: seq<Snapshot>)
              | Acting(id: Id, rest: seq<Snapshot>)

  datatype State = State(grants: Grants, requests: map<Id, Request>, pc: Pc, again: bool, stopped: bool)

  predicate Live(status: Status) {
    status == Queued || status == Starting
  }

  /** The compare-and-set of `update`. */
  predicate Matches(s: State, id: Id, expected: Status) {
    id in s.requests && s.requests[id].status == expected
  }

  function Set(s: State, id: Id, expected: Status, status: Status): State {
    if Matches(s, id, expected) then s.(requests := s.requests[id := s.requests[id].(status := status)]) else s
  }

  /** One row is dealt with; the loop goes on. */
  function Settle(s: State, id: Id, expected: Status, status: Status, rest: seq<Snapshot>): State {
    Set(s, id, expected, status).(pc := Between(rest))
  }

  /** The rows still `queued` or `starting`; `order` lists the IDs as the query sorts them. */
  function Snapshots(requests: map<Id, Request>, order: seq<Id>): seq<Snapshot>
    decreases |order|
  {
    if order == [] then []
    else
      var tail := Snapshots(requests, order[1..]);
      if order[0] in requests && Live(requests[order[0]].status) then [Snapshot(order[0], requests[order[0]].status)] + tail else tail
  }

  datatype CancelError = UnknownRequest | OtherAssignment

  function Cancel(s: State, id: Id, assignment: Option<Id>): Result<State, CancelError> {
    if id !in s.requests then Err(UnknownRequest)
    else if assignment.Some? && s.requests[id].assignment != assignment.value then Err(OtherAssignment)
    else Ok(Set(s, id, Queued, Cancelled))
  }

  /** The last stretch of `request`: a covering grant is found and the row is inserted under an unused ID. */
  function Enqueue(s: State, id: Id, request: Request): State {
    if id in s.requests || !Holds(s.grants, request.assignment, request.grant)
       || !Covers(s.grants.table[request.grant].definition, request.action, request.project)
    then s
    else s.(requests := s.requests[id := request.(status := Queued)])
  }

  // ---------- the drain loop ----------

  /** What the session row of an interrupted request looks like. */
  datatype SessionStatus = SessionBound | SessionStarting | SessionError | SessionEnded
  datatype Look = NoSession | Found(restorable: bool, status: SessionStatus, newEpoch: bool)

  function Drain(s: State, order: seq<Id>): State {
    if s.pc != Idle then s.(again := true) else s.(again := false, pc := Between(Snapshots(s.requests, order)))
  }

  function NextRow(s: State, order: seq<Id>, look: Look): State {
    if !s.pc.Between? then s
    else if s.pc.rest == [] then
      if s.again && !s.stopped then s.(again := false, pc := Between(Snapshots(s.requests, order))) else s.(pc := Idle)
    else if s.stopped then s.(pc := Idle)
    else Process(s, s.pc.rest[0], s.pc.rest[1..], look)
  }

  function Process(s: State, row: Snapshot, rest: seq<Snapshot>, look: Look): State {
    if row.id !in s.requests then s.(pc := Between(rest))
    else
      var request := s.requests[row.id];
      if request.action == CloseSession then ProcessClose(s, row, request, rest)
      else ProcessStart(s, row, request, rest, look)
  }

  function ProcessStart(s: State, row: Snapshot, request: Request, rest: seq<Snapshot>, look: Look): State
    requires row.id in s.requests
  {
    if row.status != Starting then CheckGrant(s, row.id, rest)
    else
      var (t, goesOn) := Resume(s, row.id, request, rest, look);
      if goesOn then CheckGrant(t, row.id, rest) else t
  }

  predicate MayClose(s: State, request: Request) {
    Holds(s.grants, request.assignment, request.grant) && Covers(s.grants.table[request.grant].definition, CloseSession, request.project)
  }

  function ProcessClose(s: State, row: Snapshot, request: Request, rest: seq<Snapshot>): State {
    if !Unfinished(s.grants, request.assignment) || !MayClose(s, request) then Settle(s, row.id, row.status, Cancelled, rest)
    else if !Matches(s, row.id, row.status) then s.(pc := Between(rest))
    else Set(s, row.id, row.status, Starting).(pc := Acting(row.id, rest))
  }

  /** A row found `starting`: an earlier process was interrupted while it acted. Does its reservation go on? */
  function Resume(s: State, id: Id, request: Request, rest: seq<Snapshot>, look: Look): (r: (State, bool))
    requires id in s.requests
    ensures id in r.0.requests
  {
    if look.Found? && look.restorable && look.status == SessionBound && (request.action == LaunchSession || look.newEpoch)
    then (Settle(s, id, Starting, Completed, rest), false)
    else if look.Found? && look.status == SessionStarting then (s.(pc := Between(rest)), false)
    else if look.Found? && (!look.restorable || look.status == SessionError || look.status == SessionEnded)
    then (Settle(s, id, Starting, Failed, rest), false)
    else (Set(s, id, Starting, Queued).(pc := Between(rest)), Matches(s, id, Starting))
  }

  function CheckGrant(s: State, id: Id, rest: seq<Snapshot>): State
    requires id in s.requests
  {
    var request := s.requests[id];
    if !Unfinished(s.grants, request.assignment) || !Holds(s.grants, request.assignment, request.grant)
    then Settle(s, id, Queued, Cancelled, rest)
    else s.(pc := AwaitingProject(id, s.grants.table[request.grant].definition, rest))
  }

  datatype ProjectAnswer = Configured(enabled: bool) | NotConfigured | LookupFailed

  function ProjectKnown(s: State, answer: ProjectAnswer, room: bool): State {
    if !s.pc.AwaitingProject? || s.pc.id !in s.requests then s
    else
      var id, grant, rest := s.pc.id, s.pc.grant, s.pc.rest;
      if !answer.Configured? then Settle(s, id, Queued, Failed, rest)
      else if !answer.enabled || !Covers(grant, s.requests[id].action, s.requests[id].project) then Settle(s, id, Queued, Cancelled, rest)
      else if grant.models != {} then s.(pc := AwaitingModel(id, grant, rest))
      else Reserve(s, id, rest, room)
  }

  datatype ModelAnswer = Model(name: string) | NoModel | ModelLookupFailed

  function ModelKnown(s: State, answer: ModelAnswer, room: bool): State {
    if !s.pc.AwaitingModel? || s.pc.id !in s.requests then s
    else
      var id, rest := s.pc.id, s.pc.rest;
      if answer.ModelLookupFailed? then Settle(s, id, Queued, Failed, rest)
      else if answer.NoModel? || answer.name !in s.pc.grant.models then Settle(s, id, Queued, Cancelled, rest)
      else Reserve(s, id, rest, room)
  }

  /** `room`: memory and a session slot are available; otherwise the row stays queued. */
  function Reserve(s: State, id: Id, rest: seq<Snapshot>, room: bool): State
    requires id in s.requests
  {
    var request := s.requests[id];
    if !room || !Matches(s, id, Queued) then s.(pc := Between(rest))
    else
      var s1 := Set(s, id, Queued, Starting);
      if !Holds(s.grants, request.assignment, request.grant) then Settle(s1, id, Starting, Cancelled, rest)
      else s1.(pc := Acting(id, rest))
  }

  datatype Outcome = Done | Rejected | Broken

  function ActionSettles(s: State, outcome: Outcome): State {
    if !s.pc.Acting? then s
    else
      Settle(s, s.pc.id, Starting, match outcome case Done => Completed case Rejected => Queued case Broken => Failed, s.pc.rest)
  }

  // ---------- runs ----------

  datatype Event = GrantRecorded(id: Id, createdBy: Id, definition: Definition)
                 | GrantRequested(id: Id, createdBy: Id, definition: Definition)
                 | GrantDecided(id: Id, approve: bool, edited: Option<Definition>)
                 | GrantRevoked(id: Id)
                 | GrantsExpire(assignment: Id)
                 | AssignmentMoves(assignment: Id, finished: bool)
                 | SessionRebinds(assignment: Id, binding: Binding)
                 | Requested(id: Id, request: Request)
                 | CancelCalled(id: Id, caller: Option<Id>)
                 | Woken(order: seq<Id>)
                 | RowTaken(order: seq<Id>, look: Look)
                 | ProjectAnswered(answer: ProjectAnswer, room: bool)
                 | ModelAnswered(model: ModelAnswer, room: bool)
                 | ActionReturned(outcome: Outcome)
                 | StopCalled
                 | Killed

  function Next(s: State, e: Event): State {
    match e
    case GrantRecorded(id, createdBy, definition) => s.(grants := InsertGrant(s.grants, id, Grant(createdBy, Active, definition)))
    case GrantRequested(id, createdBy, definition) => s.(grants := InsertGrant(s.grants, id, Grant(createdBy, Pending, definition)))
    case GrantDecided(id, approve, edited) => s.(grants := Decide(s.grants, id, approve, edited))
    case GrantRevoked(id) => s.(grants := Revoke(s.grants, id))
    case GrantsExpire(assignment) => s.(grants := ExpireForAssignment(s.grants, assignment))
    case AssignmentMoves(assignment, finished) => s.(grants := s.grants.(finished := s.grants.finished[assignment := finished]))
    case SessionRebinds(assignment, binding) => s.(grants := s.grants.(bindings := s.grants.bindings[assignment := binding]))
    case Requested(id, request) => Enqueue(s, id, request)
    case CancelCalled(id, caller) => (match Cancel(s, id, caller) case Ok(t) => t case Err(_) => s)
    case Woken(order) => if s.stopped then s else Drain(s, order)
    case RowTaken(order, look) => NextRow(s, order, look)
    case ProjectAnswered(answer, room) => ProjectKnown(s, answer, room)
    case ModelAnswered(model, room) => ModelKnown(s, model, room)
    case ActionReturned(outcome) => ActionSettles(s, outcome)
    case StopCalled => s.(stopped := true)
    case Killed => s.(pc := Idle, again := false, stopped := false)
  }

  function Execute(s: State, events: seq<Event>): State
    decreases |events|
  {
    if events == [] then s else Execute(Next(s, events[0]), events[1..])
  }

  const EMPTY := State(Grants(map[], map[], map[]), map[], Idle, false, false)

  /** The step that calls the session action of a request. */
  predicate Invokes(s: State, e: Event, id: Id) {
    !s.pc.Acting? && Next(s, e).pc.Acting? && Next(s, e).pc.id == id
  }
}
