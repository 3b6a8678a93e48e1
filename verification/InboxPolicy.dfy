/**
 The four places a coordination message lives in, and what moves it between them
 (apps/server/src/coordination/inbox-policy.ts and the message parts of apps/server/src/coordination/service.ts):
 the rows of `coordination_messages`, the policy receipts, the time-ordered expiry index and the supervisor handoffs.
 Times are milliseconds; one operation reads the clock once.
 */
module InboxPolicy {
  import opened Common

  type Id = string

  const CAPACITY := 100
  const DEFAULT_VALID_FOR := 3600
  const DURABLE_VALID_FOR := 604800
  const RESUPPLY_AFTER_MS := 60000

  datatype Priority = P1 | P2 | P3
  datatype Origin = Direct | FromHandoff | Overdue | FromDispatch

  /** What a sender chooses. `wakeReason` has been trimmed. */
  datatype Options = Options(priority: Option<Priority>, validFor: Option<int>, wakeReason: Option<string>)

  /** A collision-free digest. */
  datatype Hash = Hash(sender: Id, recipient: Id, text: string)

  datatype Row = Row(sender: Id, recipient: Id, text: string, createdAt: int, suppliedAt: Option<int>, acknowledgedAt: Option<int>)
  datatype Policy = Policy(sender: Id, recipient: Id, createdAt: int, origin: Origin, priority: Priority, wakeReason: Option<string>,
                           expiresAt: int, hash: Hash, suppliedAt: Option<int>, acknowledgedAt: Option<int>, expired: bool)
  datatype ExpiryKey = ExpiryKey(at: int, id: Id)
  datatype HandoffKey = HandoffKey(worker: Id, event: nat, revision: nat, reason: string)
  datatype Handoff = Handoff(messageId: Id, recipient: Id, worker: Id, timestamp: int, text: Option<string>, blocked: bool, expired: bool)

  datatype Post = Post(rows: map<Id, Row>, policies: map<Id, Policy>, expiry: set<ExpiryKey>, handoffs: map<HandoffKey, Handoff>)

  const NoPost := Post(map[], map[], {}, map[])

  // ---------- inbox-policy.ts ----------

  predicate OneShortLine(reason: string) {
    1 <= |reason| <= 300 && '\r' !in reason && '\n' !in reason
  }

  predicate ValidOptions(options: Options) {
    && (options.validFor.Some? ==> 1 <= options.validFor.value <= DURABLE_VALID_FOR)
    && (options.priority == Some(P1) ==> options.wakeReason.Some? && OneShortLine(options.wakeReason.value))
    && (options.wakeReason.Some? ==> options.priority == Some(P1))
  }

  function PriorityOf(options: Options): Priority {
    if options.priority.Some? then options.priority.value else P3
  }

  function PolicyFor(sender: Id, recipient: Id, text: string, options: Options, origin: Origin, now: int): Policy {
    var validFor := if options.validFor.Some? then options.validFor.value else DEFAULT_VALID_FOR;
    Policy(sender, recipient, now, origin, PriorityOf(options), options.wakeReason, now + validFor * 1000,
           Hash(sender, recipient, text), None, None, false)
  }

  /** The unacknowledged rows of one pool of one recipient: P1, or everything else. */
  function Pool(p: Post, recipient: Id, urgent: bool): set<Id> {
    set id | id in p.rows && InPool(p, recipient, urgent, id)
  }

  predicate InPool(p: Post, recipient: Id, urgent: bool, id: Id)
    requires id in p.rows
  {
    && id in p.policies && p.rows[id].recipient == recipient && p.rows[id].acknowledgedAt.None?
    && (p.policies[id].priority == P1) == urgent
  }

  predicate HasSpace(p: Post, recipient: Id, priority: Priority) {
    |Pool(p, recipient, priority == P1)| < CAPACITY
  }

  function SetPolicy(p: Post, id: Id, policy: Policy): Post {
    p.(policies := p.policies[id := policy], expiry := p.expiry + {ExpiryKey(policy.expiresAt, id)})
  }

  /** A new row with its policy. */
  function Insert(p: Post, id: Id, policy: Policy, text: string): Post {
    SetPolicy(p.(rows := p.rows[id := Row(policy.sender, policy.recipient, text, policy.createdAt, None, None)]), id, policy)
  }

  predicate Due(p: Post, now: int, id: Id) {
    id in p.policies && ExpiryKey(p.policies[id].expiresAt, id) in p.expiry && p.policies[id].expiresAt <= now
  }

  predicate Dies(p: Post, now: int, id: Id) {
    Due(p, now, id) && !(id in p.rows && p.rows[id].acknowledgedAt.Some?)
  }

  function Receipt(policy: Policy): Policy {
    policy.(wakeReason := None, expired := true)
  }

  function Emptied(h: Handoff): Handoff {
    h.(text := None, blocked := false, expired := true)
  }

  /** `expireMessages`: bodies go, receipts stay. */
  function Expire(p: Post, now: int): Post {
    Post(map id | id in p.rows && !Dies(p, now, id) :: p.rows[id],
         map id | id in p.policies :: if Dies(p, now, id) then Receipt(p.policies[id]) else p.policies[id],
         set k | k in p.expiry && k.at > now,
         map k | k in p.handoffs :: if Dies(p, now, p.handoffs[k].messageId) then Emptied(p.handoffs[k]) else p.handoffs[k])
  }

  // ---------- mail, acknowledgement and handoffs (service.ts) ----------

  /** What `inbox` can offer to `recipient` now: unacknowledged, and not supplied in the last minute. */
  predicate Offerable(p: Post, recipient: Id, now: int, id: Id) {
    && id in p.rows && id in p.policies
    && p.rows[id].recipient == recipient && p.rows[id].acknowledgedAt.None?
    && (p.rows[id].suppliedAt.Some? ==> p.rows[id].suppliedAt.value < now - RESUPPLY_AFTER_MS)
  }

  function SupplyOne(p: Post, id: Id, now: int): Post
    requires id in p.rows && id in p.policies
  {
    var policy := p.policies[id];
    p.(rows := p.rows[id := p.rows[id].(suppliedAt := Some(now))],
       policies := p.policies[id := policy.(suppliedAt := if policy.suppliedAt.Some? then policy.suppliedAt else Some(now))])
  }

  function Supply(p: Post, batch: seq<Id>, now: int): Post
    requires forall id :: id in batch ==> id in p.rows && id in p.policies
    decreases |batch|
  {
    if batch == [] then p else Supply(SupplyOne(p, batch[0], now), batch[1..], now)
  }

  datatype AckError = NotTheRecipient | NotSupplied
  datatype AckOutcome = AckOutcome(post: Post, acknowledged: seq<Id>, expiredUnread: seq<Id>)

  function AcknowledgeOne(p: Post, recipient: Id, id: Id, now: int): Result<Option<Post>, AckError> {
    if id !in p.policies || p.policies[id].recipient != recipient then Err(NotTheRecipient)
    else
      var policy := p.policies[id];
      if policy.expired && policy.suppliedAt.None? then Ok(None)
      else
        var offered := id in p.rows && p.rows[id].recipient == recipient && p.rows[id].suppliedAt.Some?;
        if !offered && !(policy.expired && policy.suppliedAt.Some?) then Err(NotSupplied)
        else
          var rows := if !offered then p.rows
                      else p.rows[id := p.rows[id].(acknowledgedAt := if p.rows[id].acknowledgedAt.Some? then p.rows[id].acknowledgedAt else Some(now))];
          var receipt := policy.(acknowledgedAt := if policy.acknowledgedAt.Some? then policy.acknowledgedAt else Some(now));
          Ok(Some(p.(rows := rows, policies := p.policies[id := receipt], expiry := p.expiry - {ExpiryKey(policy.expiresAt, id)})))
  }

  /** The loop of `acknowledge`: one transaction, so one error undoes it all. */
  function AcknowledgeAll(o: AckOutcome, recipient: Id, ids: seq<Id>, now: int): Result<AckOutcome, AckError>
    decreases |ids|
  {
    if ids == [] then Ok(o)
    else
      match AcknowledgeOne(o.post, recipient, ids[0], now)
      case Err(e) => Err(e)
      case Ok(None) => AcknowledgeAll(o.(expiredUnread := o.expiredUnread + [ids[0]]), recipient, ids[1..], now)
      case Ok(Some(next)) => AcknowledgeAll(AckOutcome(next, o.acknowledged + [ids[0]], o.expiredUnread), recipient, ids[1..], now)
  }

  /** A handoff is stored, and enters the supervisor's inbox at once when there is room. */
  function HandOff(p: Post, key: HandoffKey, id: Id, policy: Policy, text: string): Post {
    var blocked := !HasSpace(p, policy.recipient, policy.priority);
    var stored := p.(handoffs := p.handoffs[key := Handoff(id, policy.recipient, policy.sender, policy.createdAt, Some(text), blocked, false)]);
    if blocked then SetPolicy(stored, id, policy) else Insert(stored, id, policy, text)
  }

  /** One turn of `flushSupervisorHandoffs`; `known` are the assignments that exist. A held message never has a row yet
      (HandoffsOk), so the insertion meets no duplicate key. */
  function FlushOne(p: Post, key: HandoffKey, known: set<Id>): Post {
    if key !in p.handoffs || !p.handoffs[key].blocked || p.handoffs[key].text.None? then p
    else
      var h := p.handoffs[key];
      if h.recipient !in known || h.messageId !in p.policies || h.messageId in p.rows
         || !HasSpace(p, h.recipient, p.policies[h.messageId].priority) then p
      else p.(rows := p.rows[h.messageId := Row(h.worker, h.recipient, h.text.value, h.timestamp, None, None)],
              handoffs := p.handoffs[key := h.(blocked := false)])
  }

  /** `keys` are the held handoffs in key order. */
  function Flush(p: Post, keys: seq<HandoffKey>, known: set<Id>): Post
    decreases |keys|
  {
    if keys == [] then p else Flush(FlushOne(p, keys[0], known), keys[1..], known)
  }
}
