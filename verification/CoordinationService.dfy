/** The service over its tables and keys: each operation changes the fields step by step and meets the transition of module
    Coordination; an operation that throws inside its transaction checks before it writes, or restores what it found. */
module CoordinationService {
  import opened Common
  import opened InboxPolicy
  import opened InboxSafety
  import C = Coordination
  import Safety = CoordinationSafety
  import Theorems = CoordinationTheorems
  import Chains

  class CoordinationService {
    var now: int
    var assignments: map<Id, C.Status>
    var sendOnly: set<Id>
    var paused: set<Id>
    var controls: map<Id, C.Control>
    var tasks: map<Id, C.Task>
    var dispatches: map<Id, C.Dispatched>
    var dispatched: map<C.Revision, Id>
    var events: nat
    var lastEvent: map<Id, nat>
    var digestAt: map<Id, int>
    var digestMembers: map<Id, set<Id>>
    var rows: map<Id, Row>
    var policies: map<Id, Policy>
    var expiry: set<ExpiryKey>
    var handoffs: map<HandoffKey, Handoff>

    function Mailbox(): Post
      reads this
    {
      Post(rows, policies, expiry, handoffs)
    }

    function State(): C.State
      reads this
    {
      C.State(now, assignments, sendOnly, paused, controls, tasks, dispatches, dispatched, C.EventLog(events, lastEvent),
              C.Digests(digestAt, digestMembers), Mailbox())
    }

    ghost predicate Valid()
      reads this
    {
      PostOk(Mailbox())
    }

    constructor (now: int)
      ensures State() == C.Initial(now) && Valid()
    {
      this.now, assignments, sendOnly, paused := now, map[], {}, {};
      controls, tasks, dispatches, dispatched, events, lastEvent := map[], map[], map[], map[], 0, map[];
      digestAt, digestMembers := map[], map[];
      rows, policies, expiry, handoffs := map[], map[], {}, map[];
      new;
      assert forall r, u :: Pool(Mailbox(), r, u) == {};
    }

    // ---------- inbox-policy.ts ----------

    method SetMessagePolicy(id: Id, policy: Policy)
      modifies this`policies, this`expiry
      ensures Mailbox() == SetPolicy(old(Mailbox()), id, policy)
    {
      policies := policies[id := policy];
      expiry := expiry + {ExpiryKey(policy.expiresAt, id)};
    }

    method InsertMessage(id: Id, policy: Policy, text: string)
      modifies this`rows, this`policies, this`expiry
      ensures Mailbox() == Insert(old(Mailbox()), id, policy, text)
    {
      rows := rows[id := Row(policy.sender, policy.recipient, text, policy.createdAt, None, None)];
      SetMessagePolicy(id, policy);
    }

    /** The rows and receipts are those of `before` with the messages `ids` gone. */
    ghost predicate Gone(before: Post, ids: set<Id>)
      reads this
    {
      rows == WithoutBodies(before, ids) && policies == WithReceipts(before, ids)
    }

    /** One turn of the loop over the expired keys. */
    method SweepKey(ghost before: Post, k: ExpiryKey, ids: set<Id>) returns (ids': set<Id>)
      requires Gone(before, ids) && k.id !in ids && k.id in before.policies
      modifies this`rows, this`policies, this`expiry
      ensures ids' == if k.id in before.rows && before.rows[k.id].acknowledgedAt.Some? then ids else ids + {k.id}
      ensures Gone(before, ids') && expiry == old(expiry) - {k}
    {
      ids' := ids;
      OneMoreGone(before, ids, k.id);
      if k.id !in rows || rows[k.id].acknowledgedAt.None? {
        rows := rows - {k.id};
        policies := policies[k.id := policies[k.id].(wakeReason := None, expired := true)];
        ids' := ids + {k.id};
      }
      expiry := expiry - {k};
    }

    /** The loop over the expired keys. Returns the IDs whose bodies went. */
    method SweepKeys() returns (ids: set<Id>)
      requires KeysOk(Mailbox())
      modifies this`rows, this`policies, this`expiry
      ensures forall id :: id in ids <==> Dies(old(Mailbox()), now, id)
      ensures rows == Expire(old(Mailbox()), now).rows
      ensures policies == Expire(old(Mailbox()), now).policies
      ensures expiry == Expire(old(Mailbox()), now).expiry
    {
      ghost var before := Mailbox();
      var due := set k | k in expiry && k.at <= now;
      var todo := due;
      ids := {};
      while todo != {}
        invariant todo <= due
        invariant forall id :: id in ids <==> Swept(before, now, todo, id)
        invariant expiry == before.expiry - (due - todo) && Gone(before, ids)
        decreases |todo|
      {
        var k :| k in todo;
        assert KeyOk(before, k) && k.id !in ids;
        OneKeyLess(before, now, todo, k);
        ids := SweepKey(before, k, ids);
        todo := todo - {k};
      }
      AllGone(before, now, ids);
    }

    /** The loop over the handoffs: those whose message just went lose their text. */
    method EmptyHandoffs(ids: set<Id>)
      modifies this`handoffs
      ensures handoffs == map k | k in old(handoffs) :: if old(handoffs)[k].messageId in ids then Emptied(old(handoffs)[k]) else old(handoffs)[k]
    {
      ghost var before := handoffs;
      var todo := handoffs.Keys;
      while todo != {}
        invariant todo <= before.Keys
        invariant handoffs == map k | k in before :: if k !in todo && before[k].messageId in ids then Emptied(before[k]) else before[k]
        decreases |todo|
      {
        var k :| k in todo;
        if handoffs[k].messageId in ids {
          handoffs := handoffs[k := handoffs[k].(text := None, blocked := false, expired := true)];
        }
        todo := todo - {k};
      }
    }

    method ExpireMessages()
      requires Valid()
      modifies this`rows, this`policies, this`expiry, this`handoffs
      ensures Mailbox() == Expire(old(Mailbox()), now) && Valid()
    {
      ghost var before := Mailbox();
      ExpirySweepsExactly(before, now);
      var ids := SweepKeys();
      EmptyHandoffs(ids);
      assert handoffs == Expire(before, now).handoffs;
    }

    // ---------- continuation.ts and tasks.ts ----------

    function ControlOf(id: Id): C.Control
      reads this`controls
    {
      if id in controls then controls[id] else C.Control(C.WaitingForInput, None, None, 0, None)
    }

    method SetContinuation(id: Id, mode: C.Mode, supervisor: Option<Option<Id>>)
      requires Valid()
      modifies this`controls
      ensures State() == C.SetContinuation(old(State()), id, mode, supervisor) && Valid()
    {
      var next := ControlOf(id);
      if supervisor.Some? {
        next := next.(supervisor := supervisor.value);
      }
      controls := controls[id := next.(mode := mode, revision := next.revision + 1, recovery := None, awaiting := None)];
    }

    method SetAwaiting(id: Id, description: Option<string>) returns (error: Option<C.Error>)
      requires Valid()
      modifies this`controls
      ensures match C.SetAwaiting(old(State()), id, description)
              case Err(e) => error == Some(e) && State() == old(State())
              case Ok(t) => error.None? && State() == t
      ensures Valid()
    {
      var control := ControlOf(id);
      if description.Some? && control.mode != C.Unattended {
        return Some(C.AwaitingNeedsUnattended);
      }
      if description.None? {
        control := control.(awaiting := None);
      } else {
        control := control.(awaiting := Some(C.Awaiting(description.value, now, false)));
        if control.recovery == Some(C.Submitted) {
          control := control.(recovery := Some(C.Scheduled));
        }
      }
      controls := controls[id := control.(revision := control.revision + 1)];
      return None;
    }

    method AlertOverdueAwait(id: Id, unused: Id, text: string)
      requires Valid()
      modifies this`controls, this`rows, this`policies, this`expiry, this`handoffs
      ensures State() == C.AlertOverdueAwait(old(State()), id, unused, text)
      ensures !C.AlertDue(State(), id)
      ensures unused !in old(policies) ==> Valid()
    {
      if unused !in policies {
        Safety.AlertSound(State(), id, unused, text);
      }
      ExpireMessages();
      AlertOnce(id, unused, text);
    }

    /** Whom to tell of the wait of `id`, if it is due. */
    method AlertTarget(id: Id) returns (supervisor: Option<Id>)
      ensures supervisor == if C.AlertDue(State(), id) then C.ControlOf(State(), id).supervisor else None
    {
      var control := ControlOf(id);
      if control.mode != C.Unattended || control.awaiting.None? || control.awaiting.value.alerted || control.supervisor.None?
         || now - control.awaiting.value.startedAt < C.AWAIT_ALERT_MS {
        return None;
      }
      if control.supervisor.value !in assignments || !HasSpace(Mailbox(), control.supervisor.value, P3) {
        return None;
      }
      return control.supervisor;
    }

    method AlertOnce(id: Id, unused: Id, text: string)
      modifies this`controls, this`rows, this`policies, this`expiry
      ensures State() == C.AlertOnce(old(State()), id, unused, text)
    {
      var supervisor := AlertTarget(id);
      if supervisor.None? {
        return;
      }
      var control := ControlOf(id);
      InsertMessage(unused, PolicyFor(id, supervisor.value, text, Options(None, None, None), Overdue, now), text);
      controls := controls[id := control.(awaiting := Some(control.awaiting.value.(alerted := true)))];
    }

    /** `updateTask`: the merged record is stored only when it is complete and differs. */
    method UpdateTask(id: Id, input: C.TaskInput) returns (result: Result<C.Task, C.Error>)
      modifies this`tasks
      ensures result == C.UpdateTask(C.TaskOf(old(State()), id), input)
      ensures State() == if result.Err? then old(State()) else old(State()).(tasks := old(tasks)[id := result.value])
    {
      var prior := C.TaskOf(State(), id);
      var task := C.Merge(prior, input);
      if C.Blank(task.deliverable) || C.Blank(task.doneWhen) || C.Blank(task.evidencePath) {
        return Err(C.TaskIncomplete);
      }
      if task.state == C.NeedsAction && (task.actionNeeded.None? || C.Blank(task.actionNeeded.value)) {
        return Err(C.ActionMissing);
      }
      if task.state != C.NeedsAction {
        task := task.(actionNeeded := None);
      }
      if prior.Some? && prior.value.deliverable == task.deliverable && prior.value.doneWhen == task.doneWhen
         && prior.value.evidencePath == task.evidencePath && prior.value.state == task.state
         && prior.value.actionNeeded == task.actionNeeded {
        assert tasks == tasks[id := prior.value] && prior.value.(revision := task.revision) == task;
        return Ok(prior.value);
      }
      tasks := tasks[id := task];
      return Ok(task);
    }

    // ---------- service.ts ----------

    method AddEvent(id: Id)
      modifies this`events, this`lastEvent
      ensures State() == C.AddEvent(old(State()), id)
    {
      events := events + 1;
      lastEvent := lastEvent[id := events];
    }

    method Send(sender: Id, id: Id, recipient: Id, text: string, options: Options) returns (error: Option<C.Error>)
      requires Valid()
      modifies this`rows, this`policies, this`expiry, this`handoffs
      ensures C.Reply(State(), error) == C.Send(old(State()), sender, id, recipient, text, options) && Valid()
      ensures error.None? ==> id in policies && policies[id].hash == Hash(sender, recipient, text)
    {
      Safety.SendSound(State(), sender, id, recipient, text, options);
      if recipient !in assignments {
        return Some(C.UnknownAssignment);
      }
      ExpireMessages();
      error := SendSwept(sender, id, recipient, text, options);
    }

    method SendSwept(sender: Id, id: Id, recipient: Id, text: string, options: Options) returns (error: Option<C.Error>)
      modifies this`rows, this`policies, this`expiry
      ensures C.Reply(State(), error) == C.SendSwept(old(State()), sender, id, recipient, text, options)
      ensures error.None? ==> id in policies && policies[id].hash == Hash(sender, recipient, text)
    {
      if id in policies {
        if policies[id].hash != Hash(sender, recipient, text) {
          return Some(C.DifferentContent);
        }
        return None;
      }
      if !ValidOptions(options) {
        return Some(C.InvalidOptions);
      }
      if recipient in sendOnly {
        return Some(C.SendOnly);
      }
      if !HasSpace(Mailbox(), recipient, PriorityOf(options)) {
        return Some(C.InboxFull);
      }
      if id in rows {
        return Some(C.DuplicateKey);
      }
      InsertMessage(id, PolicyFor(sender, recipient, text, options, Direct, now), text);
      return None;
    }

    /** The supplying loop of `inbox`. */
    method SupplyBatch(batch: seq<Id>)
      requires forall id :: id in batch ==> id in rows && id in policies
      modifies this`rows, this`policies
      ensures Mailbox() == Supply(old(Mailbox()), batch, now)
    {
      for i := 0 to |batch|
        invariant forall id :: id in batch ==> id in rows && id in policies
        invariant Supply(Mailbox(), batch[i..], now) == Supply(old(Mailbox()), batch, now)
        invariant expiry == old(expiry) && handoffs == old(handoffs)
      {
        var id := batch[i];
        assert batch[i..][1..] == batch[i + 1..] && batch[i..][0] == id;
        rows := rows[id := rows[id].(suppliedAt := Some(now))];
        var policy := policies[id];
        if policy.suppliedAt.None? {
          policy := policy.(suppliedAt := Some(now));
        }
        policies := policies[id := policy];
      }
    }

    /** The filter and the sort of `inbox`, one priority at a time. */
    method Select(reader: Id, awareness: bool, urgent: bool, order: seq<Id>, priority: Priority) returns (ids: seq<Id>)
      ensures ids == C.OfPriority(State(), reader, awareness, urgent, order, priority)
    {
      ids := [];
      for i := 0 to |order|
        invariant ids == C.OfPriority(State(), reader, awareness, urgent, order[..i], priority)
      {
        assert order[..i + 1][..i] == order[..i];
        if C.Passes(State(), reader, awareness, urgent, order[i]) && policies[order[i]].priority == priority {
          ids := ids + [order[i]];
        }
      }
      assert order[..|order|] == order;
    }

    method SelectAll(reader: Id, awareness: bool, urgent: bool, order: seq<Id>) returns (selected: seq<Id>)
      requires urgent == C.Urgent(State(), reader, order)
      ensures selected == C.Selected(State(), reader, awareness, order)
    {
      var first := Select(reader, awareness, urgent, order, P1);
      var second := Select(reader, awareness, urgent, order, P2);
      var third := Select(reader, awareness, urgent, order, P3);
      selected := first + second + third;
    }

    method NoteDigest(reader: Id, urgent: bool, selected: seq<Id>)
      modifies this`digestAt, this`digestMembers
      ensures State() == C.NoteDigest(old(State()), reader, urgent, selected)
    {
      if !C.DigestDue(State(), reader) && !urgent {
        return;
      }
      if exists id :: id in C.Batch(selected) && C.IsReport(State(), id) {
        ghost var before := State();
        var members := set id | id in selected && C.IsReport(State(), id);
        digestAt := digestAt[reader := now];
        digestMembers := digestMembers[reader := members];
      }
    }

    /** `inbox`, after its sweep. */
    method Inbox(reader: Id, awareness: bool, supply: bool, order: seq<Id>) returns (batch: seq<Id>)
      modifies this`rows, this`policies, this`digestAt, this`digestMembers
      ensures State() == C.Inbox(old(State()), reader, awareness, supply, order)
      ensures batch == C.Batch(C.Selected(old(State()), reader, awareness, order))
    {
      var urgent := C.Urgent(State(), reader, order);
      var selected := SelectAll(reader, awareness, urgent, order);
      batch := C.Batch(selected);
      C.SelectionIsOfferable(State(), reader, awareness, order);
      if supply {
        NoteDigest(reader, urgent, selected);
        SupplyBatch(batch);
      }
    }

    /** `poll` and `mail`. */
    method Mail(id: Id, awareness: bool, supply: bool, order: seq<Id>) returns (result: Result<seq<Id>, C.Error>)
      requires Valid()
      modifies this`rows, this`policies, this`expiry, this`handoffs, this`digestAt, this`digestMembers
      ensures C.Reply(State(), if result.Err? then Some(result.error) else None) == C.Mail(old(State()), id, awareness, supply, order)
      ensures result.Ok? ==> result.value == C.Batch(C.Selected(C.Expired(old(State())), id, awareness, order))
      ensures Valid()
    {
      Safety.MailSound(State(), id, awareness, supply, order);
      if id !in assignments {
        return Err(C.UnknownAssignment);
      }
      ExpireMessages();
      var batch := Inbox(id, awareness, supply, order);
      return Ok(batch);
    }

    /** The loop of `acknowledge`, on the tables as they are; the caller's transaction undoes it on an error. */
    method AcknowledgeEach(recipient: Id, ids: seq<Id>) returns (result: Result<AckOutcome, AckError>)
      modifies this`rows, this`policies, this`expiry
      ensures result == AcknowledgeAll(AckOutcome(old(Mailbox()), [], []), recipient, ids, now)
      ensures result.Ok? ==> Mailbox() == result.value.post
      ensures handoffs == old(handoffs)
    {
      var acknowledged, expiredUnread := [], [];
      for i := 0 to |ids|
        invariant AcknowledgeAll(AckOutcome(Mailbox(), acknowledged, expiredUnread), recipient, ids[i..], now)
                  == AcknowledgeAll(AckOutcome(old(Mailbox()), [], []), recipient, ids, now)
        invariant handoffs == old(handoffs)
      {
        var id := ids[i];
        assert ids[i..][1..] == ids[i + 1..] && ids[i..][0] == id;
        if id !in policies || policies[id].recipient != recipient {
          return Err(NotTheRecipient);
        }
        var policy := policies[id];
        if policy.expired && policy.suppliedAt.None? {
          expiredUnread := expiredUnread + [id];
        } else {
          var changed := false;
          if id in rows && rows[id].recipient == recipient && rows[id].suppliedAt.Some? {
            changed := true;
          }
          if !changed && (!policy.expired || policy.suppliedAt.None?) {
            return Err(NotSupplied);
          }
          StoreAcknowledgement(id, policy, changed);
          acknowledged := acknowledged + [id];
        }
      }
      return Ok(AckOutcome(Mailbox(), acknowledged, expiredUnread));
    }

    method StoreAcknowledgement(id: Id, policy: Policy, changed: bool)
      requires id in policies && policy == policies[id]
      requires changed <==> id in rows && rows[id].recipient == policy.recipient && rows[id].suppliedAt.Some?
      requires changed || (policy.expired && policy.suppliedAt.Some?)
      requires !(policy.expired && policy.suppliedAt.None?)
      modifies this`rows, this`policies, this`expiry
      ensures AcknowledgeOne(old(Mailbox()), policy.recipient, id, now) == Ok(Some(Mailbox()))
    {
      if changed && rows[id].acknowledgedAt.None? {
        rows := rows[id := rows[id].(acknowledgedAt := Some(now))];
      } else if changed {
        assert rows == rows[id := rows[id]];
      }
      policies := policies[id := policy.(acknowledgedAt := if policy.acknowledgedAt.Some? then policy.acknowledgedAt else Some(now))];
      expiry := expiry - {ExpiryKey(policy.expiresAt, id)};
    }

    method Acknowledge(id: Id, ids: seq<Id>, keys: seq<HandoffKey>) returns (error: Option<C.Error>)
      requires Valid()
      modifies this`controls, this`events, this`lastEvent, this`assignments, this`tasks, this`dispatches, this`dispatched, this`rows, this`policies, this`expiry, this`handoffs
      ensures C.Reply(State(), error) == C.Acknowledge(old(State()), id, ids, keys) && Valid()
    {
      var found := State();
      Safety.AcknowledgeEventSound(found, id, ids, keys);
      var result := AcknowledgeExpired(id, ids);
      if result.Err? {
        Restore(found);
        return Some(C.Refused(result.error));
      }
      FlushHandoffs(keys);
      return None;
    }

    /** The transaction of `acknowledge`. */
    method AcknowledgeExpired(id: Id, ids: seq<Id>) returns (result: Result<AckOutcome, AckError>)
      requires Valid()
      modifies this`rows, this`policies, this`expiry, this`handoffs
      ensures result == AcknowledgeAll(AckOutcome(Expire(old(Mailbox()), now), [], []), id, ids, now)
      ensures result.Ok? ==> Mailbox() == result.value.post && Valid()
    {
      ExpireMessages();
      ghost var swept := Mailbox();
      result := AcknowledgeEach(id, ids);
      if result.Ok? {
        Safety.AcknowledgeSound(AckOutcome(swept, [], []), id, ids, now);
      }
    }

    /** A transaction that throws leaves what it found. */
    method Restore(found: C.State)
      requires found.now == now && found.sendOnly == sendOnly && found.paused == paused
      requires found.digests == C.Digests(digestAt, digestMembers)
      modifies this`controls, this`events, this`lastEvent, this`assignments, this`tasks, this`dispatches, this`dispatched, this`rows, this`policies, this`expiry, this`handoffs
      ensures State() == found
    {
      RestoreMailbox(found.post);
      assignments, controls, events, lastEvent := found.assignments, found.controls, found.log.count, found.log.last;
      tasks, dispatches, dispatched := found.tasks, found.dispatches, found.dispatched;
    }

    method RestoreMailbox(found: Post)
      modifies this`rows, this`policies, this`expiry, this`handoffs
      ensures Mailbox() == found
    {
      rows, policies, expiry, handoffs := found.rows, found.policies, found.expiry, found.handoffs;
    }

    method FlushHandoffs(keys: seq<HandoffKey>)
      requires Valid()
      modifies this`rows, this`policies, this`expiry, this`handoffs
      ensures State() == C.FlushHandoffs(old(State()), keys) && Valid()
    {
      Safety.FlushHandoffsSound(State(), keys);
      ExpireMessages();
      ghost var swept := Mailbox();
      for i := 0 to |keys|
        invariant Flush(Mailbox(), keys[i..], assignments.Keys) == Flush(swept, keys, assignments.Keys)
      {
        var key := keys[i];
        assert keys[i..][1..] == keys[i + 1..] && keys[i..][0] == key;
        FlushHandoff(key);
      }
    }

    method FlushHandoff(key: HandoffKey)
      modifies this`rows, this`handoffs
      ensures Mailbox() == FlushOne(old(Mailbox()), key, assignments.Keys)
    {
      if key !in handoffs || !handoffs[key].blocked || handoffs[key].text.None? {
        return;
      }
      var h := handoffs[key];
      if h.recipient !in assignments || h.messageId !in policies || h.messageId in rows {
        return;
      }
      if !HasSpace(Mailbox(), h.recipient, policies[h.messageId].priority) {
        return;
      }
      rows := rows[h.messageId := Row(h.worker, h.recipient, h.text.value, h.timestamp, None, None)];
      handoffs := handoffs[key := h.(blocked := false)];
    }

    method NotifySupervisor(worker: Id, reason: string, options: Options, unused: Id, text: string) returns (error: Option<C.Error>)
      requires Valid()
      modifies this`rows, this`policies, this`expiry, this`handoffs
      ensures match C.Notify(old(State()), worker, reason, options, unused, text)
              case Err(e) => error == Some(e) && State() == old(State())
              case Ok(t) => error.None? && State() == t
      ensures unused !in old(policies) ==> Valid()
    {
      if unused !in policies && C.Notify(State(), worker, reason, options, unused, text).Ok? {
        Safety.NotifySound(State(), worker, reason, options, unused, text);
      }
      var full := Options(Some(if options.priority.Some? then options.priority.value else P2),
                          Some(if options.validFor.Some? then options.validFor.value else DURABLE_VALID_FOR), options.wakeReason);
      var supervisor := ControlOf(worker).supervisor;
      if supervisor.None? || supervisor.value !in assignments {
        return None;
      }
      var key := HandoffKey(worker, C.LastEvent(State(), worker), C.RevisionOf(State(), worker), reason);
      if key in handoffs {
        return None;
      }
      if !ValidOptions(full) {
        return Some(C.InvalidOptions);
      }
      var policy := PolicyFor(worker, supervisor.value, text, full, FromHandoff, now);
      StoreHandoff(key, unused, policy, text);
      return None;
    }

    method StoreHandoff(key: HandoffKey, id: Id, policy: Policy, text: string)
      modifies this`rows, this`policies, this`expiry, this`handoffs
      ensures Mailbox() == HandOff(old(Mailbox()), key, id, policy, text)
    {
      var blocked := !HasSpace(Mailbox(), policy.recipient, policy.priority);
      handoffs := handoffs[key := Handoff(id, policy.recipient, policy.sender, policy.createdAt, Some(text), blocked, false)];
      SetMessagePolicy(id, policy);
      if !blocked {
        rows := rows[id := Row(policy.sender, policy.recipient, text, policy.createdAt, None, None)];
      }
    }

    method Dispatch(supervisor: Id, id: Id, worker: Id, expected: int, input: Option<C.TaskInput>, text: string)
      returns (error: Option<C.Error>)
      requires Valid()
      modifies this`controls, this`events, this`lastEvent, this`assignments, this`tasks, this`dispatches, this`dispatched, this`rows, this`policies, this`expiry, this`handoffs
      ensures C.Reply(State(), error) == C.Dispatch(old(State()), supervisor, id, worker, expected, input, text)
      ensures if error.Some? then State() == C.Expired(old(State()))
              else id in dispatches && dispatches[id].fingerprint == C.Fingerprint(supervisor, worker, expected, input)
      ensures id in old(dispatches) || id !in old(policies) ==> Valid()
    {
      if id in dispatches || id !in policies {
        Safety.DispatchSound(State(), supervisor, id, worker, expected, input, text);
      }
      ExpireMessages();
      error := DispatchSwept(supervisor, id, worker, expected, input, text);
    }

    method DispatchSwept(supervisor: Id, id: Id, worker: Id, expected: int, input: Option<C.TaskInput>, text: string)
      returns (error: Option<C.Error>)
      modifies this`controls, this`events, this`lastEvent, this`assignments, this`tasks, this`dispatches, this`dispatched, this`rows, this`policies, this`expiry, this`handoffs
      ensures C.Reply(State(), error) == C.DispatchSwept(old(State()), supervisor, id, worker, expected, input, text)
      ensures if error.Some? then State() == old(State())
              else id in dispatches && dispatches[id].fingerprint == C.Fingerprint(supervisor, worker, expected, input)
    {
      if id in dispatches {
        return if dispatches[id].fingerprint != C.Fingerprint(supervisor, worker, expected, input) then Some(C.DifferentContent) else None;
      }
      var found := State();
      error := DispatchNew(supervisor, id, worker, expected, input, text);
      if error.Some? {
        Restore(found);
      }
    }

    /** The transaction of `dispatch` for a new ID. */
    method DispatchNew(supervisor: Id, id: Id, worker: Id, expected: int, input: Option<C.TaskInput>, text: string)
      returns (error: Option<C.Error>)
      modifies this`controls, this`events, this`lastEvent, this`assignments, this`tasks, this`dispatches, this`dispatched, this`rows, this`policies, this`expiry, this`handoffs
      ensures match C.DispatchNew(old(State()), supervisor, id, worker, expected, input, text)
              case Err(e) => error == Some(e)
              case Ok(t) => error.None? && State() == t
    {
      var activated := ActivateTask(supervisor, worker, expected, input);
      if activated.Err? {
        return Some(activated.error);
      }
      var revision := C.Revision(worker, activated.value.revision);
      if revision in dispatched {
        return Some(C.AlreadyDispatched);
      }
      if worker in sendOnly || !HasSpace(Mailbox(), worker, P2) {
        return Some(C.WorkerUnavailable);
      }
      if id in rows {
        return Some(C.DuplicateKey);
      }
      InsertDispatch(supervisor, id, worker, C.Dispatched(C.Fingerprint(supervisor, worker, expected, input), revision.revision), text);
      return None;
    }

    method InsertDispatch(supervisor: Id, id: Id, worker: Id, record: C.Dispatched, text: string)
      modifies this`rows, this`policies, this`expiry, this`dispatches, this`dispatched, this`events, this`lastEvent
      ensures State() == C.InsertDispatch(old(State()), supervisor, id, worker, record, text)
    {
      InsertMessage(id, PolicyFor(supervisor, worker, text, Options(Some(P2), Some(DURABLE_VALID_FOR), None), FromDispatch, now), text);
      dispatches := dispatches[id := record];
      dispatched := dispatched[C.Revision(worker, record.taskRevision) := id];
      AddEvent(supervisor);
    }

    /** The guards of a dispatch and its task update; on an error only the caller's transaction matters. */
    method ActivateTask(supervisor: Id, worker: Id, expected: int, input: Option<C.TaskInput>) returns (result: Result<C.Task, C.Error>)
      modifies this`tasks
      ensures result == C.DispatchTask(old(State()), supervisor, worker, expected, input)
      ensures result.Ok? ==> tasks == old(tasks)[worker := result.value]
    {
      if worker !in assignments {
        return Err(C.UnknownAssignment);
      }
      var control := ControlOf(worker);
      if control.supervisor != Some(supervisor) {
        return Err(C.NotTheSupervisor);
      }
      if supervisor !in assignments {
        return Err(C.UnknownAssignment);
      }
      if assignments[supervisor] == C.Finished || assignments[worker] == C.Finished || control.mode != C.Unattended
         || control.awaiting.Some? || control.recovery == Some(C.Blocked) || control.recovery == Some(C.Stalled) || worker in paused {
        return Err(C.DispatchPaused);
      }
      if C.RevisionOf(State(), worker) != expected {
        return Err(C.RevisionChanged);
      }
      result := UpdateTask(worker, (if input.Some? then input.value else C.NO_TASK_INPUT).(state := Some(C.Working)));
    }

    /** The walk over the supervisors of the proposed one. */
    method CheckSupervisor(id: Id, input: C.UpdateInput) returns (error: Option<C.Error>)
      ensures error == C.SupervisorVerdict(State(), id, input)
    {
      if input.supervisor.None? || input.supervisor.value.None? {
        return None;
      }
      var verdict := Chains.WalkChain(C.Links(State()), C.Unfinished(State()), id, input.supervisor.value.value);
      match verdict
      case Clear => return None;
      case Cycle => return Some(C.SupervisorCycle);
      case Inadmissible(at) => return Some(if at in assignments then C.FinishedSupervisor else C.UnknownAssignment);
    }

    method Redirect(id: Id, input: C.UpdateInput)
      requires Valid()
      modifies this`controls, this`events, this`lastEvent
      ensures State() == C.Redirect(old(State()), id, input) && Valid()
    {
      if input.continuation.Some? {
        SetContinuation(id, input.continuation.value, input.supervisor);
        AddEvent(id);
      } else if input.supervisor.Some? {
        var control := ControlOf(id);
        controls := controls[id := control.(supervisor := input.supervisor.value, revision := control.revision + 1)];
        AddEvent(id);
      }
    }

    /** The body of `update` up to its task; the caller restores the fields on an error. */
    method BeforeTask(id: Id, input: C.UpdateInput) returns (error: Option<C.Error>)
      requires Valid() && id in assignments
      modifies this`controls, this`events, this`lastEvent, this`assignments
      ensures match C.BeforeTask(old(State()), id, input)
              case Err(e) => error == Some(e)
              case Ok(t) => error.None? && State() == t
      ensures Valid()
    {
      error := CheckSupervisor(id, input);
      if error.Some? {
        return;
      }
      Redirect(id, input);
      if input.awaiting.Some? {
        error := SetAwaiting(id, input.awaiting.value);
        if error.Some? {
          return;
        }
      }
      assignments := assignments[id := if input.status.Some? then input.status.value else assignments[id]];
      if input.describes {
        AddEvent(id);
      }
    }

    method UpdateTaskAndNotify(id: Id, input: C.TaskInput, options: Options, unused: Id, text: string) returns (error: Option<C.Error>)
      requires Valid()
      modifies this`tasks, this`rows, this`policies, this`expiry, this`handoffs
      ensures match C.UpdateTaskAndNotify(old(State()), id, input, options, unused, text)
              case Err(e) => error == Some(e)
              case Ok(t) => error.None? && State() == t
    {
      var prior := C.TaskOf(State(), id);
      var updated := UpdateTask(id, input);
      if updated.Err? {
        return Some(updated.error);
      }
      var task := updated.value;
      error := None;
      if prior.None? || task.state != prior.value.state || (task.state == C.NeedsAction && task.actionNeeded != prior.value.actionNeeded) {
        if task.state == C.Done {
          error := NotifySupervisor(id, "A supervised worker completed its task.", options, unused, text);
        }
        if task.state == C.NeedsAction && task.actionNeeded.Some? {
          error := NotifySupervisor(id, "A supervised worker needs action: " + task.actionNeeded.value, options, unused, text);
        }
      }
    }

    method Update(id: Id, input: C.UpdateInput, unused: Id, text: string) returns (error: Option<C.Error>)
      requires Valid()
      modifies this`controls, this`events, this`lastEvent, this`assignments, this`tasks, this`dispatches, this`dispatched, this`rows, this`policies, this`expiry, this`handoffs
      ensures C.Reply(State(), error) == C.Update(old(State()), id, input, unused, text)
      ensures error.Some? ==> State() == old(State())
      ensures unused !in old(policies) ==> Valid()
    {
      if unused !in policies {
        Safety.UpdateSound(State(), id, input, unused, text);
      }
      if id !in assignments {
        return Some(C.UnknownAssignment);
      }
      var status := assignments[id];
      if status == C.Finished && input.status != Some(C.Active) && input.continuation != Some(C.Unattended)
         && !input.describes && input.supervisor.None? && input.task.None? && input.awaiting.None? {
        return None;
      }
      if (status == C.Finished && input.status != Some(C.Active)) || status == C.Disconnected {
        return Some(C.ResumeFirst);
      }
      var found := State();
      error := UpdateFrom(id, input, unused, text);
      if error.Some? {
        Restore(found);
      }
    }

    /** The rest of the transaction of `update`. */
    method UpdateFrom(id: Id, input: C.UpdateInput, unused: Id, text: string) returns (error: Option<C.Error>)
      requires Valid() && id in assignments
      modifies this`controls, this`events, this`lastEvent, this`assignments, this`tasks, this`dispatches, this`dispatched, this`rows, this`policies, this`expiry, this`handoffs
      ensures match C.UpdateFrom(old(State()), id, input, unused, text)
              case Err(e) => error == Some(e)
              case Ok(t) => error.None? && State() == t
    {
      error := BeforeTask(id, input);
      if error.None? && input.task.Some? {
        error := UpdateTaskAndNotify(id, input.task.value, input.options, unused, text);
      }
    }

    method Close(id: Id) returns (error: Option<C.Error>)
      requires Valid()
      modifies this`controls, this`assignments, this`events, this`lastEvent, this`tasks
      ensures match C.Close(old(State()), id)
              case Err(e) => error == Some(e)
              case Ok(t) => error.None? && State() == t
      ensures error.None? ==> id in assignments && assignments[id] == C.Finished
      ensures Valid()
    {
      SetContinuation(id, C.WaitingForInput, None);
      assignments := assignments[id := C.Finished];
      AddEvent(id);
      if id in tasks {
        var closed := UpdateTask(id, C.NO_TASK_INPUT.(state := Some(C.Done)));
        if closed.Err? {
          return Some(closed.error);
        }
      }
      return None;
    }

    method Finish(id: Id, options: Options, unused: Id, text: string) returns (error: Option<C.Error>)
      requires Valid()
      modifies this`controls, this`events, this`lastEvent, this`assignments, this`tasks, this`dispatches, this`dispatched, this`rows, this`policies, this`expiry, this`handoffs
      ensures C.Reply(State(), error) == C.Finish(old(State()), id, options, unused, text)
      ensures if error.Some? then State() == old(State()) else id in assignments && assignments[id] == C.Finished
      ensures unused !in old(policies) ==> Valid()
    {
      if unused !in policies {
        Safety.FinishSound(State(), id, options, unused, text);
      }
      if id !in assignments {
        return Some(C.UnknownAssignment);
      }
      if assignments[id] == C.Finished {
        return None;
      }
      error := FinishOpen(id, options, unused, text);
    }

    /** The writes of `finish`; the caller restores the fields on an error. */
    method CloseAndReport(id: Id, options: Options, unused: Id, text: string) returns (error: Option<C.Error>)
      requires Valid()
      modifies this`controls, this`assignments, this`events, this`lastEvent, this`tasks, this`rows, this`policies, this`expiry, this`handoffs
      ensures match C.CloseAndReport(old(State()), id, options, unused, text)
              case Err(e) => error == Some(e)
              case Ok(t) => error.None? && State() == t
      ensures error.None? ==> id in assignments && assignments[id] == C.Finished
    {
      var owed := C.StillOwed(State(), id);
      error := Close(id);
      if error.None? && owed {
        error := NotifySupervisor(id, "A supervised worker completed its assignment.", options, unused, text);
      }
    }

    /** The transaction of `finish`. */
    method FinishOpen(id: Id, options: Options, unused: Id, text: string) returns (error: Option<C.Error>)
      requires Valid() && id in assignments && assignments[id] != C.Finished
      modifies this`controls, this`events, this`lastEvent, this`assignments, this`tasks, this`dispatches, this`dispatched, this`rows, this`policies, this`expiry, this`handoffs
      ensures C.Reply(State(), error) == C.Finish(old(State()), id, options, unused, text)
      ensures if error.Some? then State() == old(State()) else id in assignments && assignments[id] == C.Finished
    {
      if ControlOf(id).supervisor.Some? && C.StillOwed(State(), id) && !ValidOptions(options) {
        return Some(C.InvalidOptions);
      }
      var found := State();
      error := CloseAndReport(id, options, unused, text);
      if error.Some? {
        Restore(found);
      }
    }

    method Disconnect(id: Id, unused: Id, text: string) returns (error: Option<C.Error>)
      requires Valid()
      modifies this`assignments, this`events, this`lastEvent, this`rows, this`policies, this`expiry, this`handoffs
      ensures C.Reply(State(), error) == C.Disconnect(old(State()), id, unused, text)
      ensures id in assignments ==> assignments[id] == C.Disconnected || assignments[id] == C.Finished
      ensures unused !in old(policies) ==> Valid()
    {
      if unused !in policies {
        Safety.DisconnectSound(State(), id, unused, text);
      }
      if id !in assignments {
        return Some(C.UnknownAssignment);
      }
      if assignments[id] == C.Finished || assignments[id] == C.Disconnected {
        return None;
      }
      assignments := assignments[id := C.Disconnected];
      AddEvent(id);
      if ControlOf(id).mode != C.Unattended || !C.StillOwed(State(), id) {
        return None;
      }
      error := NotifySupervisor(id, "An unattended supervised worker disconnected.", Options(None, None, None), unused, text);
    }

    method Register(id: Id, accepts: Option<bool>, launchedBy: Option<Id>)
      requires Valid()
      modifies this`assignments, this`sendOnly, this`controls, this`events, this`lastEvent
      ensures State() == C.Register(old(State()), id, accepts, launchedBy) && Valid()
    {
      Enroll(id, accepts);
      if launchedBy.Some? && ControlOf(id).revision == 0 {
        Bind(id, launchedBy.value);
      }
      AddEvent(id);
    }

    /** A finished assignment stays finished when it registers again. */
    method Enroll(id: Id, accepts: Option<bool>)
      modifies this`assignments, this`sendOnly
      ensures assignments == old(assignments)[id := if id in old(assignments) && old(assignments)[id] == C.Finished then C.Finished else C.Active]
      ensures sendOnly == if accepts == Some(false) then old(sendOnly) + {id} else if accepts == Some(true) then old(sendOnly) - {id}
                          else old(sendOnly)
    {
      assignments := assignments[id := if id in assignments && assignments[id] == C.Finished then C.Finished else C.Active];
      if accepts == Some(false) {
        sendOnly := sendOnly + {id};
      } else if accepts == Some(true) {
        sendOnly := sendOnly - {id};
      }
    }

    method Bind(id: Id, supervisor: Id)
      requires Valid()
      modifies this`controls
      ensures State() == C.Bind(old(State()), id, supervisor) && Valid()
    {
      var live := supervisor in assignments && assignments[supervisor] != C.Finished;
      SetContinuation(id, C.Unattended, Some(if live then Some(supervisor) else None));
    }

    // ---------- runs ----------

    predicate MovesMail(e: C.Event) {
      e.Sends? || e.Reads? || e.Acknowledges?
    }

    /** Time, the recovery status and the pauses change beside the service. */
    predicate IsBeside(e: C.Event) {
      e.Tick? || e.RecoveryMoves? || e.Pauses?
    }

    method HandleBeside(e: C.Event)
      requires Valid() && IsBeside(e)
      modifies this
      ensures State() == C.Next(old(State()), e) && Valid()
    {
      match e
      case Tick(ms) => now := now + ms;
      case RecoveryMoves(id, recovery) => controls := controls[id := ControlOf(id).(recovery := recovery)];
      case Pauses(id, on) => paused := if on then paused + {id} else paused - {id};
    }

    method HandleSweep(e: C.Event)
      requires Valid() && (e.Reconciles? || e.Expires?)
      modifies this
      ensures State() == C.Next(old(State()), e) && Valid()
    {
      if e.Expires? {
        ExpireMessages();
      } else {
        FlushHandoffs(e.keys);
      }
    }

    method HandleMail(e: C.Event)
      requires Valid() && MovesMail(e)
      modifies this
      ensures State() == C.Next(old(State()), e) && Valid()
    {
      match e
      case Sends(sender, id, recipient, text, options) => var _ := Send(sender, id, recipient, text, options);
      case Reads(id, awareness, supply, order) => var _ := Mail(id, awareness, supply, order);
      case Acknowledges(id, ids, keys) => var _ := Acknowledge(id, ids, keys);
    }

    method HandleWork(e: C.Event)
      requires Valid() && Safety.FreshIds(State(), e)
      requires !MovesMail(e) && !IsBeside(e) && !e.Reconciles? && !e.Expires?
      modifies this
      ensures State() == C.Next(old(State()), e) && Valid()
    {
      match e
      case Registers(id, accepts, launchedBy) => Register(id, accepts, launchedBy);
      case Updates(id, input, unused, text) => var _ := Update(id, input, unused, text);
      case Dispatches(supervisor, id, worker, expected, task, text) => var _ := Dispatch(supervisor, id, worker, expected, task, text);
      case Finishes(id, options, unused, text) => var _ := Finish(id, options, unused, text);
      case Disconnects(id, unused, text) => var _ := Disconnect(id, unused, text);
      case Alerts(id, unused, text) => AlertOverdueAwait(id, unused, text);
      case HumanSets(id, mode) => SetContinuation(id, mode, None);
    }

    /** Any sequence of calls leaves the object in the state of the run, so that what holds of every run holds of the object. */
    method HandleAll(calls: seq<C.Event>)
      requires Valid() && Theorems.AllFresh(State(), calls)
      modifies this
      ensures State() == C.Execute(old(State()), calls) && Valid()
    {
      for i := 0 to |calls|
        invariant Valid() && Theorems.AllFresh(State(), calls[i..])
        invariant C.Execute(State(), calls[i..]) == C.Execute(old(State()), calls)
      {
        var e := calls[i];
        assert calls[i..][1..] == calls[i + 1..] && calls[i..][0] == e;
        if MovesMail(e) {
          HandleMail(e);
        } else if IsBeside(e) {
          HandleBeside(e);
        } else if e.Reconciles? || e.Expires? {
          HandleSweep(e);
        } else {
          HandleWork(e);
        }
      }
    }
  }

  /** The message died, and its key is no longer among those to do. */
  ghost predicate Swept(before: Post, now: int, todo: set<ExpiryKey>, id: Id) {
    Dies(before, now, id) && ExpiryKey(before.policies[id].expiresAt, id) !in todo
  }

  function WithoutBodies(p: Post, ids: set<Id>): map<Id, Row> {
    map id | id in p.rows && id !in ids :: p.rows[id]
  }

  function WithReceipts(p: Post, ids: set<Id>): map<Id, Policy> {
    map id | id in p.policies :: if id in ids then Receipt(p.policies[id]) else p.policies[id]
  }

  lemma OneMoreGone(p: Post, ids: set<Id>, id: Id)
    requires id in p.policies && id !in ids
    ensures WithoutBodies(p, ids + {id}) == WithoutBodies(p, ids) - {id}
    ensures WithReceipts(p, ids + {id}) == WithReceipts(p, ids)[id := Receipt(p.policies[id])]
    ensures WithReceipts(p, ids)[id] == p.policies[id] && (id in WithoutBodies(p, ids) <==> id in p.rows)
  {
  }

  lemma OneKeyLess(before: Post, now: int, todo: set<ExpiryKey>, k: ExpiryKey)
    requires k in todo && k in before.expiry && KeyOk(before, k) && k.at <= now
    ensures forall id :: Swept(before, now, todo - {k}, id) <==> Swept(before, now, todo, id) || (id == k.id && Dies(before, now, id))
  {
  }

  lemma AllGone(before: Post, now: int, ids: set<Id>)
    requires forall id :: id in ids <==> Dies(before, now, id)
    ensures WithoutBodies(before, ids) == Expire(before, now).rows && WithReceipts(before, ids) == Expire(before, now).policies
  {
  }
}
