/** When the reports of supervised workers reach their supervisor (apps/server/src/coordination/service.ts:441-466): with a
    digest, or beside something urgent, and between two digests only what the last one left over. */
module WorkerReports {
  import opened Common
  import opened InboxPolicy
  import opened InboxSafety
  import opened Coordination
  import opened CoordinationSafety
  import opened CoordinationTheorems

  /** The message has not been supplied to the reader, or it is not there. */
  predicate Unsupplied(s: State, reader: Id, m: Id) {
    m in s.post.rows && s.post.rows[m].recipient == reader ==> s.post.rows[m].suppliedAt.None?
  }

  /** A row that is supplied was so before, to the same recipient. */
  predicate Kept(p: Post, q: Post, m: Id) {
    m in q.rows && q.rows[m].suppliedAt.Some? ==>
      m in p.rows && p.rows[m].suppliedAt.Some? && p.rows[m].recipient == q.rows[m].recipient
  }

  predicate Waits(s: State, t: State, m: Id) {
    t.digests == s.digests && Kept(s.post, t.post, m)
  }

  // ---------- nothing but reading supplies ----------

  lemma {:induction false} AcknowledgeAllKept(o: AckOutcome, recipient: Id, ids: seq<Id>, now: int, m: Id)
    requires AcknowledgeAll(o, recipient, ids, now).Ok?
    ensures Kept(o.post, AcknowledgeAll(o, recipient, ids, now).value.post, m)
    decreases |ids|
  {
    if ids != [] {
      var step := AcknowledgeOne(o.post, recipient, ids[0], now);
      if step.value.None? {
        AcknowledgeAllKept(o.(expiredUnread := o.expiredUnread + [ids[0]]), recipient, ids[1..], now, m);
      } else {
        AcknowledgeAllKept(AckOutcome(step.value.value, o.acknowledged + [ids[0]], o.expiredUnread), recipient, ids[1..], now, m);
      }
    }
  }

  lemma {:induction false} FlushKept(p: Post, keys: seq<HandoffKey>, known: set<Id>, m: Id)
    ensures Kept(p, Flush(p, keys, known), m)
    decreases |keys|
  {
    if keys != [] {
      FlushKept(FlushOne(p, keys[0], known), keys[1..], known, m);
    }
  }

  lemma SendWaits(s: State, sender: Id, id: Id, recipient: Id, text: string, options: Options, m: Id)
    ensures Waits(s, Send(s, sender, id, recipient, text, options).state, m)
  {
  }

  lemma FlushWaits(s: State, keys: seq<HandoffKey>, m: Id)
    ensures Waits(s, FlushHandoffs(s, keys), m)
  {
    FlushKept(Expire(s.post, s.now), keys, s.assignments.Keys, m);
  }

  lemma AcknowledgeWaits(s: State, id: Id, ids: seq<Id>, keys: seq<HandoffKey>, m: Id)
    ensures Waits(s, Acknowledge(s, id, ids, keys).state, m)
  {
    var o := AckOutcome(Expire(s.post, s.now), [], []);
    if AcknowledgeAll(o, id, ids, s.now).Ok? {
      AcknowledgeAllKept(o, id, ids, s.now, m);
      FlushWaits(s.(post := AcknowledgeAll(o, id, ids, s.now).value.post), keys, m);
    }
  }

  lemma NotifyWaits(s: State, worker: Id, reason: string, options: Options, unused: Id, text: string, m: Id)
    requires Notify(s, worker, reason, options, unused, text).Ok?
    ensures Waits(s, Notify(s, worker, reason, options, unused, text).value, m)
  {
  }

  lemma TaskUpdateWaits(s: State, id: Id, input: TaskInput, options: Options, unused: Id, text: string, m: Id)
    requires UpdateTaskAndNotify(s, id, input, options, unused, text).Ok?
    ensures Waits(s, UpdateTaskAndNotify(s, id, input, options, unused, text).value, m)
  {
    var task := UpdateTask(TaskOf(s, id), input).value;
    var s1 := s.(tasks := s.tasks[id := task]);
    var t := UpdateTaskAndNotify(s, id, input, options, unused, text).value;
    if t != s1 {
      var reason := if task.state == Done then "A supervised worker completed its task."
                    else "A supervised worker needs action: " + task.actionNeeded.value;
      NotifyWaits(s1, id, reason, options, unused, text, m);
    }
  }

  lemma BeforeTaskWaits(s: State, id: Id, input: UpdateInput, m: Id)
    requires id in s.assignments && BeforeTask(s, id, input).Ok?
    ensures Waits(s, BeforeTask(s, id, input).value, m)
  {
    RedirectWaits(s, id, input);
    if input.awaiting.Some? {
      AwaitingWaits(Redirect(s, id, input), id, input.awaiting.value);
    }
  }

  lemma RedirectWaits(s: State, id: Id, input: UpdateInput)
    ensures Redirect(s, id, input).digests == s.digests && Redirect(s, id, input).post == s.post
  {
  }

  lemma AwaitingWaits(s: State, id: Id, description: Option<string>)
    requires SetAwaiting(s, id, description).Ok?
    ensures SetAwaiting(s, id, description).value.digests == s.digests && SetAwaiting(s, id, description).value.post == s.post
  {
  }

  lemma UpdateWaits(s: State, id: Id, input: UpdateInput, unused: Id, text: string, m: Id)
    ensures Waits(s, Update(s, id, input, unused, text).state, m)
  {
    if Update(s, id, input, unused, text).state != s {
      BeforeTaskWaits(s, id, input, m);
      if input.task.Some? {
        TaskUpdateWaits(BeforeTask(s, id, input).value, id, input.task.value, input.options, unused, text, m);
      }
    }
  }

  lemma CloseWaits(s: State, id: Id, m: Id)
    requires Close(s, id).Ok?
    ensures Waits(s, Close(s, id).value, m)
  {
  }

  lemma FinishWaits(s: State, id: Id, options: Options, unused: Id, text: string, m: Id)
    ensures Waits(s, Finish(s, id, options, unused, text).state, m)
  {
    if Finish(s, id, options, unused, text).state != s {
      CloseWaits(s, id, m);
      if StillOwed(s, id) {
        NotifyWaits(Close(s, id).value, id, "A supervised worker completed its assignment.", options, unused, text, m);
      }
    }
  }

  lemma DisconnectWaits(s: State, id: Id, unused: Id, text: string, m: Id)
    ensures Waits(s, Disconnect(s, id, unused, text).state, m)
  {
    var s1 := AddEvent(s.(assignments := s.assignments[id := Disconnected]), id);
    if Notify(s1, id, "An unattended supervised worker disconnected.", Options(None, None, None), unused, text).Ok? {
      NotifyWaits(s1, id, "An unattended supervised worker disconnected.", Options(None, None, None), unused, text, m);
    }
  }

  lemma AlertWaits(s: State, id: Id, unused: Id, text: string, m: Id)
    ensures Waits(s, AlertOverdueAwait(s, id, unused, text), m)
  {
  }

  lemma DispatchWaits(s: State, supervisor: Id, id: Id, worker: Id, expected: int, task: Option<TaskInput>, text: string, m: Id)
    ensures Waits(s, Dispatch(s, supervisor, id, worker, expected, task, text).state, m)
  {
  }

  lemma RegisterWaits(s: State, id: Id, accepts: Option<bool>, launchedBy: Option<Id>, m: Id)
    ensures Waits(s, Register(s, id, accepts, launchedBy), m)
  {
  }

  lemma OtherEventsWait(s: State, e: Event, m: Id)
    requires !e.Reads?
    ensures Waits(s, Next(s, e), m)
  {
    match e
    case Sends(sender, id, recipient, text, options) => SendWaits(s, sender, id, recipient, text, options, m);
    case Acknowledges(id, ids, keys) => AcknowledgeWaits(s, id, ids, keys, m);
    case Reconciles(keys) => FlushWaits(s, keys, m);
    case Updates(id, input, unused, text) => UpdateWaits(s, id, input, unused, text, m);
    case Dispatches(supervisor, id, worker, expected, task, text) => DispatchWaits(s, supervisor, id, worker, expected, task, text, m);
    case Finishes(id, options, unused, text) => FinishWaits(s, id, options, unused, text, m);
    case Disconnects(id, unused, text) => DisconnectWaits(s, id, unused, text, m);
    case Alerts(id, unused, text) => AlertWaits(s, id, unused, text, m);
    case Registers(id, accepts, launchedBy) => RegisterWaits(s, id, accepts, launchedBy, m);
    case _ =>
  }

  // ---------- reading ----------

  /** Reading supplies the batch and leaves every other row alone; it changes nobody else's digest. */
  lemma InboxSupplies(s: State, reader: Id, awareness: bool, order: seq<Id>, m: Id)
    ensures var t, batch := Inbox(s, reader, awareness, true, order), Batch(Selected(s, reader, awareness, order));
      && t == NoteDigest(s, reader, Urgent(s, reader, order), Selected(s, reader, awareness, order)).(post := t.post)
      && t.post.rows.Keys == s.post.rows.Keys && t.post.policies.Keys == s.post.policies.Keys
      && (if m in batch
          then m in s.post.rows && s.post.rows[m].recipient == reader && t.post.rows[m] == s.post.rows[m].(suppliedAt := Some(s.now))
          else m in s.post.rows ==> t.post.rows[m] == s.post.rows[m])
  {
    var batch := Batch(Selected(s, reader, awareness, order));
    SelectionIsOfferable(s, reader, awareness, order);
    SupplyMarksTheBatch(s.post, batch, s.now);
  }

  /** A hook of the reader between two digests, with nothing urgent; the message, if it is there, is a worker's report. */
  predicate QuietRead(s: State, e: Event, reader: Id, m: Id) {
    e.Reads? && e.id == reader && e.supply ==>
      && !e.awareness && !DigestDue(s, reader) && !Urgent(Expired(s), reader, e.order)
      && (m in Expired(s).post.rows ==> IsReport(Expired(s), m))
  }

  lemma ReadLeavesReports(s: State, reader: Id, other: Id, awareness: bool, order: seq<Id>, m: Id)
    requires Unsupplied(s, reader, m) && !InLastDigest(s, reader, m)
    requires other == reader ==> !awareness && !DigestDue(s, reader) && !Urgent(s, reader, order) && (m in s.post.rows ==> IsReport(s, m))
    ensures var t := Inbox(s, other, awareness, true, order); Unsupplied(t, reader, m) && !InLastDigest(t, reader, m)
  {
    InboxSupplies(s, other, awareness, order, m);
    SelectionIs(s, other, awareness, order, m);
  }

  lemma StepLeavesReports(s: State, e: Event, reader: Id, m: Id)
    requires Unsupplied(s, reader, m) && !InLastDigest(s, reader, m) && QuietRead(s, e, reader, m)
    ensures Unsupplied(Next(s, e), reader, m) && !InLastDigest(Next(s, e), reader, m)
  {
    if !e.Reads? {
      OtherEventsWait(s, e, m);
    } else if e.supply && e.id in s.assignments {
      ReadLeavesReports(Expired(s), reader, e.id, e.awareness, e.order, m);
    }
  }

  predicate QuietReads(s: State, events: seq<Event>, reader: Id, m: Id)
    decreases |events|
  {
    events == [] || (QuietRead(s, events[0], reader, m) && QuietReads(Next(s, events[0]), events[1..], reader, m))
  }

  /** A report waits for the digest: one that the last digest did not have, whether it is there already or arrives later, is
      not supplied in any run in which the reader's hooks find neither a digest due nor anything urgent. */
  lemma {:induction false} ReportsWaitForTheDigest(s: State, events: seq<Event>, reader: Id, m: Id)
    requires Unsupplied(s, reader, m) && !InLastDigest(s, reader, m) && QuietReads(s, events, reader, m)
    ensures Unsupplied(Execute(s, events), reader, m) && !InLastDigest(Execute(s, events), reader, m)
    decreases |events|
  {
    if events != [] {
      StepLeavesReports(s, events[0], reader, m);
      ReportsWaitForTheDigest(Next(s, events[0]), events[1..], reader, m);
    }
  }

  /** A digest that goes out, because it is due or beside something urgent, leaves no waiting report behind: each is supplied
      now, or belongs to the digest and passes the filter of the hooks that follow. */
  lemma DigestCarriesReports(s: State, reader: Id, order: seq<Id>, first: Id, m: Id)
    requires DigestDue(s, reader) || Urgent(s, reader, order)
    requires first in Batch(Selected(s, reader, false, order)) && IsReport(s, first)
    requires m in order && Offered(s, reader, m) && IsReport(s, m)
    ensures var t := Inbox(s, reader, false, true, order);
      && InLastDigest(t, reader, m) && !DigestDue(t, reader)
      && m in t.post.rows
      && (m in Batch(Selected(s, reader, false, order)) ==> t.post.rows[m].suppliedAt == Some(s.now))
      && (m !in Batch(Selected(s, reader, false, order)) ==> t.post.rows[m] == s.post.rows[m])
      && (m !in Batch(Selected(s, reader, false, order)) && s.post.rows[m].suppliedAt.None? ==> Passes(t, reader, false, false, m))
  {
    SelectionIs(s, reader, false, order, m);
    InboxSupplies(s, reader, false, order, m);
    SupplyKeepsPriority(s, reader, order, m);
  }

  /** The next digest is due a quarter of an hour later. */
  lemma DigestComesRound(s: State, reader: Id, order: seq<Id>, first: Id, elapsed: nat)
    requires DigestDue(s, reader) || Urgent(s, reader, order)
    requires first in Batch(Selected(s, reader, false, order)) && IsReport(s, first)
    ensures var t := Inbox(s, reader, false, true, order);
      DigestDue(Next(t, Tick(elapsed)), reader) <==> elapsed >= 15 * 60 * 1000
  {
    InboxSupplies(s, reader, false, order, first);
  }

  lemma SupplyKeepsPriority(s: State, reader: Id, order: seq<Id>, m: Id)
    requires m in s.post.policies
    ensures var t := Inbox(s, reader, false, true, order); m in t.post.policies && t.post.policies[m].priority == s.post.policies[m].priority
  {
    SelectionIsOfferable(s, reader, false, order);
    SupplyKeepsPriorities(s.post, Batch(Selected(s, reader, false, order)), s.now, m);
  }

  lemma {:induction false} SupplyKeepsPriorities(p: Post, batch: seq<Id>, now: int, m: Id)
    requires AllPending(p, batch) && m in p.policies
    ensures m in Supply(p, batch, now).policies && Supply(p, batch, now).policies[m].priority == p.policies[m].priority
    decreases |batch|
  {
    if batch != [] {
      SupplyKeepsPriorities(SupplyOne(p, batch[0], now), batch[1..], now, m);
    }
  }
}
