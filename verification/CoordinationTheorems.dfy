/** The promises of the coordination service, for every run. */
module CoordinationTheorems {
  import opened Common
  import opened InboxPolicy
  import opened InboxSafety
  import opened InboxHistory
  import opened Coordination
  import opened CoordinationSafety

  ghost predicate Inv(s: State) {
    PostOk(s.post) && RecordsOk(s)
  }

  predicate AllFresh(s: State, events: seq<Event>)
    decreases |events|
  {
    events == [] || (FreshIds(s, events[0]) && AllFresh(Next(s, events[0]), events[1..]))
  }

  lemma InitialIsOk(now: int)
    ensures Inv(Initial(now))
  {
    forall r, u ensures |Pool(NoPost, r, u)| <= CAPACITY {
      assert Pool(NoPost, r, u) == {};
    }
  }

  lemma StepKeepsInv(s: State, e: Event)
    requires Inv(s) && FreshIds(s, e)
    ensures Inv(Next(s, e)) && Evolves(s.post, Next(s, e).post) && RecordsGrow(s, Next(s, e))
  {
    StepSound(s, e);
    StepKeepsRecords(s, e);
    StepGrowsRecords(s, e);
  }

  lemma {:induction false} RunKeepsInv(s: State, events: seq<Event>)
    requires Inv(s) && AllFresh(s, events)
    ensures Inv(Execute(s, events)) && Evolves(s.post, Execute(s, events).post)
    decreases |events|
  {
    if events == [] {
      EvolvesStays(s.post);
    } else {
      var t := Next(s, events[0]);
      StepKeepsInv(s, events[0]);
      RunKeepsInv(t, events[1..]);
      EvolvesChains(s.post, t.post, Execute(t, events[1..]).post);
    }
  }

  /** In every reachable state: an unacknowledged row has a live policy and its own key in the expiry index, an acknowledged
      one was supplied and has no key; no pool of any inbox is over its capacity, whichever writer filled it; every handoff is
      held, present or expired. */
  lemma ReachableMailIsSound(now: int, events: seq<Event>)
    requires AllFresh(Initial(now), events)
    ensures PostOk(Execute(Initial(now), events).post)
  {
    InitialIsOk(now);
    RunKeepsInv(Initial(now), events);
  }

  /** Each recipient has at most a hundred unacknowledged P1 messages and at most a hundred others, whoever wrote them: send,
      dispatch, handoff, flush or the overdue alert. */
  lemma InboxesAreBounded(now: int, events: seq<Event>, recipient: Id, urgent: bool)
    requires AllFresh(Initial(now), events)
    ensures |Pool(Execute(Initial(now), events).post, recipient, urgent)| <= 100
  {
    ReachableMailIsSound(now, events);
  }

  /** Nothing that has expired is offered to anyone. */
  lemma NothingExpiredIsSupplied(s: State, reader: Id, awareness: bool, order: seq<Id>, id: Id)
    requires PostOk(s.post) && id in Batch(Selected(Expired(s), reader, awareness, order))
    ensures id in s.post.rows && !s.post.policies[id].expired && s.post.policies[id].expiresAt > s.now
    ensures s.post.rows[id].recipient == reader && s.post.rows[id].acknowledgedAt.None?
  {
    ExpirySweepsExactly(s.post, s.now);
    SelectionIsOfferable(Expired(s), reader, awareness, order);
    assert RowOk(s.post, id);
  }

  function Rank(p: Priority): nat {
    match p case P1 => 0 case P2 => 1 case P3 => 2
  }

  /** A batch is cut from the most urgent end: whatever is offered and passes but is left out ranks no higher than anything in
      the batch, and then the batch is full. */
  lemma BatchIsMostUrgent(s: State, reader: Id, awareness: bool, order: seq<Id>, chosen: Id, left: Id)
    requires chosen in Batch(Selected(s, reader, awareness, order))
    requires left in order && Passes(s, reader, awareness, Urgent(s, reader, order), left)
    requires left !in Batch(Selected(s, reader, awareness, order))
    ensures |Batch(Selected(s, reader, awareness, order))| == 20
    ensures chosen in s.post.policies && Rank(s.post.policies[chosen].priority) <= Rank(s.post.policies[left].priority)
  {
    SelectionIsOfferable(s, reader, awareness, order);
    var urgent := Urgent(s, reader, order);
    var first, second, third := OfPriority(s, reader, awareness, urgent, order, P1), OfPriority(s, reader, awareness, urgent, order, P2),
                                OfPriority(s, reader, awareness, urgent, order, P3);
    var selected := Selected(s, reader, awareness, order);
    SelectionIs(s, reader, awareness, order, left);
    OfPriorityIs(s, reader, awareness, urgent, order, P1, left);
    OfPriorityIs(s, reader, awareness, urgent, order, P2, left);
    OfPriorityIs(s, reader, awareness, urgent, order, P3, chosen);
    OfPriorityIs(s, reader, awareness, urgent, order, P2, chosen);
    assert selected == first + second + third;
    var i :| 0 <= i < |Batch(selected)| && Batch(selected)[i] == chosen;
    assert selected[i] == chosen;
    if left in first {
      var j :| 0 <= j < |first| && first[j] == left;
      assert selected[j] == left && j >= BATCH_LIMIT;
      assert chosen == first[i] && first[i] in first;
      OfPriorityIs(s, reader, awareness, urgent, order, P1, chosen);
    } else if left in second {
      var j :| 0 <= j < |second| && second[j] == left;
      assert selected[|first| + j] == left && |first| + j >= BATCH_LIMIT;
      assert chosen in first || chosen in second;
      OfPriorityIs(s, reader, awareness, urgent, order, P1, chosen);
    }
  }

  /** Supplying a batch marks its rows, and touches no other. */
  lemma {:induction false} SupplyMarksTheBatch(p: Post, batch: seq<Id>, now: int)
    requires AllPending(p, batch)
    ensures var q := Supply(p, batch, now);
      && q.rows.Keys == p.rows.Keys && q.policies.Keys == p.policies.Keys && q.expiry == p.expiry && q.handoffs == p.handoffs
      && (forall id :: id in batch ==> q.rows[id] == p.rows[id].(suppliedAt := Some(now)))
      && (forall id :: id in p.rows && id !in batch ==> q.rows[id] == p.rows[id])
    decreases |batch|
  {
    if batch != [] {
      SupplyMarksTheBatch(SupplyOne(p, batch[0], now), batch[1..], now);
      assert forall id :: id in batch <==> id == batch[0] || id in batch[1..];
    }
  }

  /** Each acknowledged ID was supplied to that recipient; each one reported as expired unread never was. Together they are
      all the IDs asked for, and no other row changes. */
  lemma {:induction false} AcknowledgeSorts(o: AckOutcome, recipient: Id, ids: seq<Id>, now: int)
    requires PostOk(o.post) && AcknowledgeAll(o, recipient, ids, now).Ok?
    ensures var r := AcknowledgeAll(o, recipient, ids, now).value;
      && multiset(r.acknowledged) + multiset(r.expiredUnread) == multiset(o.acknowledged) + multiset(o.expiredUnread) + multiset(ids)
      && (forall id :: id in r.acknowledged && id !in o.acknowledged ==> Acknowledged(r.post, recipient, id))
      && (forall id :: id in r.expiredUnread && id !in o.expiredUnread ==> ExpiredUnread(r.post, recipient, id))
      && (forall id :: id in o.post.rows && id !in ids ==> id in r.post.rows && r.post.rows[id] == o.post.rows[id])
      && (forall id :: id in o.post.policies ==> id in r.post.policies && r.post.policies[id].suppliedAt == o.post.policies[id].suppliedAt)
    decreases |ids|
  {
    if ids != [] {
      var step := AcknowledgeOne(o.post, recipient, ids[0], now);
      assert ids == [ids[0]] + ids[1..];
      if step.value.None? {
        var next := o.(expiredUnread := o.expiredUnread + [ids[0]]);
        AcknowledgeSorts(next, recipient, ids[1..], now);
        AcknowledgeSound(next, recipient, ids[1..], now);
        assert PolicyEvolves(o.post, AcknowledgeAll(next, recipient, ids[1..], now).value.post, ids[0]);
      } else {
        var next := AckOutcome(step.value.value, o.acknowledged + [ids[0]], o.expiredUnread);
        AcknowledgeOneKeeps(o.post, recipient, ids[0], now);
        AcknowledgeSorts(next, recipient, ids[1..], now);
        AcknowledgeSound(next, recipient, ids[1..], now);
        assert PolicyEvolves(next.post, AcknowledgeAll(next, recipient, ids[1..], now).value.post, ids[0]);
      }
    }
  }

  predicate Acknowledged(p: Post, recipient: Id, id: Id) {
    id in p.policies && p.policies[id].recipient == recipient && p.policies[id].acknowledgedAt.Some? && p.policies[id].suppliedAt.Some?
  }

  predicate ExpiredUnread(p: Post, recipient: Id, id: Id) {
    id in p.policies && p.policies[id].recipient == recipient && p.policies[id].expired && p.policies[id].suppliedAt.None?
  }

  // ---------- at most once ----------

  /** How often a row with this ID is inserted during a run. */
  function Arrivals(s: State, events: seq<Event>, id: Id): nat
    decreases |events|
  {
    if events == [] then 0
    else
      var t := Next(s, events[0]);
      (if id !in s.post.rows && id in t.post.rows then 1 else 0) + Arrivals(t, events[1..], id)
  }

  /** A message enters the inbox at most once, and never when its ID was used and it is not a held handoff. */
  lemma {:induction false} MessagesArriveOnce(s: State, events: seq<Event>, id: Id)
    requires Inv(s) && AllFresh(s, events)
    ensures Arrivals(s, events, id) <= if Unplaced(s.post, id) then 1 else 0
    decreases |events|
  {
    if events != [] {
      var t := Next(s, events[0]);
      StepKeepsInv(s, events[0]);
      assert RowEvolves(s.post, t.post, id);
      HeldHasNoRow(t.post, id);
      MessagesArriveOnce(t, events[1..], id);
    }
  }

  /** What was acknowledged is kept, unchanged, for ever. */
  lemma AcknowledgedRowsStay(s: State, events: seq<Event>, id: Id)
    requires Inv(s) && AllFresh(s, events) && id in s.post.rows && s.post.rows[id].acknowledgedAt.Some?
    ensures id in Execute(s, events).post.rows && Execute(s, events).post.rows[id] == s.post.rows[id]
  {
    RunKeepsInv(s, events);
    assert RowEvolves(s.post, Execute(s, events).post, id);
  }

  /** A handoff is never lost and never doubled: it keeps its message and is in exactly one phase; once in the inbox it is
      never held again, once expired it stays expired. */
  lemma HandoffsAreConserved(s: State, events: seq<Event>, k: HandoffKey)
    requires Inv(s) && AllFresh(s, events) && k in s.post.handoffs
    ensures var p, q := s.post, Execute(s, events).post;
      && k in q.handoffs && q.handoffs[k].messageId == p.handoffs[k].messageId
      && (InPhase(q, q.handoffs[k], Held) || InPhase(q, q.handoffs[k], Present) || InPhase(q, q.handoffs[k], Gone))
      && !(InPhase(q, q.handoffs[k], Held) && InPhase(q, q.handoffs[k], Present))
      && !(InPhase(q, q.handoffs[k], Held) && InPhase(q, q.handoffs[k], Gone))
      && !(InPhase(q, q.handoffs[k], Present) && InPhase(q, q.handoffs[k], Gone))
      && (InPhase(p, p.handoffs[k], Present) ==> !InPhase(q, q.handoffs[k], Held))
      && (InPhase(p, p.handoffs[k], Gone) ==> InPhase(q, q.handoffs[k], Gone))
  {
    RunKeepsInv(s, events);
    var p, q := s.post, Execute(s, events).post;
    assert HandoffEvolves(p, q, k);
    assert HandoffOk(q, q.handoffs[k]) && HandoffOk(p, p.handoffs[k]);
    assert PolicyEvolves(p, q, p.handoffs[k].messageId);
  }

  // ---------- dispatch ----------

  /** A worker's task revision is dispatched by one message only. */
  lemma OneDispatchPerRevision(s: State, m: Id, n: Id)
    requires RecordsOk(s) && m in s.dispatches && n in s.dispatches
    requires s.dispatches[m].fingerprint.worker == s.dispatches[n].fingerprint.worker
    requires s.dispatches[m].taskRevision == s.dispatches[n].taskRevision
    ensures m == n
  {
    assert RecordOk(s, m) && RecordOk(s, n);
  }

  /** At most one message at a time can start a worker. */
  lemma OneEligibleDispatchPerWorker(now: int, events: seq<Event>, m: Id, n: Id)
    requires AllFresh(Initial(now), events)
    requires var s := Execute(Initial(now), events);
      && DispatchEligible(s, m) == Some(true) && DispatchEligible(s, n) == Some(true)
      && s.post.policies[m].recipient == s.post.policies[n].recipient
    ensures m == n
  {
    var s := Execute(Initial(now), events);
    InitialIsOk(now);
    RunKeepsInv(Initial(now), events);
    assert RecordOk(s, m) && RecordOk(s, n);
    OneDispatchPerRevision(s, m, n);
  }

  predicate TaskLater(s: State, t: State, w: Id) {
    w in s.tasks ==> w in t.tasks && (t.tasks[w] == s.tasks[w] || t.tasks[w].revision > s.tasks[w].revision)
  }

  ghost predicate Later(s: State, t: State) {
    && (forall m :: m in s.dispatches ==> m in t.dispatches && t.dispatches[m] == s.dispatches[m])
    && (forall w :: TaskLater(s, t, w))
  }

  /** Task revisions only rise, a task that differs has a greater revision, and dispatch records stay. */
  lemma {:induction false} RevisionsRise(s: State, events: seq<Event>)
    ensures Later(s, Execute(s, events))
    decreases |events|
  {
    if events != [] {
      var t := Next(s, events[0]);
      StepGrowsRecords(s, events[0]);
      RevisionsRise(t, events[1..]);
      forall w ensures TaskLater(s, Execute(s, events), w) {
        assert TaskEvolves(s, t, w) && TaskLater(t, Execute(t, events[1..]), w);
      }
    }
  }

  /** However much later it is repeated, a dispatch that succeeded changes nothing but what is due to expire. */
  lemma RepeatedDispatchIsIdempotent(s: State, supervisor: Id, id: Id, worker: Id, expected: int, task: Option<TaskInput>, text: string,
                                     events: seq<Event>)
    requires Activates(s, supervisor, id, worker, expected, task)
    ensures var t := Execute(Dispatch(s, supervisor, id, worker, expected, task, text).state, events);
      Dispatch(t, supervisor, id, worker, expected, task, text) == Reply(Expired(t), None)
  {
    DispatchOutcomes(s, supervisor, id, worker, expected, task, text);
    RevisionsRise(Dispatch(s, supervisor, id, worker, expected, task, text).state, events);
  }

  /** `dispatch` asks only whether the ID was dispatched and whether a row has it. So, the other checks passed, it takes the
      ID of another message exactly when that message has no row (any more). */
  lemma UsedIdIsDispatchedIff(s: State, supervisor: Id, id: Id, worker: Id, expected: int, task: Option<TaskInput>, text: string)
    requires PostOk(s.post) && id in s.post.policies && DispatchGuards(s, supervisor, id, worker, expected, task)
    ensures var reply := Dispatch(s, supervisor, id, worker, expected, task, text);
      && reply.error == (if id in s.post.rows && !Dies(s.post, s.now, id) then Some(DuplicateKey) else None)
      && (reply.error.None? ==> id in reply.state.post.rows
                                && reply.state.post.rows[id] == Row(supervisor, worker, text, s.now, None, None))
  {
    DispatchOutcomes(s, supervisor, id, worker, expected, task, text);
    assert id in s.post.rows ==> RowOk(s.post, id);
  }
}
