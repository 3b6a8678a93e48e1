/** What each call of the coordination service leaves behind, said of its events (apps/server/src/coordination/service.ts,
    tasks.ts and continuation.ts). */
module CoordinationOutcomes {
  import opened Common
  import opened InboxPolicy
  import opened InboxSafety
  import opened Coordination
  import opened CoordinationSafety
  import opened CoordinationTheorems
  import opened InboxHistory
  import HandoffDelivery

  // ---------- sending, and how long a message lives ----------

  /** How long a message lives, in seconds. */
  function Lifetime(options: Options): int {
    if options.validFor.Some? then options.validFor.value else 3600
  }

  predicate OptionsMakeSense(options: Options) {
    && (options.validFor.Some? ==> 1 <= options.validFor.value <= 604800)
    && (options.priority == Some(P1) <==> options.wakeReason.Some?)
    && (options.wakeReason.Some? ==> 1 <= |options.wakeReason.value| <= 300 && '\r' !in options.wakeReason.value && '\n' !in options.wakeReason.value)
  }

  /** A message under a new ID is taken exactly when its recipient is known and accepts mail, its options make sense, and its
      pool has room once the expired mail is gone. */
  lemma SendSucceedsIff(s: State, sender: Id, id: Id, recipient: Id, text: string, options: Options)
    requires PostOk(s.post) && id !in s.post.policies
    ensures Send(s, sender, id, recipient, text, options).error.None?
            <==> && recipient in s.assignments && recipient !in s.sendOnly && OptionsMakeSense(options)
                 && |Pool(Expire(s.post, s.now), recipient, options.priority == Some(P1))| < 100
  {
    assert id in s.post.rows ==> RowOk(s.post, id);
  }

  lemma SentIsInserted(s: State, sender: Id, id: Id, recipient: Id, text: string, options: Options)
    requires id !in s.post.policies && Send(s, sender, id, recipient, text, options).error.None?
    ensures Next(s, Sends(sender, id, recipient, text, options))
            == s.(post := Insert(Expire(s.post, s.now), id, PolicyFor(sender, recipient, text, options, Direct, s.now), text))
  {
  }

  /** It is then in the inbox as it was sent, and lives for as long as its sender asked. */
  lemma SentMessageIsThere(s: State, sender: Id, id: Id, recipient: Id, text: string, options: Options)
    requires PostOk(s.post) && id !in s.post.policies && Send(s, sender, id, recipient, text, options).error.None?
    ensures var p := Next(s, Sends(sender, id, recipient, text, options)).post;
      && id in p.rows && p.rows[id] == Row(sender, recipient, text, s.now, None, None)
      && id in p.policies && p.policies[id].origin == Direct && !p.policies[id].expired
      && p.policies[id].priority == (if options.priority.Some? then options.priority.value else P3)
      && p.policies[id].wakeReason == options.wakeReason
      && p.policies[id].expiresAt == s.now + 1000 * Lifetime(options)
  {
    SentIsInserted(s, sender, id, recipient, text, options);
  }

  /** Left unread, it is there until its time has come, and no longer. */
  lemma SentMessageLives(s: State, sender: Id, id: Id, recipient: Id, text: string, options: Options, elapsed: nat)
    requires PostOk(s.post) && id !in s.post.policies && Send(s, sender, id, recipient, text, options).error.None?
    ensures var sent := Next(s, Sends(sender, id, recipient, text, options));
      id in Next(Next(sent, Tick(elapsed)), Expires).post.rows <==> elapsed < 1000 * Lifetime(options)
  {
    var sent := Next(s, Sends(sender, id, recipient, text, options));
    SentIsInserted(s, sender, id, recipient, text, options);
    SentMessageIsThere(s, sender, id, recipient, text, options);
    SendSound(s, sender, id, recipient, text, options);
    ExpirySweepsExactly(sent.post, sent.now + elapsed);
  }

  // ---------- reading ----------

  /** A report is P2 mail from someone whose supervisor is its reader, unless the two supervise each other. */
  lemma IsReportIff(s: State, id: Id)
    requires id in s.post.rows && id in s.post.policies
    ensures IsReport(s, id)
            <==> && s.post.policies[id].priority == P2
                 && ControlOf(s, s.post.rows[id].sender).supervisor == Some(s.post.rows[id].recipient)
                 && ControlOf(s, s.post.rows[id].recipient).supervisor != Some(s.post.rows[id].sender)
  {
  }

  lemma {:induction false} SelectionSplits(s: State, reader: Id, awareness: bool, urgent: bool, a: seq<Id>, b: seq<Id>, priority: Priority)
    ensures OfPriority(s, reader, awareness, urgent, a + b, priority)
            == OfPriority(s, reader, awareness, urgent, a, priority) + OfPriority(s, reader, awareness, urgent, b, priority)
    decreases |b|
  {
    if b == [] {
      assert a + b == a;
    } else {
      assert (a + b)[..|a + b| - 1] == a + b[..|b| - 1];
      SelectionSplits(s, reader, awareness, urgent, a, b[..|b| - 1], priority);
    }
  }

  lemma SelectionExtends(s: State, reader: Id, awareness: bool, urgent: bool, init: seq<Id>, last: Id, priority: Priority, m: nat)
    requires m <= |init|
    ensures var order, one := init + [last], OfPriority(s, reader, awareness, urgent, [last], priority);
      && |one| <= 1
      && OfPriority(s, reader, awareness, urgent, order, priority) == OfPriority(s, reader, awareness, urgent, init, priority) + one
      && OfPriority(s, reader, awareness, urgent, order[..m], priority) == OfPriority(s, reader, awareness, urgent, init[..m], priority)
      && OfPriority(s, reader, awareness, urgent, order[m..], priority)
         == OfPriority(s, reader, awareness, urgent, init[m..], priority) + one
  {
    var order := init + [last];
    assert order[..m] == init[..m] && order[m..] == init[m..] + [last] && [last][..0] == [];
    SelectionSplits(s, reader, awareness, urgent, init, [last], priority);
    SelectionSplits(s, reader, awareness, urgent, init[m..], [last], priority);
  }

  /** The first part of what is selected comes from a first part of the list, the rest from its rest. */
  lemma {:induction false} SelectionKeepsOrder(s: State, reader: Id, awareness: bool, urgent: bool, order: seq<Id>, priority: Priority, n: nat)
    returns (m: nat)
    requires n <= |OfPriority(s, reader, awareness, urgent, order, priority)|
    ensures m <= |order|
    ensures OfPriority(s, reader, awareness, urgent, order, priority)[..n] == OfPriority(s, reader, awareness, urgent, order[..m], priority)
    ensures OfPriority(s, reader, awareness, urgent, order, priority)[n..] == OfPriority(s, reader, awareness, urgent, order[m..], priority)
    decreases |order|
  {
    var selected := OfPriority(s, reader, awareness, urgent, order, priority);
    if n == |selected| {
      m := |order|;
      assert order[..m] == order && order[m..] == [] && selected[..n] == selected && selected[n..] == [];
    } else {
      var init, last := order[..|order| - 1], order[|order| - 1];
      assert order == init + [last];
      SelectionExtends(s, reader, awareness, urgent, init, last, priority, 0);
      m := SelectionKeepsOrder(s, reader, awareness, urgent, init, priority, n);
      SelectionExtends(s, reader, awareness, urgent, init, last, priority, m);
      CutOfAppend(OfPriority(s, reader, awareness, urgent, init, priority), OfPriority(s, reader, awareness, urgent, [last], priority), n);
    }
  }

  lemma CutOfAppend(a: seq<Id>, b: seq<Id>, n: nat)
    requires n <= |a|
    ensures (a + b)[..n] == a[..n] && (a + b)[n..] == a[n..] + b
  {
  }

  /** `a` is listed before a place where `b` is. */
  predicate Precedes(order: seq<Id>, a: Id, b: Id) {
    exists m | 0 <= m <= |order| :: a in order[..m] && b in order[m..]
  }

  lemma OlderIsSelectedFirst(s: State, reader: Id, awareness: bool, urgent: bool, order: seq<Id>, priority: Priority, n: nat, a: Id, b: Id)
    requires n <= |OfPriority(s, reader, awareness, urgent, order, priority)|
    requires a in OfPriority(s, reader, awareness, urgent, order, priority)[..n]
    requires b in OfPriority(s, reader, awareness, urgent, order, priority)[n..]
    ensures Precedes(order, a, b)
  {
    var m := SelectionKeepsOrder(s, reader, awareness, urgent, order, priority, n);
    OfPriorityIs(s, reader, awareness, urgent, order[..m], priority, a);
    OfPriorityIs(s, reader, awareness, urgent, order[m..], priority, b);
  }

  /** Where the mail of one priority begins among what is selected. */
  function Offset(s: State, reader: Id, awareness: bool, order: seq<Id>, priority: Priority): nat {
    var urgent := Urgent(s, reader, order);
    match priority
    case P1 => 0
    case P2 => |OfPriority(s, reader, awareness, urgent, order, P1)|
    case P3 => |OfPriority(s, reader, awareness, urgent, order, P1)| + |OfPriority(s, reader, awareness, urgent, order, P2)|
  }

  lemma SelectedSlice(s: State, reader: Id, awareness: bool, order: seq<Id>, priority: Priority)
    ensures var selected, from := Selected(s, reader, awareness, order), Offset(s, reader, awareness, order, priority);
      var part := OfPriority(s, reader, awareness, Urgent(s, reader, order), order, priority);
      from + |part| <= |selected| && selected[from..from + |part|] == part
  {
  }

  /** Among mail of one priority a batch takes the oldest: what it takes is listed before what it leaves out. */
  lemma BatchIsOldestFirst(s: State, reader: Id, awareness: bool, order: seq<Id>, chosen: Id, left: Id)
    requires chosen in Batch(Selected(s, reader, awareness, order))
    requires left in order && Passes(s, reader, awareness, Urgent(s, reader, order), left)
    requires left !in Batch(Selected(s, reader, awareness, order))
    requires chosen in s.post.policies && s.post.policies[chosen].priority == s.post.policies[left].priority
    ensures Precedes(order, chosen, left)
  {
    var urgent, priority := Urgent(s, reader, order), s.post.policies[left].priority;
    var selected, part := Selected(s, reader, awareness, order), OfPriority(s, reader, awareness, urgent, order, priority);
    var from := Offset(s, reader, awareness, order, priority);
    SelectedSlice(s, reader, awareness, order, priority);
    OfPriorityIs(s, reader, awareness, urgent, order, priority, left);
    SelectionIs(s, reader, awareness, order, chosen);
    OfPriorityIs(s, reader, awareness, urgent, order, priority, chosen);
    var n := if |Batch(selected)| <= from then 0 else if |Batch(selected)| - from <= |part| then |Batch(selected)| - from else |part|;
    ChosenIsInFront(s, reader, awareness, order, priority, chosen, n);
    LeftIsBehind(selected, part, from, left, n);
    OlderIsSelectedFirst(s, reader, awareness, urgent, order, priority, n, chosen, left);
  }

  lemma BatchIsPrefix(selected: seq<Id>, i: nat)
    requires i < |selected|
    ensures i < |Batch(selected)| ==> selected[i] in Batch(selected)
  {
    if i < |Batch(selected)| {
      assert Batch(selected)[i] == selected[i];
    }
  }

  lemma LeftIsBehind(selected: seq<Id>, part: seq<Id>, from: nat, left: Id, n: nat)
    requires from + |part| <= |selected| && selected[from..from + |part|] == part && left in part && left !in Batch(selected)
    requires n <= |part| && (n > 0 ==> from + n <= |Batch(selected)|)
    ensures left in part[n..]
  {
    var j :| 0 <= j < |part| && part[j] == left;
    assert selected[from..from + |part|][j] == selected[from + j];
    BatchIsPrefix(selected, from + j);
    assert part[n..][j - n] == left;
  }

  lemma SliceHolds(selected: seq<Id>, part: seq<Id>, from: nat, i: nat)
    requires from + |part| <= |selected| && selected[from..from + |part|] == part && i < |selected|
    ensures from <= i < from + |part| ==> selected[i] in part
  {
    if from <= i < from + |part| {
      assert selected[from..from + |part|][i - from] == selected[i];
    }
  }

  lemma IndexIsInPart(s: State, reader: Id, awareness: bool, order: seq<Id>, i: nat)
    requires i < |Selected(s, reader, awareness, order)| && Selected(s, reader, awareness, order)[i] in s.post.policies
    ensures var selected := Selected(s, reader, awareness, order);
      var priority := s.post.policies[selected[i]].priority;
      var from := Offset(s, reader, awareness, order, priority);
      from <= i < from + |OfPriority(s, reader, awareness, Urgent(s, reader, order), order, priority)|
  {
    var urgent, selected := Urgent(s, reader, order), Selected(s, reader, awareness, order);
    InPartHasPriority(s, reader, awareness, order, P1, i);
    InPartHasPriority(s, reader, awareness, order, P2, i);
    InPartHasPriority(s, reader, awareness, order, P3, i);
  }

  lemma InPartHasPriority(s: State, reader: Id, awareness: bool, order: seq<Id>, priority: Priority, i: nat)
    requires i < |Selected(s, reader, awareness, order)|
    ensures var id, from := Selected(s, reader, awareness, order)[i], Offset(s, reader, awareness, order, priority);
      from <= i < from + |OfPriority(s, reader, awareness, Urgent(s, reader, order), order, priority)|
      ==> id in s.post.policies && s.post.policies[id].priority == priority
  {
    var urgent, selected := Urgent(s, reader, order), Selected(s, reader, awareness, order);
    SelectedSlice(s, reader, awareness, order, priority);
    SliceHolds(selected, OfPriority(s, reader, awareness, urgent, order, priority), Offset(s, reader, awareness, order, priority), i);
    OfPriorityIs(s, reader, awareness, urgent, order, priority, selected[i]);
  }

  lemma ChosenIsInFront(s: State, reader: Id, awareness: bool, order: seq<Id>, priority: Priority, chosen: Id, n: nat)
    requires chosen in Batch(Selected(s, reader, awareness, order)) && chosen in s.post.policies && s.post.policies[chosen].priority == priority
    requires var selected, from := Selected(s, reader, awareness, order), Offset(s, reader, awareness, order, priority);
      var part := OfPriority(s, reader, awareness, Urgent(s, reader, order), order, priority);
      n == if |Batch(selected)| <= from then 0 else if |Batch(selected)| - from <= |part| then |Batch(selected)| - from else |part|
    ensures chosen in OfPriority(s, reader, awareness, Urgent(s, reader, order), order, priority)[..n]
  {
    var selected, from := Selected(s, reader, awareness, order), Offset(s, reader, awareness, order, priority);
    var part := OfPriority(s, reader, awareness, Urgent(s, reader, order), order, priority);
    var i :| 0 <= i < |Batch(selected)| && Batch(selected)[i] == chosen;
    assert selected[i] == chosen;
    IndexIsInPart(s, reader, awareness, order, i);
    SelectedSlice(s, reader, awareness, order, priority);
    FrontHas(selected, part, from, n, i);
  }

  lemma FrontHas(selected: seq<Id>, part: seq<Id>, from: nat, n: nat, i: nat)
    requires from + |part| <= |selected| && selected[from..from + |part|] == part && from <= i < from + n && n <= |part|
    ensures selected[i] in part[..n]
  {
    assert selected[from..from + |part|][i - from] == selected[i];
    assert part[..n][i - from] == selected[i];
  }

  /** `mail` selects everything that is offered. A hook leaves P3 mail; P1 mail, and P2 mail that is no report, always passes. */
  lemma WhatIsSelected(s: State, reader: Id, awareness: bool, order: seq<Id>, id: Id)
    requires id in order && Offered(s, reader, id)
    ensures awareness ==> id in Selected(s, reader, awareness, order)
    ensures !awareness && s.post.policies[id].priority == P3 ==> id !in Selected(s, reader, awareness, order)
    ensures s.post.policies[id].priority == P1 ==> id in Selected(s, reader, awareness, order)
    ensures s.post.policies[id].priority == P2 && !IsReport(s, id) ==> id in Selected(s, reader, awareness, order)
    ensures s.post.policies[id].priority == P2 && (DigestDue(s, reader) || Urgent(s, reader, order)) ==> id in Selected(s, reader, awareness, order)
  {
    SelectionIs(s, reader, awareness, order, id);
  }

  /** Mail is offered to its recipient until it is acknowledged, and not again within a minute of being supplied. */
  lemma OfferedIff(s: State, reader: Id, id: Id)
    ensures Offered(s, reader, id)
            <==> && id in s.post.rows && id in s.post.policies && s.post.rows[id].recipient == reader
                 && s.post.rows[id].acknowledgedAt.None?
                 && (s.post.rows[id].suppliedAt.Some? ==> s.now - s.post.rows[id].suppliedAt.value > 60000)
  {
  }

  // ---------- acknowledging ----------

  /** A message can be acknowledged exactly by its recipient, once it was supplied or has expired. */
  lemma AcknowledgementIsTakenIff(p: Post, recipient: Id, id: Id, now: int)
    requires PostOk(p)
    ensures AcknowledgeOne(p, recipient, id, now).Ok?
            <==> && id in p.policies && p.policies[id].recipient == recipient
                 && (p.policies[id].expired || (id in p.rows && p.rows[id].suppliedAt.Some?))
  {
    assert id in p.rows ==> RowOk(p, id);
  }

  /** Its row is acknowledged, or it expired without being acknowledged in time and has none. */
  predicate IsSettled(p: Post, id: Id) {
    id in p.policies && (if id in p.rows then p.rows[id].acknowledgedAt.Some? else p.policies[id].expired)
  }

  lemma AcknowledgingOneSettlesIt(p: Post, recipient: Id, id: Id, now: int)
    requires PostOk(p) && AcknowledgeOne(p, recipient, id, now).Ok?
    ensures var q := AcknowledgeOne(p, recipient, id, now).value;
      IsSettled(if q.Some? then q.value else p, id)
    ensures var q := AcknowledgeOne(p, recipient, id, now).value;
      forall other :: IsSettled(p, other) ==> IsSettled(if q.Some? then q.value else p, other)
  {
    assert id in p.rows ==> RowOk(p, id);
  }

  lemma {:induction false} AcknowledgingSettlesAll(o: AckOutcome, recipient: Id, ids: seq<Id>, now: int, id: Id)
    requires PostOk(o.post) && AcknowledgeAll(o, recipient, ids, now).Ok? && (id in ids || IsSettled(o.post, id))
    ensures IsSettled(AcknowledgeAll(o, recipient, ids, now).value.post, id)
    decreases |ids|
  {
    if ids != [] {
      var step := AcknowledgeOne(o.post, recipient, ids[0], now);
      assert id in ids ==> id == ids[0] || id in ids[1..];
      AcknowledgingOneSettlesIt(o.post, recipient, ids[0], now);
      if step.value.None? {
        AcknowledgingSettlesAll(o.(expiredUnread := o.expiredUnread + [ids[0]]), recipient, ids[1..], now, id);
      } else {
        AcknowledgeOneKeeps(o.post, recipient, ids[0], now);
        AcknowledgingSettlesAll(AckOutcome(step.value.value, o.acknowledged + [ids[0]], o.expiredUnread), recipient, ids[1..], now, id);
      }
    }
  }

  lemma SettledIsNotUnplaced(p: Post, id: Id)
    requires PostOk(p) && IsSettled(p, id) && id !in p.rows
    ensures !Unplaced(p, id)
  {
    forall k | k in p.handoffs && p.handoffs[k].messageId == id ensures !p.handoffs[k].blocked {
      assert HandoffOk(p, p.handoffs[k]);
    }
  }

  lemma SettledStaysSettled(p: Post, q: Post, id: Id)
    requires PostOk(p) && IsSettled(p, id) && Evolves(p, q)
    ensures id in q.rows ==> q.rows[id].acknowledgedAt.Some?
  {
    assert RowEvolves(p, q, id);
    if id !in p.rows {
      SettledIsNotUnplaced(p, id);
    }
  }

  /** A message that was acknowledged is never offered again, in any run and to anyone. */
  lemma AcknowledgedIsNeverOffered(s: State, reader: Id, ids: seq<Id>, keys: seq<HandoffKey>, id: Id, after: seq<Event>, anyone: Id)
    requires CoordinationTheorems.Inv(s) && id in ids && Acknowledge(s, reader, ids, keys).error.None?
    requires AllFresh(Next(s, Acknowledges(reader, ids, keys)), after)
    ensures !Offered(Execute(Next(s, Acknowledges(reader, ids, keys)), after), anyone, id)
  {
    var t := Next(s, Acknowledges(reader, ids, keys));
    var between := SettledBetween(s, reader, ids, keys, id);
    StepKeepsInv(s, Acknowledges(reader, ids, keys));
    RunKeepsInv(t, after);
    EvolvesChains(between.post, t.post, Execute(t, after).post);
    SettledStaysSettled(between.post, Execute(t, after).post, id);
  }

  lemma SettledBetween(s: State, reader: Id, ids: seq<Id>, keys: seq<HandoffKey>, id: Id) returns (between: State)
    requires PostOk(s.post) && id in ids && Acknowledge(s, reader, ids, keys).error.None?
    ensures PostOk(between.post) && IsSettled(between.post, id)
    ensures Evolves(between.post, Next(s, Acknowledges(reader, ids, keys)).post)
  {
    HandoffDelivery.AcknowledgementFlushes(s, reader, ids, keys);
    between := HandoffDelivery.Acknowledging(s, reader, ids);
    ExpireSound(s.post, s.now);
    AcknowledgingSettlesAll(AckOutcome(Expire(s.post, s.now), [], []), reader, ids, s.now, id);
    FlushHandoffsSound(between, keys);
  }

  // ---------- refusals ----------

  /** A repeated send changes nothing but what is due to expire; it is an error exactly when it is not the same message. */
  lemma RepeatedSend(s: State, sender: Id, id: Id, recipient: Id, text: string, options: Options)
    requires id in s.post.policies && recipient in s.assignments
    ensures Send(s, sender, id, recipient, text, options)
            == Reply(Expired(s), if s.post.policies[id].hash == Hash(sender, recipient, text) then None else Some(DifferentContent))
  {
  }

  /** A repeated dispatch, too. */
  lemma RepeatedDispatch(s: State, supervisor: Id, id: Id, worker: Id, expected: int, task: Option<TaskInput>, text: string)
    requires id in s.dispatches
    ensures Dispatch(s, supervisor, id, worker, expected, task, text)
            == Reply(Expired(s), if s.dispatches[id].fingerprint == Fingerprint(supervisor, worker, expected, task) then None
                                 else Some(DifferentContent))
  {
  }

  /** An acknowledgement by another than the recipient is told apart from one of a message that was not supplied. */
  lemma AcknowledgementErrors(p: Post, recipient: Id, id: Id, now: int)
    requires AcknowledgeOne(p, recipient, id, now).Err?
    ensures AcknowledgeOne(p, recipient, id, now).error
            == if id in p.policies && p.policies[id].recipient == recipient then NotSupplied else NotTheRecipient
  {
  }
}
