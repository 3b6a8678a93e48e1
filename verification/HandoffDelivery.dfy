/** Handoffs reach the supervisor: news of a worker is handed off, and a flush leaves nothing waiting that has room
    (apps/server/src/coordination/service.ts:568-620). */
module HandoffDelivery {
  import opened Common
  import opened InboxPolicy
  import opened InboxSafety
  import opened Coordination
  import opened CoordinationSafety

  // ---------- one flush ----------

  predicate Waits(p: Post, k: HandoffKey) {
    k in p.handoffs && p.handoffs[k].blocked
  }

  /** The pool of an inbox that this handoff waits for. */
  predicate HasRoom(p: Post, k: HandoffKey)
    requires k in p.handoffs && p.handoffs[k].messageId in p.policies
  {
    HasSpace(p, p.handoffs[k].recipient, p.policies[p.handoffs[k].messageId].priority)
  }

  lemma FlushOneIs(p: Post, key: HandoffKey, known: set<Id>)
    ensures var q := FlushOne(p, key, known);
      && q.policies == p.policies && q.expiry == p.expiry && q.handoffs.Keys == p.handoffs.Keys
      && (forall k :: k in p.handoffs ==> q.handoffs[k] == p.handoffs[k].(blocked := q.handoffs[k].blocked))
      && (forall k :: k in p.handoffs && (k != key || !Flushes(p, key, known)) ==> q.handoffs[k] == p.handoffs[k])
      && (forall id :: id in p.rows ==> id in q.rows && q.rows[id] == p.rows[id])
  {
  }

  lemma {:induction false} FlushIs(p: Post, keys: seq<HandoffKey>, known: set<Id>)
    ensures var q := Flush(p, keys, known);
      && q.policies == p.policies && q.expiry == p.expiry && q.handoffs.Keys == p.handoffs.Keys
      && (forall k :: k in p.handoffs ==> q.handoffs[k] == p.handoffs[k].(blocked := q.handoffs[k].blocked))
      && (forall k :: Waits(q, k) ==> Waits(p, k))
      && (forall id :: id in p.rows ==> id in q.rows && q.rows[id] == p.rows[id])
    decreases |keys|
  {
    if keys != [] {
      FlushOneIs(p, keys[0], known);
      FlushIs(FlushOne(p, keys[0], known), keys[1..], known);
    }
  }

  lemma FullStaysFull(p: Post, key: HandoffKey, known: set<Id>, r: Id, priority: Priority)
    requires PostOk(p) && !HasSpace(p, r, priority)
    ensures !HasSpace(FlushOne(p, key, known), r, priority)
  {
    if Flushes(p, key, known) {
      FlushGrowsOnePool(p, key, known, r, priority == P1);
      SubsetCard(Pool(p, r, priority == P1), Pool(FlushOne(p, key, known), r, priority == P1));
    }
  }

  lemma {:induction false} FlushKeepsFull(p: Post, keys: seq<HandoffKey>, known: set<Id>, r: Id, priority: Priority)
    requires PostOk(p) && !HasSpace(p, r, priority)
    ensures !HasSpace(Flush(p, keys, known), r, priority)
    decreases |keys|
  {
    if keys != [] {
      FullStaysFull(p, keys[0], known, r, priority);
      FlushOneKeeps(p, keys[0], known);
      FlushKeepsFull(FlushOne(p, keys[0], known), keys[1..], known, r, priority);
    }
  }

  /** Its turn has come: a handoff is still waiting only if its recipient is unknown or its pool is full. */
  lemma TurnDelivers(p: Post, k: HandoffKey, known: set<Id>)
    requires PostOk(p) && Waits(FlushOne(p, k, known), k)
    ensures Waits(p, k) && InPhase(p, p.handoffs[k], Held)
    ensures p.handoffs[k].recipient !in known || !HasRoom(p, k)
  {
    FlushOneIs(p, k, known);
    assert HandoffOk(p, p.handoffs[k]);
  }

  /** After a flush over `keys` each handoff of them that is still waiting has an unknown recipient, or no room. */
  lemma {:induction false} FlushDelivers(p: Post, keys: seq<HandoffKey>, known: set<Id>, k: HandoffKey)
    requires PostOk(p) && k in keys && Waits(Flush(p, keys, known), k)
    ensures var q := Flush(p, keys, known);
      && q.handoffs[k].messageId in q.policies
      && (q.handoffs[k].recipient !in known || !HasRoom(q, k))
    decreases |keys|
  {
    var next := FlushOne(p, keys[0], known);
    FlushOneKeeps(p, keys[0], known);
    FlushOneIs(p, keys[0], known);
    FlushIs(next, keys[1..], known);
    if k == keys[0] {
      TurnDelivers(p, k, known);
      if p.handoffs[k].recipient in known {
        FullStaysFull(p, k, known, p.handoffs[k].recipient, p.policies[p.handoffs[k].messageId].priority);
        FlushKeepsFull(next, keys[1..], known, p.handoffs[k].recipient, p.policies[p.handoffs[k].messageId].priority);
      }
    } else {
      FlushDelivers(next, keys[1..], known, k);
    }
  }

  function RowOf(h: Handoff): Row
    requires h.text.Some?
  {
    Row(h.worker, h.recipient, h.text.value, h.timestamp, None, None)
  }

  /** A handoff that a flush moves is in the inbox as it was written. */
  lemma {:induction false} FlushWritesTheHandoff(p: Post, keys: seq<HandoffKey>, known: set<Id>, k: HandoffKey)
    requires PostOk(p) && Waits(p, k) && !Waits(Flush(p, keys, known), k)
    ensures var q, h := Flush(p, keys, known), p.handoffs[k];
      h.text.Some? && h.messageId in q.rows && q.rows[h.messageId] == RowOf(h)
    decreases |keys|
  {
    FlushIs(p, keys, known);
    if keys != [] {
      var next := FlushOne(p, keys[0], known);
      FlushOneKeeps(p, keys[0], known);
      FlushOneIs(p, keys[0], known);
      FlushIs(next, keys[1..], known);
      if Waits(next, k) {
        FlushWritesTheHandoff(next, keys[1..], known, k);
      }
    }
  }

  /** Two handoffs wait for the same pool of the same inbox. */
  predicate SamePool(p: Post, j: HandoffKey, k: HandoffKey) {
    && j in p.handoffs && k in p.handoffs && p.handoffs[j].messageId in p.policies && p.handoffs[k].messageId in p.policies
    && p.handoffs[j].recipient == p.handoffs[k].recipient
    && (p.policies[p.handoffs[j].messageId].priority == P1) == (p.policies[p.handoffs[k].messageId].priority == P1)
  }

  lemma {:induction false} NothingEntersAFullPool(p: Post, keys: seq<HandoffKey>, known: set<Id>, j: HandoffKey)
    requires PostOk(p) && Waits(p, j) && p.handoffs[j].messageId in p.policies && !HasRoom(p, j)
    ensures Waits(Flush(p, keys, known), j)
    decreases |keys|
  {
    if keys != [] {
      FlushOneKeeps(p, keys[0], known);
      FlushOneIs(p, keys[0], known);
      FullStaysFull(p, keys[0], known, p.handoffs[j].recipient, p.policies[p.handoffs[j].messageId].priority);
      NothingEntersAFullPool(FlushOne(p, keys[0], known), keys[1..], known, j);
    }
  }

  /** Room is given in the order of the keys: once a handoff was left waiting for a full pool, none behind it gets into that
      pool. */
  lemma FlushIsInOrder(p: Post, k: HandoffKey, rest: seq<HandoffKey>, known: set<Id>, j: HandoffKey)
    requires PostOk(p) && Waits(p, j) && SamePool(p, j, k) && p.handoffs[k].recipient in known
    requires Waits(Flush(p, [k] + rest, known), k) && j != k
    ensures Waits(Flush(p, [k] + rest, known), j)
  {
    var next := FlushOne(p, k, known);
    assert ([k] + rest)[1..] == rest;
    FlushOneKeeps(p, k, known);
    FlushOneIs(p, k, known);
    FlushIs(next, rest, known);
    TurnDelivers(p, k, known);
    FullStaysFull(p, k, known, p.handoffs[k].recipient, p.policies[p.handoffs[k].messageId].priority);
    NothingEntersAFullPool(next, rest, known, j);
  }

  // ---------- the events that flush ----------

  ghost predicate ListsWaiting(p: Post, keys: seq<HandoffKey>) {
    forall k :: Waits(p, k) ==> k in keys
  }

  /** Nothing is waiting that could be delivered. */
  ghost predicate AllDelivered(s: State) {
    forall k :: Waits(s.post, k) && s.post.handoffs[k].messageId in s.post.policies ==>
      s.post.handoffs[k].recipient !in s.assignments || !HasRoom(s.post, k)
  }

  lemma ExpiryLeavesWaiting(p: Post, now: int, k: HandoffKey)
    requires Waits(Expire(p, now), k)
    ensures Waits(p, k)
  {
  }

  lemma FlushLeavesNothing(s: State, keys: seq<HandoffKey>)
    requires PostOk(s.post) && ListsWaiting(s.post, keys)
    ensures AllDelivered(FlushHandoffs(s, keys))
  {
    var p, t := Expire(s.post, s.now), FlushHandoffs(s, keys);
    ExpireSound(s.post, s.now);
    FlushIs(p, keys, s.assignments.Keys);
    forall k | Waits(t.post, k) && t.post.handoffs[k].messageId in t.post.policies
      ensures t.post.handoffs[k].recipient !in t.assignments || !HasRoom(t.post, k)
    {
      ExpiryLeavesWaiting(s.post, s.now, k);
      FlushDelivers(p, keys, s.assignments.Keys, k);
    }
  }

  lemma {:induction false} AcknowledgingLeavesHandoffs(o: AckOutcome, recipient: Id, ids: seq<Id>, now: int)
    requires AcknowledgeAll(o, recipient, ids, now).Ok?
    ensures AcknowledgeAll(o, recipient, ids, now).value.post.handoffs == o.post.handoffs
    decreases |ids|
  {
    if ids != [] {
      var step := AcknowledgeOne(o.post, recipient, ids[0], now);
      if step.value.None? {
        AcknowledgingLeavesHandoffs(o.(expiredUnread := o.expiredUnread + [ids[0]]), recipient, ids[1..], now);
      } else {
        AcknowledgingLeavesHandoffs(AckOutcome(step.value.value, o.acknowledged + [ids[0]], o.expiredUnread), recipient, ids[1..], now);
      }
    }
  }

  /** The state in which an acknowledgement that succeeds begins to flush. */
  function Acknowledging(s: State, id: Id, ids: seq<Id>): State
    requires AcknowledgeAll(AckOutcome(Expire(s.post, s.now), [], []), id, ids, s.now).Ok?
  {
    s.(post := AcknowledgeAll(AckOutcome(Expire(s.post, s.now), [], []), id, ids, s.now).value.post)
  }

  lemma AcknowledgementFlushes(s: State, id: Id, ids: seq<Id>, keys: seq<HandoffKey>)
    requires PostOk(s.post) && Acknowledge(s, id, ids, keys).error.None?
    ensures AcknowledgeAll(AckOutcome(Expire(s.post, s.now), [], []), id, ids, s.now).Ok?
    ensures var between := Acknowledging(s, id, ids);
      && PostOk(between.post) && between.post.handoffs == Expire(s.post, s.now).handoffs && between.now == s.now
      && between.assignments == s.assignments && Acknowledge(s, id, ids, keys).state == FlushHandoffs(between, keys)
  {
    var o := AckOutcome(Expire(s.post, s.now), [], []);
    ExpireSound(s.post, s.now);
    AcknowledgeSound(o, id, ids, s.now);
    AcknowledgingLeavesHandoffs(o, id, ids, s.now);
  }

  /** After every flush of the periodic check, and after every acknowledgement that succeeds, a handoff is still waiting only if
      its recipient is no assignment, or if that inbox has no room for it. */
  lemma NothingWaitsWithRoom(s: State, e: Event)
    requires PostOk(s.post)
    requires (e.Reconciles? || (e.Acknowledges? && Acknowledge(s, e.id, e.ids, e.keys).error.None?)) && ListsWaiting(s.post, e.keys)
    ensures AllDelivered(Next(s, e))
  {
    if e.Reconciles? {
      FlushLeavesNothing(s, e.keys);
    } else {
      AcknowledgementFlushes(s, e.id, e.ids, e.keys);
      var between := Acknowledging(s, e.id, e.ids);
      forall k | Waits(between.post, k) ensures k in e.keys {
        ExpiryLeavesWaiting(s.post, s.now, k);
      }
      FlushLeavesNothing(between, e.keys);
    }
  }

  predicate IsGone(p: Post, k: HandoffKey) {
    k in p.handoffs && InPhase(p, p.handoffs[k], Gone)
  }

  /** The handoff `h` of key `k` is in the inbox. */
  predicate Delivered(p: Post, k: HandoffKey, h: Handoff) {
    && k in p.handoffs && InPhase(p, p.handoffs[k], Present)
    && h.text.Some? && h.messageId in p.rows && p.rows[h.messageId] == RowOf(h)
  }

  /** What a flush delivers is in the inbox as it was handed off: from the worker, to the supervisor, with its text and its time. */
  lemma DeliveredAsHandedOff(s: State, e: Event, k: HandoffKey)
    requires PostOk(s.post) && Waits(s.post, k)
    requires e.Reconciles? || (e.Acknowledges? && Acknowledge(s, e.id, e.ids, e.keys).error.None?)
    ensures var h, t := s.post.handoffs[k], Next(s, e);
      h.text.Some? && (Waits(t.post, k) || IsGone(t.post, k) || Delivered(t.post, k, h))
  {
    assert HandoffOk(s.post, s.post.handoffs[k]);
    if e.Reconciles? {
      FlushOutcome(s, e.keys, k);
    } else {
      AcknowledgementFlushes(s, e.id, e.ids, e.keys);
      FlushOutcome(Acknowledging(s, e.id, e.ids), e.keys, k);
    }
  }

  /** The handoff as it is now, or as it is once its message has expired. */
  lemma FlushOutcome(s: State, keys: seq<HandoffKey>, k: HandoffKey)
    requires PostOk(s.post) && k in s.post.handoffs && (Waits(s.post, k) || IsGone(s.post, k))
    ensures var h, t := s.post.handoffs[k], FlushHandoffs(s, keys);
      Waits(t.post, k) || IsGone(t.post, k) || Delivered(t.post, k, h)
  {
    var p, t := Expire(s.post, s.now), FlushHandoffs(s, keys);
    ExpireSound(s.post, s.now);
    FlushSound(p, keys, s.assignments.Keys);
    FlushIs(p, keys, s.assignments.Keys);
    assert HandoffOk(p, p.handoffs[k]) && HandoffOk(t.post, t.post.handoffs[k]) && HandoffOk(s.post, s.post.handoffs[k]);
    if Waits(p, k) && !Waits(t.post, k) {
      FlushWritesTheHandoff(p, keys, s.assignments.Keys, k);
    }
  }
}
