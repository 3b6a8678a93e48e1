/** What one message can go through: it enters the inbox at most once, and what was acknowledged stays. */
module InboxHistory {
  import opened Common
  import opened InboxPolicy
  import opened InboxSafety

  /** A handoff with this message waits for room. */
  ghost predicate IsHeld(p: Post, id: Id) {
    exists k :: k in p.handoffs && p.handoffs[k].messageId == id && p.handoffs[k].blocked
  }

  /** The message may still enter the inbox: its ID is unused, or its handoff is held. */
  ghost predicate Unplaced(p: Post, id: Id) {
    id !in p.policies || IsHeld(p, id)
  }

  predicate SameMessage(a: Row, b: Row) {
    a.sender == b.sender && a.recipient == b.recipient && a.text == b.text && a.createdAt == b.createdAt
  }

  ghost predicate RowEvolves(p: Post, q: Post, id: Id) {
    && (id in q.rows && id !in p.rows ==> Unplaced(p, id))
    && (Unplaced(q, id) ==> Unplaced(p, id))
    && (id in p.rows && p.rows[id].acknowledgedAt.Some? ==> id in q.rows && q.rows[id] == p.rows[id])
    && (id in p.rows && id in q.rows ==> SameMessage(p.rows[id], q.rows[id]))
  }

  predicate PolicyEvolves(p: Post, q: Post, id: Id) {
    id in p.policies ==>
      && id in q.policies && q.policies[id].hash == p.policies[id].hash && q.policies[id].expiresAt == p.policies[id].expiresAt
      && q.policies[id].origin == p.policies[id].origin && q.policies[id].recipient == p.policies[id].recipient
      && q.policies[id].sender == p.policies[id].sender
      && (p.policies[id].expired ==> q.policies[id].expired)
      && (p.policies[id].suppliedAt.Some? ==> q.policies[id].suppliedAt == p.policies[id].suppliedAt)
      && (p.policies[id].acknowledgedAt.Some? ==> q.policies[id].acknowledgedAt == p.policies[id].acknowledgedAt)
  }

  /** A handoff keeps its message; it never goes back to being held, and one that expired stays so. */
  predicate HandoffEvolves(p: Post, q: Post, k: HandoffKey) {
    k in p.handoffs ==>
      && k in q.handoffs && q.handoffs[k].messageId == p.handoffs[k].messageId && q.handoffs[k].recipient == p.handoffs[k].recipient
      && (!p.handoffs[k].blocked ==> !q.handoffs[k].blocked)
      && (p.handoffs[k].expired ==> q.handoffs[k] == p.handoffs[k])
  }

  ghost predicate Evolves(p: Post, q: Post) {
    && (forall id :: RowEvolves(p, q, id))
    && (forall id :: PolicyEvolves(p, q, id))
    && (forall k :: HandoffEvolves(p, q, k))
  }

  lemma HeldHasNoRow(p: Post, id: Id)
    requires PostOk(p)
    ensures id in p.rows ==> !Unplaced(p, id)
  {
    if id in p.rows {
      assert RowOk(p, id);
      forall k | k in p.handoffs && p.handoffs[k].messageId == id ensures !p.handoffs[k].blocked {
        assert HandoffOk(p, p.handoffs[k]);
      }
    }
  }

  lemma EvolvesChains(p: Post, q: Post, r: Post)
    requires PostOk(p) && Evolves(p, q) && Evolves(q, r)
    ensures Evolves(p, r)
  {
    forall id ensures RowEvolves(p, r, id) {
      assert RowEvolves(p, q, id) && RowEvolves(q, r, id);
      HeldHasNoRow(p, id);
    }
    forall id ensures PolicyEvolves(p, r, id) {
      assert PolicyEvolves(p, q, id) && PolicyEvolves(q, r, id);
    }
    forall k ensures HandoffEvolves(p, r, k) {
      assert HandoffEvolves(p, q, k) && HandoffEvolves(q, r, k);
    }
  }

  lemma EvolvesStays(p: Post)
    ensures Evolves(p, p)
  {
  }

  lemma ExpireEvolves(p: Post, now: int)
    requires PostOk(p)
    ensures Evolves(p, Expire(p, now))
  {
  }

  lemma InsertEvolves(p: Post, id: Id, policy: Policy, text: string)
    requires PostOk(p) && id !in p.policies
    ensures Evolves(p, Insert(p, id, policy, text))
  {
    assert id in p.rows ==> RowOk(p, id);
  }

  lemma SupplyOneEvolves(p: Post, id: Id, now: int)
    requires PostOk(p) && id in p.rows && id in p.policies && p.rows[id].acknowledgedAt.None?
    ensures Evolves(p, SupplyOne(p, id, now))
  {
  }

  lemma AcknowledgeOneEvolves(p: Post, recipient: Id, id: Id, now: int)
    requires PostOk(p) && AcknowledgeOne(p, recipient, id, now).Ok? && AcknowledgeOne(p, recipient, id, now).value.Some?
    ensures Evolves(p, AcknowledgeOne(p, recipient, id, now).value.value)
  {
  }

  lemma HandOffEvolves(p: Post, key: HandoffKey, id: Id, policy: Policy, text: string)
    requires PostOk(p) && id !in p.policies && key !in p.handoffs
    ensures Evolves(p, HandOff(p, key, id, policy, text))
  {
  }

  lemma FlushOneEvolves(p: Post, key: HandoffKey, known: set<Id>)
    requires PostOk(p)
    ensures Evolves(p, FlushOne(p, key, known))
  {
  }
}
