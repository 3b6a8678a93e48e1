/** What every message operation keeps, and what it can do to one message. */
module InboxSafety {
  import opened Common
  import opened InboxPolicy

  // ---------- the invariant ----------

  predicate KeyOk(p: Post, k: ExpiryKey) {
    k.id in p.policies && p.policies[k.id].expiresAt == k.at && !p.policies[k.id].expired
  }

  /** The expiry index holds keys of live messages only, at the time their policy says. */
  ghost predicate KeysOk(p: Post) {
    forall k :: k in p.expiry ==> KeyOk(p, k)
  }

  predicate Keyed(p: Post, id: Id)
    requires id in p.policies
  {
    ExpiryKey(p.policies[id].expiresAt, id) in p.expiry
  }

  predicate RowOk(p: Post, id: Id)
    requires id in p.rows
  {
    && id in p.policies
    && p.policies[id].hash == Hash(p.rows[id].sender, p.rows[id].recipient, p.rows[id].text)
    && p.policies[id].recipient == p.rows[id].recipient
    && !p.policies[id].expired
    && (if p.rows[id].acknowledgedAt.Some? then p.rows[id].suppliedAt.Some? && !Keyed(p, id) else Keyed(p, id))
    && (p.rows[id].suppliedAt.Some? ==> p.policies[id].suppliedAt.Some?)
  }

  ghost predicate RowsOk(p: Post) {
    forall id :: id in p.rows ==> RowOk(p, id)
  }

  /** Held: waiting for room, not in the inbox. Present: in the inbox. Gone: expired, its text removed. */
  datatype Phase = Held | Present | Gone

  predicate InPhase(p: Post, h: Handoff, phase: Phase) {
    && h.messageId in p.policies
    && match phase
       case Held => h.blocked && !h.expired && h.text.Some? && h.messageId !in p.rows
                    && !p.policies[h.messageId].expired && Keyed(p, h.messageId)
       case Present => !h.blocked && !h.expired && h.text.Some? && h.messageId in p.rows
       case Gone => !h.blocked && h.expired && h.text.None? && h.messageId !in p.rows && p.policies[h.messageId].expired
  }

  predicate HandoffOk(p: Post, h: Handoff) {
    && (InPhase(p, h, Held) || InPhase(p, h, Present) || InPhase(p, h, Gone))
    && h.recipient == p.policies[h.messageId].recipient
    && (h.text.Some? ==> p.policies[h.messageId].hash == Hash(h.worker, h.recipient, h.text.value))
  }

  predicate Together(p: Post, j: HandoffKey, k: HandoffKey)
    requires j in p.handoffs && k in p.handoffs
  {
    p.handoffs[j].messageId == p.handoffs[k].messageId
  }

  ghost predicate HandoffsOk(p: Post) {
    && (forall k :: k in p.handoffs ==> HandoffOk(p, p.handoffs[k]))
    && (forall j, k :: j in p.handoffs && k in p.handoffs && Together(p, j, k) ==> j == k)
  }

  ghost predicate PoolsOk(p: Post) {
    forall r, u :: |Pool(p, r, u)| <= CAPACITY
  }

  ghost predicate PostOk(p: Post) {
    KeysOk(p) && RowsOk(p) && HandoffsOk(p) && PoolsOk(p)
  }

  // ---------- expiry ----------

  lemma PoolShrinks(p: Post, q: Post, r: Id, u: bool)
    requires Pool(q, r, u) <= Pool(p, r, u)
    ensures |Pool(q, r, u)| <= |Pool(p, r, u)|
  {
    SubsetCard(Pool(q, r, u), Pool(p, r, u));
  }

  lemma {:induction false} SubsetCard(a: set<Id>, b: set<Id>)
    requires a <= b
    ensures |a| <= |b|
  {
    if a != {} {
      var x :| x in a;
      SubsetCard(a - {x}, b - {x});
    }
  }

  lemma ExpireKeepsRows(p: Post, now: int)
    requires KeysOk(p) && RowsOk(p)
    ensures KeysOk(Expire(p, now)) && RowsOk(Expire(p, now))
  {
    var q := Expire(p, now);
    forall k | k in q.expiry ensures KeyOk(q, k) {
      assert KeyOk(p, k);
    }
    forall id | id in q.rows ensures RowOk(q, id) {
      assert RowOk(p, id);
    }
  }

  lemma ExpireKeepsHandoff(p: Post, now: int, h: Handoff)
    requires KeysOk(p) && RowsOk(p) && HandoffOk(p, h)
    ensures HandoffOk(Expire(p, now), if Dies(p, now, h.messageId) then Emptied(h) else h)
  {
    assert h.messageId in p.rows ==> RowOk(p, h.messageId);
  }

  lemma ExpireKeepsHandoffs(p: Post, now: int)
    requires PostOk(p)
    ensures HandoffsOk(Expire(p, now))
  {
    var q := Expire(p, now);
    forall k | k in q.handoffs ensures HandoffOk(q, q.handoffs[k]) {
      ExpireKeepsHandoff(p, now, p.handoffs[k]);
    }
    forall j, k | j in q.handoffs && k in q.handoffs && Together(q, j, k) ensures j == k {
      assert Together(p, j, k);
    }
  }

  lemma ExpireKeepsPools(p: Post, now: int)
    requires PoolsOk(p)
    ensures PoolsOk(Expire(p, now))
  {
    var q := Expire(p, now);
    forall r, u ensures |Pool(q, r, u)| <= CAPACITY {
      assert |Pool(p, r, u)| <= CAPACITY;
      PoolShrinks(p, q, r, u);
    }
  }

  /** After `expireMessages(now)` nothing unacknowledged is past its time, no acknowledged row is gone, and the remaining
      rows are as they were. */
  lemma ExpirySweepsExactly(p: Post, now: int)
    requires PostOk(p)
    ensures PostOk(Expire(p, now))
    ensures forall id :: id in Expire(p, now).rows <==> id in p.rows && (p.rows[id].acknowledgedAt.Some? || p.policies[id].expiresAt > now)
    ensures forall id :: id in Expire(p, now).rows ==> Expire(p, now).rows[id] == p.rows[id]
    ensures forall k :: k in Expire(p, now).expiry ==> k.at > now
  {
    ExpireKeepsRows(p, now);
    ExpireKeepsHandoffs(p, now);
    ExpireKeepsPools(p, now);
    forall id ensures id in Expire(p, now).rows <==> id in p.rows && (p.rows[id].acknowledgedAt.Some? || p.policies[id].expiresAt > now) {
      if id in p.rows { assert RowOk(p, id); }
    }
  }

  // ---------- new messages ----------

  predicate FreshPolicy(policy: Policy, text: string) {
    && policy.suppliedAt.None? && policy.acknowledgedAt.None? && !policy.expired
    && policy.hash == Hash(policy.sender, policy.recipient, text)
  }

  lemma InsertGrowsOnePool(p: Post, id: Id, policy: Policy, text: string, r: Id, u: bool)
    requires id !in p.rows && RowsOk(p)
    ensures Pool(Insert(p, id, policy, text), r, u)
            == Pool(p, r, u) + (if r == policy.recipient && u == (policy.priority == P1) then {id} else {})
  {
  }

  lemma InsertKeepsPools(p: Post, id: Id, policy: Policy, text: string)
    requires id !in p.rows && RowsOk(p) && PoolsOk(p) && HasSpace(p, policy.recipient, policy.priority)
    ensures PoolsOk(Insert(p, id, policy, text))
  {
    forall r, u ensures |Pool(Insert(p, id, policy, text), r, u)| <= CAPACITY {
      InsertGrowsOnePool(p, id, policy, text, r, u);
      assert |Pool(p, r, u)| <= CAPACITY;
    }
  }

  lemma InsertKeeps(p: Post, id: Id, policy: Policy, text: string)
    requires PostOk(p) && id !in p.policies && FreshPolicy(policy, text) && HasSpace(p, policy.recipient, policy.priority)
    ensures PostOk(Insert(p, id, policy, text))
  {
    var q := Insert(p, id, policy, text);
    assert id in p.rows ==> RowOk(p, id);
    forall k | k in q.expiry ensures KeyOk(q, k) {
      if k in p.expiry { assert KeyOk(p, k); }
    }
    forall i | i in q.rows ensures RowOk(q, i) {
      if i in p.rows { assert RowOk(p, i); }
    }
    OthersKeepHandoffs(p, q);
    InsertKeepsPools(p, id, policy, text);
  }

  /** Handoffs stay as they are when their policies, rows and keys do. */
  lemma OthersKeepHandoffs(p: Post, q: Post)
    requires HandoffsOk(p) && q.handoffs == p.handoffs
    requires forall id :: id in p.policies ==> id in q.policies && (id in q.rows <==> id in p.rows)
    requires forall id :: id in p.policies ==> Static(q.policies[id], p.policies[id])
    requires forall id :: id in p.policies && id !in p.rows ==> (Keyed(q, id) <==> Keyed(p, id))
    ensures HandoffsOk(q)
  {
    forall k | k in q.handoffs ensures HandoffOk(q, q.handoffs[k]) {
      assert HandoffOk(p, p.handoffs[k]);
    }
    forall j, k | j in q.handoffs && k in q.handoffs && Together(q, j, k) ensures j == k {
      assert Together(p, j, k);
    }
  }

  predicate Static(a: Policy, b: Policy) {
    a.recipient == b.recipient && a.expiresAt == b.expiresAt && a.hash == b.hash && a.expired == b.expired && a.priority == b.priority
  }

  // ---------- supply ----------

  lemma SameRowsSamePools(p: Post, q: Post)
    requires PoolsOk(p)
    requires forall r, u :: Pool(q, r, u) <= Pool(p, r, u)
    ensures PoolsOk(q)
  {
    forall r, u ensures |Pool(q, r, u)| <= CAPACITY {
      assert |Pool(p, r, u)| <= CAPACITY;
      PoolShrinks(p, q, r, u);
    }
  }

  lemma SupplyOneKeeps(p: Post, id: Id, now: int)
    requires PostOk(p) && id in p.rows && id in p.policies && p.rows[id].acknowledgedAt.None?
    ensures PostOk(SupplyOne(p, id, now))
  {
    var q := SupplyOne(p, id, now);
    assert RowOk(p, id);
    forall k | k in q.expiry ensures KeyOk(q, k) {
      assert KeyOk(p, k);
    }
    forall i | i in q.rows ensures RowOk(q, i) {
      assert RowOk(p, i);
    }
    OthersKeepHandoffs(p, q);
    SameRowsSamePools(p, q);
  }

  ghost predicate AllPending(p: Post, batch: seq<Id>) {
    forall id :: id in batch ==> id in p.rows && id in p.policies && p.rows[id].acknowledgedAt.None?
  }

  // ---------- acknowledgement ----------

  lemma AcknowledgeOneKeeps(p: Post, recipient: Id, id: Id, now: int)
    requires PostOk(p) && AcknowledgeOne(p, recipient, id, now).Ok? && AcknowledgeOne(p, recipient, id, now).value.Some?
    ensures PostOk(AcknowledgeOne(p, recipient, id, now).value.value)
  {
    var q := AcknowledgeOne(p, recipient, id, now).value.value;
    assert id in p.rows ==> RowOk(p, id);
    forall k | k in q.expiry ensures KeyOk(q, k) {
      assert KeyOk(p, k);
    }
    forall i | i in q.rows ensures RowOk(q, i) {
      assert RowOk(p, i);
    }
    OthersKeepHandoffs(p, q);
    SameRowsSamePools(p, q);
  }

  // ---------- handoffs ----------

  lemma HandOffKeeps(p: Post, key: HandoffKey, id: Id, policy: Policy, text: string)
    requires PostOk(p) && id !in p.policies && key !in p.handoffs && FreshPolicy(policy, text)
    ensures PostOk(HandOff(p, key, id, policy, text))
  {
    var q := HandOff(p, key, id, policy, text);
    var blocked := !HasSpace(p, policy.recipient, policy.priority);
    assert id in p.rows ==> RowOk(p, id);
    var placed := if blocked then SetPolicy(p, id, policy) else Insert(p, id, policy, text);
    if blocked {
      HoldKeeps(p, id, policy);
    } else {
      InsertKeeps(p, id, policy, text);
    }
    var h := Handoff(id, policy.recipient, policy.sender, policy.createdAt, Some(text), blocked, false);
    assert q == placed.(handoffs := p.handoffs[key := h]);
    AddHandoffKeeps(p, placed, key, h);
  }

  lemma HoldKeeps(p: Post, id: Id, policy: Policy)
    requires PostOk(p) && id !in p.policies && id !in p.rows && !policy.expired
    ensures PostOk(SetPolicy(p, id, policy))
  {
    var q := SetPolicy(p, id, policy);
    forall k | k in q.expiry ensures KeyOk(q, k) {
      if k in p.expiry { assert KeyOk(p, k); }
    }
    forall i | i in q.rows ensures RowOk(q, i) {
      assert RowOk(p, i);
    }
    OthersKeepHandoffs(p, q);
    SameRowsSamePools(p, q);
  }

  lemma AddHandoffKeeps(p: Post, q: Post, key: HandoffKey, h: Handoff)
    requires HandoffsOk(p) && PostOk(q) && q.handoffs == p.handoffs && key !in p.handoffs
    requires h.messageId !in p.policies && HandoffOk(q, h)
    ensures PostOk(q.(handoffs := q.handoffs[key := h]))
  {
    var t := q.(handoffs := q.handoffs[key := h]);
    forall k | k in t.expiry ensures KeyOk(t, k) { assert KeyOk(q, k); }
    forall i | i in t.rows ensures RowOk(t, i) { assert RowOk(q, i); }
    forall k | k in t.handoffs ensures HandoffOk(t, t.handoffs[k]) {
      if k != key { assert HandoffOk(q, q.handoffs[k]); }
    }
    forall j, k | j in t.handoffs && k in t.handoffs && Together(t, j, k) ensures j == k {
      assert j != key ==> HandoffOk(p, p.handoffs[j]);
      assert k != key ==> HandoffOk(p, p.handoffs[k]);
      assert j != key && k != key ==> Together(q, j, k);
    }
    SameRowsSamePools(q, t);
  }

  /** Does this turn of the flush move the handoff into the inbox? */
  predicate Flushes(p: Post, key: HandoffKey, known: set<Id>) {
    && key in p.handoffs && p.handoffs[key].blocked && p.handoffs[key].text.Some? && p.handoffs[key].recipient in known
    && p.handoffs[key].messageId in p.policies && p.handoffs[key].messageId !in p.rows
    && HasSpace(p, p.handoffs[key].recipient, p.policies[p.handoffs[key].messageId].priority)
  }

  lemma FlushOneKeeps(p: Post, key: HandoffKey, known: set<Id>)
    requires PostOk(p)
    ensures PostOk(FlushOne(p, key, known))
  {
    if Flushes(p, key, known) {
      FlushedRowsOk(p, key, known);
      FlushedHandoffsOk(p, key, known);
      FlushedPoolsOk(p, key, known);
    }
  }

  lemma FlushedRowsOk(p: Post, key: HandoffKey, known: set<Id>)
    requires PostOk(p) && Flushes(p, key, known)
    ensures KeysOk(FlushOne(p, key, known)) && RowsOk(FlushOne(p, key, known))
  {
    var q := FlushOne(p, key, known);
    assert HandoffOk(p, p.handoffs[key]);
    forall k | k in q.expiry ensures KeyOk(q, k) {
      assert KeyOk(p, k);
    }
    forall i | i in q.rows ensures RowOk(q, i) {
      if i in p.rows { assert RowOk(p, i); }
    }
  }

  lemma FlushedHandoffsOk(p: Post, key: HandoffKey, known: set<Id>)
    requires PostOk(p) && Flushes(p, key, known)
    ensures HandoffsOk(FlushOne(p, key, known))
  {
    var q := FlushOne(p, key, known);
    assert HandoffOk(p, p.handoffs[key]);
    forall k | k in q.handoffs ensures HandoffOk(q, q.handoffs[k]) {
      assert HandoffOk(p, p.handoffs[k]);
      assert k != key ==> !Together(p, k, key);
    }
    forall j, k | j in q.handoffs && k in q.handoffs && Together(q, j, k) ensures j == k {
      assert Together(p, j, k);
    }
  }

  lemma FlushGrowsOnePool(p: Post, key: HandoffKey, known: set<Id>, r: Id, u: bool)
    requires Flushes(p, key, known)
    ensures var h := p.handoffs[key];
      Pool(FlushOne(p, key, known), r, u)
      == Pool(p, r, u) + (if r == h.recipient && u == (p.policies[h.messageId].priority == P1) then {h.messageId} else {})
  {
  }

  lemma FlushedPoolsOk(p: Post, key: HandoffKey, known: set<Id>)
    requires PostOk(p) && Flushes(p, key, known)
    ensures PoolsOk(FlushOne(p, key, known))
  {
    var q := FlushOne(p, key, known);
    forall r, u ensures |Pool(q, r, u)| <= CAPACITY {
      assert |Pool(p, r, u)| <= CAPACITY;
      FlushGrowsOnePool(p, key, known, r, u);
    }
  }
}
