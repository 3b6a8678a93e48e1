/** A run in which a message ID enters an inbox twice, because `dispatch` looks only for a dispatch record
    (apps/server/src/coordination/service.ts:408-432). */
module UsedIds {
  import opened Common
  import opened InboxPolicy
  import opened Coordination
  import opened CoordinationSafety
  import opened CoordinationTheorems
  import Chains

  /** The events take `s` to `t`, and the message enters an inbox `n` times on the way. */
  predicate Leads(s: State, events: seq<Event>, t: State, id: Id, n: nat) {
    Execute(s, events) == t && Arrivals(s, events, id) == n
  }

  lemma {:induction false} RunsSplit(s: State, a: seq<Event>, b: seq<Event>, id: Id)
    ensures Execute(s, a + b) == Execute(Execute(s, a), b)
    ensures Arrivals(s, a + b, id) == Arrivals(s, a, id) + Arrivals(Execute(s, a), b, id)
    decreases |a|
  {
    if a == [] {
      assert a + b == b;
    } else {
      assert (a + b)[0] == a[0] && (a + b)[1..] == a[1..] + b;
      RunsSplit(Next(s, a[0]), a[1..], b, id);
    }
  }

  lemma LeadsOn(s: State, events: seq<Event>, t: State, id: Id, n: nat, e: Event)
    requires Leads(s, events, t, id, n)
    ensures Leads(s, events + [e], Next(t, e), id, n + if id !in t.post.rows && id in Next(t, e).post.rows then 1 else 0)
  {
    RunsSplit(s, events, [e], id);
    assert [e][1..] == [];
  }

  // ---------- a message that expired unread ----------

  const START := Initial(-2000)
  const OLD := PolicyFor("boss", "worker", "old", Options(None, Some(1), None), Direct, -2000)
  const SUPERVISED := UpdateInput(false, None, Some(Unattended), Some(Some("boss")), None, None, Options(None, None, None))
  const FIRST_TASK := TaskInput(Some("d"), Some("w"), Some("e"), None, None)

  const BOTH_REGISTER := [Registers("boss", None, None), Registers("worker", None, None)]
  const SUPERVISE := Updates("worker", SUPERVISED, "u", "")
  const SEND_SHORT := Sends("boss", "m", "worker", "old", Options(None, Some(1), None))
  const DISPATCH_M := Dispatches("boss", "m", "worker", 0, Some(FIRST_TASK), "new")

  const BOTH := START.(assignments := map["boss" := Active, "worker" := Active], log := EventLog(2, map["boss" := 1, "worker" := 2]))
  const SUPERVISING := BOTH.(controls := map["worker" := Control(Unattended, Some("boss"), None, 1, None)],
                             log := EventLog(3, map["boss" := 1, "worker" := 3]))
  const SENT := SUPERVISING.(post := Insert(NoPost, "m", OLD, "old"))
  /** Two seconds later only its receipt is left. */
  const RECEIPT := SUPERVISING.(now := 0, post := NoPost.(policies := map["m" := Receipt(OLD)]))

  lemma NothingExpires(now: int)
    ensures Expire(NoPost, now) == NoPost
    ensures HasSpace(NoPost, "worker", P3)
  {
    assert Expire(NoPost, now).rows == map[] && Expire(NoPost, now).policies == map[];
    assert Expire(NoPost, now).expiry == {} && Expire(NoPost, now).handoffs == map[];
    assert Pool(NoPost, "worker", false) == {};
  }

  lemma BothRegister()
    ensures Leads(START, BOTH_REGISTER, BOTH, "m", 0)
  {
    var s1 := Next(START, BOTH_REGISTER[0]);
    assert s1 == START.(assignments := map["boss" := Active], log := EventLog(1, map["boss" := 1]));
    assert Next(s1, BOTH_REGISTER[1]) == BOTH;
    LeadsOn(START, [], START, "m", 0, BOTH_REGISTER[0]);
    LeadsOn(START, [] + [BOTH_REGISTER[0]], s1, "m", 0, BOTH_REGISTER[1]);
    assert [] + [BOTH_REGISTER[0]] + [BOTH_REGISTER[1]] == BOTH_REGISTER;
  }

  lemma TheBossSupervises()
    ensures Next(BOTH, SUPERVISE) == SUPERVISING
  {
    assert Links(BOTH) == map[] && "boss" in Unfinished(BOTH);
    assert Chains.Check(map[], Unfinished(BOTH), {"worker", "boss"}, None) == Chains.Clear;
    assert SupervisorVerdict(BOTH, "worker", SUPERVISED).None?;
  }

  lemma TheBossSends()
    ensures Next(SUPERVISING, SEND_SHORT) == SENT
  {
    NothingExpires(-2000);
  }

  lemma TheMessageExpires()
    ensures Next(Next(SENT, Tick(2000)), Expires) == RECEIPT
  {
    var p := SENT.post;
    assert Dies(p, 0, "m");
    assert Expire(p, 0).rows == map[] && Expire(p, 0).policies == map["m" := Receipt(OLD)];
    assert Expire(p, 0).expiry == {} && Expire(p, 0).handoffs == map[];
  }

  lemma TheMessageIsSent()
    ensures Leads(START, BOTH_REGISTER + [SUPERVISE, SEND_SHORT], SENT, "m", 1)
  {
    BothRegister();
    TheBossSupervises();
    TheBossSends();
    LeadsOn(START, BOTH_REGISTER, BOTH, "m", 0, SUPERVISE);
    LeadsOn(START, BOTH_REGISTER + [SUPERVISE], SUPERVISING, "m", 0, SEND_SHORT);
    assert BOTH_REGISTER + [SUPERVISE] + [SEND_SHORT] == BOTH_REGISTER + [SUPERVISE, SEND_SHORT];
  }

  lemma TheReceiptIsReached()
    ensures Leads(START, BOTH_REGISTER + [SUPERVISE, SEND_SHORT, Tick(2000), Expires], RECEIPT, "m", 1)
  {
    var events := BOTH_REGISTER + [SUPERVISE, SEND_SHORT];
    TheMessageIsSent();
    TheMessageExpires();
    LeadsOn(START, events, SENT, "m", 1, Tick(2000));
    LeadsOn(START, events + [Tick(2000)], Next(SENT, Tick(2000)), "m", 1, Expires);
    assert events + [Tick(2000)] + [Expires] == BOTH_REGISTER + [SUPERVISE, SEND_SHORT, Tick(2000), Expires];
  }

  // ---------- and its ID is dispatched ----------

  lemma FirstTaskIsComplete()
    ensures UpdateTask(None, FIRST_TASK.(state := Some(Working))).Ok?
  {
    assert "d"[0] in "d" && "w"[0] in "w" && "e"[0] in "e";
  }

  lemma TheReceiptStays()
    ensures Expire(RECEIPT.post, 0) == RECEIPT.post && HasSpace(RECEIPT.post, "worker", P2)
  {
    assert Expire(RECEIPT.post, 0).rows == map[] && Expire(RECEIPT.post, 0).expiry == {} && Expire(RECEIPT.post, 0).handoffs == map[];
    assert Expire(RECEIPT.post, 0).policies == RECEIPT.post.policies;
    assert Pool(RECEIPT.post, "worker", false) == {};
  }

  lemma TheReceiptIsDispatched()
    ensures var p := Next(RECEIPT, DISPATCH_M).post; "m" in p.rows && "m" in p.policies && !p.policies["m"].expired
  {
    TheReceiptStays();
    FirstTaskIsComplete();
    assert DispatchGuards(RECEIPT, "boss", "m", "worker", 0, Some(FIRST_TASK));
    DispatchOutcomes(RECEIPT, "boss", "m", "worker", 0, Some(FIRST_TASK), "new");
  }

  /** From the start: the boss sends the worker a message that expires unread, and then dispatches a task under its ID. The
      row "m" enters the inbox twice, and the receipt that said it had expired is gone. */
  lemma AnExpiredIdIsDispatched()
    ensures var before := BOTH_REGISTER + [SUPERVISE, SEND_SHORT, Tick(2000), Expires];
      var t := Execute(START, before + [DISPATCH_M]);
      && "m" in Execute(START, before).post.policies && Execute(START, before).post.policies["m"].expired
      && Arrivals(START, before + [DISPATCH_M], "m") == 2
      && "m" in t.post.policies && !t.post.policies["m"].expired
  {
    var before := BOTH_REGISTER + [SUPERVISE, SEND_SHORT, Tick(2000), Expires];
    TheReceiptIsReached();
    TheReceiptIsDispatched();
    LeadsOn(START, before, RECEIPT, "m", 1, DISPATCH_M);
    assert "m" !in RECEIPT.post.rows;
  }
}
