/**
 Chains of single links (a worker's supervisor, a page's replacement) and the visited-set walk that both
 CoordinationService.update and WikiService.write run before they add a link.
 */
module Chains {
  import opened Common

  /** Assignment ids and page keys. */
  type Node = string

  /** The node reached from `k` after `n` links, or None once the chain has ended. */
  ghost function Walk(next: map<Node, Node>, k: Node, n: nat): Option<Node>
    decreases n
  {
    if n == 0 then Some(k)
    else if k in next then Walk(next, next[k], n - 1)
    else None
  }

  ghost predicate Ends(next: map<Node, Node>, k: Node) {
    exists n: nat :: Walk(next, k, n).None?
  }

  /** Every chain ends. */
  ghost predicate Grounded(next: map<Node, Node>) {
    forall k :: Ends(next, k)
  }

  ghost predicate Acyclic(next: map<Node, Node>) {
    forall k, n: nat :: n > 0 ==> Walk(next, k, n) != Some(k)
  }

  lemma {:induction false} WalkSplits(next: map<Node, Node>, k: Node, m: nat, n: nat)
    ensures Walk(next, k, m + n) == (var mid := Walk(next, k, m); if mid.Some? then Walk(next, mid.value, n) else None)
    decreases m
  {
    if m > 0 && k in next {
      WalkSplits(next, next[k], m - 1, n);
    }
  }

  lemma {:induction false} CycleNeverEnds(next: map<Node, Node>, k: Node, period: nat, n: nat)
    requires period > 0 && Walk(next, k, period) == Some(k)
    ensures Walk(next, k, n).Some?
    decreases n
  {
    if n >= period {
      CycleNeverEnds(next, k, period, n - period);
      WalkSplits(next, k, period, n - period);
    } else {
      WalkSplits(next, k, n, period - n);
    }
  }

  lemma GroundedIsAcyclic(next: map<Node, Node>)
    requires Grounded(next)
    ensures Acyclic(next)
  {
    forall k, n: nat | n > 0 ensures Walk(next, k, n) != Some(k) {
      if Walk(next, k, n) == Some(k) {
        assert Ends(next, k);
        var m: nat :| Walk(next, k, m).None?;
        CycleNeverEnds(next, k, n, m);
      }
    }
  }

  // ---------- the visited-set walk ----------

  datatype Verdict = Clear | Cycle | Inadmissible(at: Node)

  /** Follow the chain from `at`; refuse a node seen before and a node that is not admissible. */
  function Check(next: map<Node, Node>, admissible: set<Node>, visited: set<Node>, at: Option<Node>): Verdict
    decreases admissible - visited, 1
  {
    if at.None? then Clear
    else if at.value in visited then Cycle
    else if at.value !in admissible then Inadmissible(at.value)
    else CheckFrom(next, admissible, visited, at.value)
  }

  function CheckFrom(next: map<Node, Node>, admissible: set<Node>, visited: set<Node>, at: Node): Verdict
    requires at in admissible && at !in visited
    decreases admissible - visited, 0
  {
    assert at in admissible - visited;
    Check(next, admissible, visited + {at}, if at in next then Some(next[at]) else None)
  }

  /** The walk as the source writes it. */
  method WalkChain(next: map<Node, Node>, admissible: set<Node>, id: Node, target: Node) returns (verdict: Verdict)
    ensures verdict == Check(next, admissible, {id}, Some(target))
  {
    var visited := {id};
    var at := Some(target);
    while at.Some?
      invariant Check(next, admissible, visited, at) == Check(next, admissible, {id}, Some(target))
      decreases admissible - visited, at.Some?
    {
      if at.value in visited {
        return Cycle;
      }
      if at.value !in admissible {
        return Inadmissible(at.value);
      }
      ghost var seen := visited;
      visited := visited + {at.value};
      assert at.value in admissible - seen && at.value !in admissible - visited;
      at := if at.value in next then Some(next[at.value]) else None;
    }
    return Clear;
  }

  /** The chain from `k` ends after `n` links, stays admissible and avoids `visited`. */
  ghost predicate SafeChain(next: map<Node, Node>, admissible: set<Node>, visited: set<Node>, k: Node, n: nat) {
    Walk(next, k, n).None?
    && forall i: nat, x :: Walk(next, k, i) == Some(x) ==> x in admissible && x !in visited
  }

  lemma {:induction false} ClearIsSafe(next: map<Node, Node>, admissible: set<Node>, visited: set<Node>, k: Node) returns (n: nat)
    requires Check(next, admissible, visited, Some(k)) == Clear
    ensures SafeChain(next, admissible, visited, k, n)
    decreases admissible - visited
  {
    n := 1;
    if k in next {
      assert k in admissible - visited;
      var m := ClearIsSafe(next, admissible, visited + {k}, next[k]);
      n := m + 1;
    }
    forall i: nat, x | Walk(next, k, i) == Some(x) ensures x in admissible && x !in visited {
      if i > 0 {
        assert Walk(next, next[k], i - 1) == Some(x);
      }
    }
  }

  lemma {:induction false} SafeIsClear(next: map<Node, Node>, admissible: set<Node>, visited: set<Node>, k: Node, n: nat)
    requires SafeChain(next, admissible, visited, k, n)
    ensures Check(next, admissible, visited, Some(k)) == Clear
    decreases n
  {
    assert Walk(next, k, 0) == Some(k);
    assert k in admissible && k !in visited;
    if k in next {
      forall i: nat, x | Walk(next, next[k], i) == Some(x) ensures x in admissible && x !in visited + {k} {
        assert Walk(next, k, i + 1) == Some(x);
        if x == k {
          CycleNeverEnds(next, k, i + 1, n);
        }
      }
      SafeIsClear(next, admissible, visited + {k}, next[k], n - 1);
    } else {
      assert Check(next, admissible, visited + {k}, None) == Clear;
    }
  }

  /** The walk accepts exactly the targets whose chain ends, stays admissible and never comes back to `id`. */
  lemma ClearIff(next: map<Node, Node>, admissible: set<Node>, id: Node, target: Node)
    ensures Check(next, admissible, {id}, Some(target)) == Clear
            <==> exists n: nat :: SafeChain(next, admissible, {id}, target, n)
  {
    if Check(next, admissible, {id}, Some(target)) == Clear {
      var n := ClearIsSafe(next, admissible, {id}, target);
    }
    if n: nat :| SafeChain(next, admissible, {id}, target, n) {
      SafeIsClear(next, admissible, {id}, target, n);
    }
  }

  // ---------- changing one link ----------

  lemma {:induction false} AvoidingWalkKept(next: map<Node, Node>, next': map<Node, Node>, id: Node, k: Node, n: nat)
    requires forall x :: x != id ==> (x in next <==> x in next') && (x in next ==> next[x] == next'[x])
    requires forall i: nat :: i < n ==> Walk(next, k, i) != Some(id)
    ensures Walk(next', k, n) == Walk(next, k, n)
    decreases n
  {
    if n > 0 {
      assert Walk(next, k, 0) == Some(k);
      if k in next {
        forall i: nat | i < n - 1 ensures Walk(next, next[k], i) != Some(id) {
          assert Walk(next, k, i + 1) == Walk(next, next[k], i);
        }
        AvoidingWalkKept(next, next', id, next[k], n - 1);
      }
    }
  }

  lemma {:induction false} EndsAfterChange(next: map<Node, Node>, next': map<Node, Node>, id: Node, k: Node, n: nat)
    requires forall x :: x != id ==> (x in next <==> x in next') && (x in next ==> next[x] == next'[x])
    requires Ends(next', id) && Walk(next, k, n).None?
    ensures Ends(next', k)
    decreases n
  {
    if k == id {
    } else if k in next {
      EndsAfterChange(next, next', id, next[k], n - 1);
      var m: nat :| Walk(next', next'[k], m).None?;
      assert Walk(next', k, m + 1).None?;
    } else {
      assert Walk(next', k, 1).None?;
    }
  }

  /** A link accepted by the walk keeps every chain ending. */
  lemma LinkKeepsGrounded(next: map<Node, Node>, admissible: set<Node>, id: Node, target: Node)
    requires Grounded(next) && Check(next, admissible, {id}, Some(target)) == Clear
    ensures Grounded(next[id := target])
  {
    var next' := next[id := target];
    var n := ClearIsSafe(next, admissible, {id}, target);
    AvoidingWalkKept(next, next', id, target, n);
    assert Walk(next', id, n + 1).None?;
    EveryChainEnds(next, next', id);
  }

  lemma UnlinkKeepsGrounded(next: map<Node, Node>, id: Node)
    requires Grounded(next)
    ensures Grounded(next - {id})
  {
    assert Walk(next - {id}, id, 1).None?;
    EveryChainEnds(next, next - {id}, id);
  }

  lemma EveryChainEnds(next: map<Node, Node>, next': map<Node, Node>, id: Node)
    requires Grounded(next) && Ends(next', id)
    requires forall x :: x != id ==> (x in next <==> x in next') && (x in next ==> next[x] == next'[x])
    ensures Grounded(next')
  {
    forall k ensures Ends(next', k) {
      assert Ends(next, k);
      var n: nat :| Walk(next, k, n).None?;
      EndsAfterChange(next, next', id, k, n);
    }
  }

  /** Conversely, a link whose target leads back to `id` makes a chain that never ends. */
  lemma BackLinkLoops(next: map<Node, Node>, id: Node, target: Node, n: nat)
    requires Walk(next, target, n) == Some(id)
    requires forall i: nat :: i < n ==> Walk(next, target, i) != Some(id)
    ensures !Grounded(next[id := target])
  {
    var next' := next[id := target];
    AvoidingWalkKept(next, next', id, target, n);
    assert Walk(next', id, n + 1) == Some(id);
    if Grounded(next') {
      GroundedIsAcyclic(next');
    }
  }

  lemma {:induction false} FirstReach(next: map<Node, Node>, k: Node, id: Node, n: nat) returns (first: nat)
    requires Walk(next, k, n) == Some(id)
    ensures Walk(next, k, first) == Some(id) && forall i: nat :: i < first ==> Walk(next, k, i) != Some(id)
    decreases n
  {
    if k == id {
      return 0;
    }
    var rest := FirstReach(next, next[k], id, n - 1);
    first := rest + 1;
    forall i: nat | i < first ensures Walk(next, k, i) != Some(id) {
      if i > 0 {
        assert Walk(next, k, i) == Walk(next, next[k], i - 1);
      }
    }
  }

  /** The chain from `k` comes to `id`. */
  ghost predicate LeadsTo(next: map<Node, Node>, k: Node, id: Node) {
    exists n: nat :: Walk(next, k, n) == Some(id)
  }

  /** An unchecked link is harmless exactly when its target does not lead back. */
  lemma UncheckedLinkIff(next: map<Node, Node>, id: Node, target: Node)
    requires Grounded(next)
    ensures Grounded(next[id := target]) <==> !LeadsTo(next, target, id)
  {
    if LeadsTo(next, target, id) {
      var n: nat :| Walk(next, target, n) == Some(id);
      var first := FirstReach(next, target, id, n);
      BackLinkLoops(next, id, target, first);
    } else {
      var next' := next[id := target];
      assert Ends(next, target);
      var n: nat :| Walk(next, target, n).None?;
      AvoidingWalkKept(next, next', id, target, n);
      assert Walk(next', id, n + 1).None?;
      EveryChainEnds(next, next', id);
    }
  }
}
