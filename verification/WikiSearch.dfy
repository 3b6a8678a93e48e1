/** The two window scans that rank wiki pages (apps/server/src/wiki/service.ts). */
module WikiSearch {
  import opened Common

  datatype Hit = Hit(start: int, end: int, term: nat)

  /** `span` is None where the source keeps Infinity. */
  datatype Best = Best(coverage: nat, span: Option<int>, start: int)

  /** Each hit starts no earlier than the one before it. */
  ghost predicate SortedByStart(hits: seq<Hit>) {
    |hits| < 2 || (hits[|hits| - 2].start <= hits[|hits| - 1].start && SortedByStart(hits[..|hits| - 1]))
  }

  lemma {:induction false} StartsInOrder(hits: seq<Hit>, i: nat, j: nat)
    requires SortedByStart(hits) && i <= j < |hits|
    ensures hits[i].start <= hits[j].start
  {
    if i < j {
      if j < |hits| - 1 {
        StartsInOrder(hits[..|hits| - 1], i, j);
      } else {
        StartsInOrder(hits[..|hits| - 1], i, j - 1);
      }
    }
  }

  function Increment(counts: map<nat, nat>, term: nat): map<nat, nat> {
    counts[term := (if term in counts then counts[term] else 0) + 1]
  }

  function Decrement(counts: map<nat, nat>, term: nat): map<nat, nat>
    requires term in counts
  {
    if counts[term] > 1 then counts[term := counts[term] - 1] else counts - {term}
  }

  /** How often each term occurs in the contiguous run `hits[l..n]`. */
  ghost function Tally(hits: seq<Hit>, l: nat, n: nat): (counts: map<nat, nat>)
    requires l <= n <= |hits|
    ensures forall t :: t in counts ==> counts[t] > 0
  {
    if l == n then map[] else Increment(Tally(hits, l, n - 1), hits[n - 1].term)
  }

  /** The distinct terms of a run. */
  ghost function Terms(hits: seq<Hit>, l: nat, n: nat): set<nat>
    requires l <= n <= |hits|
  {
    Tally(hits, l, n).Keys
  }

  /** The furthest end inside a run; ends need not follow the order of starts. */
  ghost function FurthestEnd(hits: seq<Hit>, l: nat, n: nat): (e: int)
    requires l < n <= |hits|
    ensures forall i :: l <= i < n ==> hits[i].end <= e
    ensures exists i :: l <= i < n && hits[i].end == e
  {
    if n == l + 1 then hits[l].end
    else
      var e := FurthestEnd(hits, l, n - 1);
      if e < hits[n - 1].end then hits[n - 1].end else e
  }

  ghost function Span(hits: seq<Hit>, l: nat, n: nat): int
    requires l < n <= |hits|
  {
    FurthestEnd(hits, l, n) - hits[l].start
  }

  ghost predicate Fits(hits: seq<Hit>, maxWidth: int, l: nat, n: nat) {
    l < n <= |hits| && Span(hits, l, n) <= maxWidth
  }

  /** `b` is at least as good as the run: more distinct terms, or as many in no more space. */
  ghost predicate Dominates(b: Best, hits: seq<Hit>, l: nat, n: nat)
    requires l < n <= |hits|
  {
    var coverage := |Terms(hits, l, n)|;
    b.span.Some? && (coverage < b.coverage || (coverage == b.coverage && b.span.value <= Span(hits, l, n)))
  }

  ghost predicate Attained(b: Best, hits: seq<Hit>, maxWidth: int, l: nat, n: nat) {
    Fits(hits, maxWidth, l, n)
    && b == Best(|Terms(hits, l, n)|, Some(Span(hits, l, n)), hits[l].start)
  }

  /** The best run among those that end before position `n`. */
  ghost predicate BestUpTo(b: Best, hits: seq<Hit>, maxWidth: int, n: nat)
    requires n <= |hits|
  {
    && (b == Best(0, None, 0) || exists l, m :: 0 <= l < m <= n && Attained(b, hits, maxWidth, l, m))
    && forall l, m :: 0 <= l < m <= n && Fits(hits, maxWidth, l, m) ==> Dominates(b, hits, l, m)
  }

  lemma SpanShrinks(hits: seq<Hit>, l: nat, l': nat, n: nat)
    requires SortedByStart(hits) && l <= l' < n <= |hits|
    ensures Span(hits, l', n) <= Span(hits, l, n)
  {
    StartsInOrder(hits, l, l');
  }

  lemma {:induction false} TallyDropLeft(hits: seq<Hit>, l: nat, n: nat)
    requires l < n <= |hits|
    ensures Tally(hits, l, n) == Increment(Tally(hits, l + 1, n), hits[l].term)
    ensures Terms(hits, l, n) == Terms(hits, l + 1, n) + {hits[l].term}
  {
    if l + 1 < n {
      TallyDropLeft(hits, l, n - 1);
      IncrementsCommute(Tally(hits, l + 1, n - 1), hits[l].term, hits[n - 1].term);
    }
  }

  lemma IncrementsCommute(counts: map<nat, nat>, a: nat, b: nat)
    ensures Increment(Increment(counts, a), b) == Increment(Increment(counts, b), a)
  {
  }

  lemma DecrementUndoes(counts: map<nat, nat>, term: nat)
    requires forall t :: t in counts ==> counts[t] > 0
    ensures Decrement(Increment(counts, term), term) == counts
  {
  }

  method Count(hits: seq<Hit>, counts: map<nat, nat>, ghost l: nat, n: nat) returns (counts': map<nat, nat>)
    requires l <= n < |hits| && counts == Tally(hits, l, n)
    ensures counts' == Tally(hits, l, n + 1)
  {
    counts' := Increment(counts, hits[n].term);
  }

  method Uncount(hits: seq<Hit>, counts: map<nat, nat>, l: nat, ghost n: nat) returns (counts': map<nat, nat>)
    requires l < n <= |hits| && counts == Tally(hits, l, n)
    ensures counts' == Tally(hits, l + 1, n)
  {
    TallyDropLeft(hits, l, n);
    DecrementUndoes(Tally(hits, l + 1, n), hits[l].term);
    counts' := Decrement(counts, hits[l].term);
  }

  lemma {:induction false} TermsShrink(hits: seq<Hit>, l: nat, l': nat, n: nat)
    requires l <= l' <= n <= |hits|
    ensures Terms(hits, l', n) <= Terms(hits, l, n)
  {
    if l' < n {
      TermsShrink(hits, l, l', n - 1);
    }
  }

  lemma {:induction false} TermsWiden(hits: seq<Hit>, l: nat, n: nat, n': nat)
    requires l <= n <= n' <= |hits|
    ensures Terms(hits, l, n) <= Terms(hits, l, n')
  {
    if n < n' {
      TermsWiden(hits, l, n, n' - 1);
    }
  }

  /**
   The live part `ends[first..]` of the array for the window `hits[l..n]`: its head ends furthest in the window, and the
   rest serves the window that starts after that head.
   */
  ghost predicate Deque(ends: seq<nat>, first: nat, hits: seq<Hit>, l: nat, n: nat)
    requires n <= |hits|
    decreases |ends| - first
  {
    && first <= |ends|
    && if first == |ends| then l == n
       else && l <= ends[first] < n
            && (forall i :: l <= i < n ==> hits[i].end <= hits[ends[first]].end)
            && Deque(ends, first + 1, hits, ends[first] + 1, n)
  }

  lemma {:induction false} DequeMember(ends: seq<nat>, first: nat, hits: seq<Hit>, l: nat, n: nat, k: nat)
    requires n <= |hits| && Deque(ends, first, hits, l, n) && first <= k < |ends|
    ensures l <= ends[k] < n
    decreases |ends| - first
  {
    if first < k {
      DequeMember(ends, first + 1, hits, ends[first] + 1, n, k);
    }
  }

  lemma {:induction false} DequePush(ends: seq<nat>, kept: nat, first: nat, hits: seq<Hit>, l: nat, n: nat)
    requires n < |hits| && Deque(ends, first, hits, l, n) && first <= kept <= |ends|
    requires kept < |ends| ==> ends[kept] < n && hits[ends[kept]].end <= hits[n].end
    requires kept > first ==> ends[kept - 1] < n && hits[ends[kept - 1]].end > hits[n].end
    ensures Deque(ends[..kept] + [n], first, hits, l, n + 1)
    decreases kept - first
  {
    var ends' := ends[..kept] + [n];
    if first == kept {
      assert Deque(ends', first + 1, hits, n + 1, n + 1);
    } else {
      DequeMember(ends, first, hits, l, n, kept - 1);
      DequePush(ends, kept, first + 1, hits, ends[first] + 1, n);
    }
  }

  /** `hits[ends[firstEnd]].end`, the furthest end of the window. */
  function Furthest(ends: seq<nat>, first: nat, hits: seq<Hit>, ghost l: nat, ghost n: nat): (e: int)
    requires l < n <= |hits| && Deque(ends, first, hits, l, n)
    ensures e == FurthestEnd(hits, l, n)
  {
    DequeHead(ends, first, hits, l, n);
    hits[ends[first]].end
  }

  lemma DequeHead(ends: seq<nat>, first: nat, hits: seq<Hit>, l: nat, n: nat)
    requires l < n <= |hits| && Deque(ends, first, hits, l, n)
    ensures hits[ends[first]].end == FurthestEnd(hits, l, n)
  {
    var i :| l <= i < n && hits[i].end == FurthestEnd(hits, l, n);
  }

  method PushEnd(hits: seq<Hit>, ends: seq<nat>, first: nat, ghost l: nat, n: nat) returns (ends': seq<nat>)
    requires n < |hits| && Deque(ends, first, hits, l, n)
    ensures Deque(ends', first, hits, l, n + 1)
  {
    var kept := |ends|;
    while kept > first && (DequeMember(ends, first, hits, l, n, kept - 1); hits[ends[kept - 1]].end <= hits[n].end)
      invariant first <= kept <= |ends|
      invariant kept < |ends| ==> ends[kept] < n && hits[ends[kept]].end <= hits[n].end
    {
      kept := kept - 1;
    }
    DequePush(ends, kept, first, hits, l, n);
    ends' := ends[..kept] + [n];
  }

  lemma DequeDrop(ends: seq<nat>, first: nat, hits: seq<Hit>, l: nat, n: nat)
    requires l < n <= |hits| && Deque(ends, first, hits, l, n)
    ensures Deque(ends, if ends[first] < l + 1 then first + 1 else first, hits, l + 1, n)
  {
  }

  lemma LeadingTermCounted(hits: seq<Hit>, l: nat, n: nat)
    requires l < n <= |hits|
    ensures hits[l].term in Terms(hits, l, n)
  {
    TallyDropLeft(hits, l, n);
  }

  /** How often the first term of the run occurs in it. */
  ghost function LeadCount(hits: seq<Hit>, l: nat, n: nat): nat
    requires l < n <= |hits|
  {
    LeadingTermCounted(hits, l, n);
    Tally(hits, l, n)[hits[l].term]
  }

  /** No run that starts left of `left` and still fits has a term the current run misses. */
  ghost predicate NothingLost(hits: seq<Hit>, maxWidth: int, left: nat, n: nat)
    requires left <= n <= |hits|
  {
    forall l :: 0 <= l < left && Fits(hits, maxWidth, l, n) ==> Terms(hits, l, n) <= Terms(hits, left, n)
  }

  lemma NothingLostExtend(hits: seq<Hit>, maxWidth: int, left: nat, n: nat)
    requires left <= n < |hits| && NothingLost(hits, maxWidth, left, n)
    ensures NothingLost(hits, maxWidth, left, n + 1)
  {
    var n' := n + 1;
    forall l | 0 <= l < left && Fits(hits, maxWidth, l, n')
      ensures Terms(hits, l, n') <= Terms(hits, left, n')
    {
      assert Fits(hits, maxWidth, l, n);
    }
  }

  lemma NothingLostTooWide(hits: seq<Hit>, maxWidth: int, left: nat, n: nat)
    requires SortedByStart(hits) && left < n <= |hits| && !Fits(hits, maxWidth, left, n)
    ensures NothingLost(hits, maxWidth, left + 1, n)
  {
    forall l | 0 <= l < left + 1 ensures !Fits(hits, maxWidth, l, n) {
      SpanShrinks(hits, l, left, n);
    }
  }

  lemma NothingLostRepeated(hits: seq<Hit>, maxWidth: int, left: nat, n: nat)
    requires left < n <= |hits| && NothingLost(hits, maxWidth, left, n)
    requires LeadCount(hits, left, n) > 1
    ensures NothingLost(hits, maxWidth, left + 1, n)
  {
    TallyDropLeft(hits, left, n);
  }

  /** Once its leading term occurs only once, the current run is as good as every fitting run that ends with it. */
  lemma CurrentRunDominates(hits: seq<Hit>, maxWidth: int, left: nat, n: nat, l: nat)
    requires SortedByStart(hits) && left < n <= |hits| && l < n && Fits(hits, maxWidth, l, n)
    requires NothingLost(hits, maxWidth, left, n)
    requires LeadCount(hits, left, n) <= 1
    ensures Dominates(Best(|Terms(hits, left, n)|, Some(Span(hits, left, n)), hits[left].start), hits, l, n)
  {
    var here, there := Terms(hits, left, n), Terms(hits, l, n);
    if l <= left {
      SubsetSize(there, here);
      SpanShrinks(hits, l, left, n);
    } else {
      LaterRunIsPoorer(hits, left, n, l);
      SubsetSize(there, here);
    }
  }

  lemma LaterRunIsPoorer(hits: seq<Hit>, left: nat, n: nat, l: nat)
    requires left < l < n <= |hits| && LeadCount(hits, left, n) <= 1
    ensures Terms(hits, l, n) < Terms(hits, left, n)
  {
    TallyDropLeft(hits, left, n);
    TermsShrink(hits, left + 1, l, n);
  }

  lemma {:induction false} SubsetSize<T>(a: set<T>, b: set<T>)
    requires a <= b
    ensures |a| <= |b|
    ensures a != b ==> |a| < |b|
  {
    if a != {} {
      var x :| x in a;
      SubsetSize(a - {x}, b - {x});
    }
  }

  /** Most distinct terms among the runs that fit in `maxWidth`; among those, the least span. */
  method FocusedWindow(hits: seq<Hit>, maxWidth: int) returns (best: Best)
    requires SortedByStart(hits)
    ensures BestUpTo(best, hits, maxWidth, |hits|)
  {
    var counts: map<nat, nat> := map[];
    var ends: seq<nat> := [];
    var firstEnd: nat, left: nat := 0, 0;
    best := Best(0, None, 0);
    NothingSeen(hits, maxWidth);
    for right := 0 to |hits|
      invariant left <= right && counts == Tally(hits, left, right) && Deque(ends, firstEnd, hits, left, right)
      invariant NothingLost(hits, maxWidth, left, right)
      invariant BestUpTo(best, hits, maxWidth, right)
    {
      ends := PushEnd(hits, ends, firstEnd, left, right);
      counts := Count(hits, counts, left, right);
      NothingLostExtend(hits, maxWidth, left, right);
      left, firstEnd, counts := DropWhileTooWide(hits, maxWidth, ends, firstEnd, counts, left, right + 1);
      left, firstEnd, counts := DropWhileRepeated(hits, maxWidth, ends, firstEnd, counts, left, right + 1);
      best := Consider(hits, maxWidth, ends, firstEnd, counts, left, right, best);
    }
  }

  lemma NothingSeen(hits: seq<Hit>, maxWidth: int)
    ensures Tally(hits, 0, 0) == map[] && Deque([], 0, hits, 0, 0) && NothingLost(hits, maxWidth, 0, 0)
    ensures BestUpTo(Best(0, None, 0), hits, maxWidth, 0)
  {
  }

  /** `while (left <= right && furthest end - start of left > maxWidth) removeLeft()` */
  method DropWhileTooWide(hits: seq<Hit>, maxWidth: int, ends: seq<nat>, firstEnd: nat, counts: map<nat, nat>, left: nat, n: nat)
    returns (left': nat, firstEnd': nat, counts': map<nat, nat>)
    requires SortedByStart(hits) && left < n <= |hits|
    requires counts == Tally(hits, left, n) && Deque(ends, firstEnd, hits, left, n)
    requires NothingLost(hits, maxWidth, left, n)
    ensures left' <= n && counts' == Tally(hits, left', n) && Deque(ends, firstEnd', hits, left', n)
    ensures NothingLost(hits, maxWidth, left', n)
    ensures left' < n ==> Fits(hits, maxWidth, left', n)
  {
    left', firstEnd', counts' := left, firstEnd, counts;
    while left' < n && Furthest(ends, firstEnd', hits, left', n) - hits[left'].start > maxWidth
      invariant left' <= n && counts' == Tally(hits, left', n) && Deque(ends, firstEnd', hits, left', n)
      invariant NothingLost(hits, maxWidth, left', n)
    {
      NothingLostTooWide(hits, maxWidth, left', n);
      left', firstEnd', counts' := RemoveLeft(hits, ends, firstEnd', counts', left', n);
    }
  }

  /** `while (left <= right && the leading term is repeated) removeLeft()` */
  method DropWhileRepeated(hits: seq<Hit>, ghost maxWidth: int, ends: seq<nat>, firstEnd: nat, counts: map<nat, nat>, left: nat, n: nat)
    returns (left': nat, firstEnd': nat, counts': map<nat, nat>)
    requires SortedByStart(hits) && left <= n <= |hits|
    requires counts == Tally(hits, left, n) && Deque(ends, firstEnd, hits, left, n)
    requires NothingLost(hits, maxWidth, left, n)
    requires left < n ==> Fits(hits, maxWidth, left, n)
    ensures left' <= n && counts' == Tally(hits, left', n) && Deque(ends, firstEnd', hits, left', n)
    ensures NothingLost(hits, maxWidth, left', n)
    ensures left' < n ==> Fits(hits, maxWidth, left', n) && LeadCount(hits, left', n) <= 1
  {
    left', firstEnd', counts' := left, firstEnd, counts;
    while left' < n && (LeadingTermCounted(hits, left', n); counts'[hits[left'].term] > 1)
      invariant left' <= n && counts' == Tally(hits, left', n) && Deque(ends, firstEnd', hits, left', n)
      invariant NothingLost(hits, maxWidth, left', n)
      invariant left' < n ==> Fits(hits, maxWidth, left', n)
    {
      NothingLostRepeated(hits, maxWidth, left', n);
      if left' + 1 < n {
        SpanShrinks(hits, left', left' + 1, n);
      }
      left', firstEnd', counts' := RemoveLeft(hits, ends, firstEnd', counts', left', n);
    }
  }

  /** The comparison with the best window so far. */
  method Consider(hits: seq<Hit>, ghost maxWidth: int, ends: seq<nat>, firstEnd: nat, counts: map<nat, nat>, left: nat, right: nat, best: Best)
    returns (best': Best)
    requires SortedByStart(hits) && left <= right + 1 <= |hits|
    requires counts == Tally(hits, left, right + 1) && Deque(ends, firstEnd, hits, left, right + 1)
    requires NothingLost(hits, maxWidth, left, right + 1) && BestUpTo(best, hits, maxWidth, right)
    requires left <= right ==> Fits(hits, maxWidth, left, right + 1) && LeadCount(hits, left, right + 1) <= 1
    ensures BestUpTo(best', hits, maxWidth, right + 1)
  {
    best' := best;
    if left > right {
      NothingFits(hits, maxWidth, right + 1);
    } else {
      var span := Furthest(ends, firstEnd, hits, left, right + 1) - hits[left].start;
      if |counts| > best.coverage || (|counts| == best.coverage && (best.span.None? || span < best.span.value)) {
        best' := Best(|counts|, Some(span), hits[left].start);
      }
      assert |counts| == |counts.Keys| == |Terms(hits, left, right + 1)|;
      Improved(hits, maxWidth, best, best', left, right);
    }
  }

  lemma NothingFits(hits: seq<Hit>, maxWidth: int, n: nat)
    requires 0 < n <= |hits| && NothingLost(hits, maxWidth, n, n)
    ensures forall l :: 0 <= l < n ==> !Fits(hits, maxWidth, l, n)
  {
    forall l | 0 <= l < n ensures !Fits(hits, maxWidth, l, n) {
      assert hits[n - 1].term in Terms(hits, l, n) && Terms(hits, n, n) == {};
    }
  }

  /** `removeLeft` of the source: forget the first hit of the window. */
  method RemoveLeft(hits: seq<Hit>, ends: seq<nat>, firstEnd: nat, counts: map<nat, nat>, left: nat, ghost n: nat)
    returns (left': nat, firstEnd': nat, counts': map<nat, nat>)
    requires left < n <= |hits| && counts == Tally(hits, left, n) && Deque(ends, firstEnd, hits, left, n)
    ensures left' == left + 1 && counts' == Tally(hits, left', n) && Deque(ends, firstEnd', hits, left', n)
  {
    DequeDrop(ends, firstEnd, hits, left, n);
    counts' := Uncount(hits, counts, left, n);
    left' := left + 1;
    firstEnd' := if ends[firstEnd] < left' then firstEnd + 1 else firstEnd;
  }

  /** The run `hits[left..n]` as a candidate. */
  ghost function Candidate(hits: seq<Hit>, left: nat, n: nat): Best
    requires left < n <= |hits|
  {
    Best(|Terms(hits, left, n)|, Some(Span(hits, left, n)), hits[left].start)
  }

  ghost predicate Beats(a: Best, b: Best)
    requires a.span.Some?
  {
    a.coverage > b.coverage || (a.coverage == b.coverage && (b.span.None? || a.span.value < b.span.value))
  }

  lemma Improved(hits: seq<Hit>, maxWidth: int, prior: Best, best: Best, left: nat, right: nat)
    requires SortedByStart(hits) && left <= right < |hits|
    requires BestUpTo(prior, hits, maxWidth, right)
    requires NothingLost(hits, maxWidth, left, right + 1) && Fits(hits, maxWidth, left, right + 1)
    requires LeadCount(hits, left, right + 1) <= 1
    requires best == if Beats(Candidate(hits, left, right + 1), prior) then Candidate(hits, left, right + 1) else prior
    ensures BestUpTo(best, hits, maxWidth, right + 1)
  {
    var n := right + 1;
    var here := Candidate(hits, left, n);
    assert best == here ==> Attained(best, hits, maxWidth, left, n);
    forall l, m | 0 <= l < m <= n && Fits(hits, maxWidth, l, m) ensures Dominates(best, hits, l, m) {
      ImprovedAt(hits, maxWidth, prior, best, left, n, l, m);
    }
  }

  lemma ImprovedAt(hits: seq<Hit>, maxWidth: int, prior: Best, best: Best, left: nat, n: nat, l: nat, m: nat)
    requires SortedByStart(hits) && left < n <= |hits| && l < m <= n && Fits(hits, maxWidth, l, m)
    requires prior == Best(0, None, 0) || prior.span.Some?
    requires m < n ==> Dominates(prior, hits, l, m)
    requires NothingLost(hits, maxWidth, left, n) && Fits(hits, maxWidth, left, n)
    requires LeadCount(hits, left, n) <= 1
    requires best == if Beats(Candidate(hits, left, n), prior) then Candidate(hits, left, n) else prior
    ensures Dominates(best, hits, l, m)
  {
    LeadingTermCounted(hits, left, n);
    if m == n {
      CurrentRunDominates(hits, maxWidth, left, n, l);
    }
    StillDominates(prior, Candidate(hits, left, n), best, hits, l, m);
  }

  lemma StillDominates(prior: Best, here: Best, best: Best, hits: seq<Hit>, l: nat, m: nat)
    requires l < m <= |hits| && here.span.Some? && here.coverage > 0
    requires Dominates(prior, hits, l, m) || Dominates(here, hits, l, m)
    requires prior.span.None? ==> prior.coverage == 0
    requires best == if Beats(here, prior) then here else prior
    ensures Dominates(best, hits, l, m)
  {
  }

  // ---------- the full-match window ----------

  /** A run that holds every term found anywhere on the page. */
  ghost predicate CoversAll(hits: seq<Hit>, l: nat, n: nat) {
    l <= n <= |hits| && Terms(hits, l, n) == Terms(hits, 0, |hits|)
  }

  /** Start-to-start width of `hits[l..n]`. */
  ghost function Width(hits: seq<Hit>, l: nat, n: nat): int
    requires l < n <= |hits|
  {
    hits[n - 1].start - hits[l].start
  }

  /** `span` is the least start-to-start width of the covering runs that end before `n`, and `at` starts one of them. */
  ghost predicate LeastCover(hits: seq<Hit>, span: Option<int>, at: int, n: nat)
    requires n <= |hits|
  {
    && (span.Some? ==> exists l, m :: 0 <= l < m <= n && CoversAll(hits, l, m)
                                      && span.value == Width(hits, l, m) && at == hits[l].start)
    && forall l, m :: 0 <= l < m <= n && CoversAll(hits, l, m) ==> span.Some? && span.value <= Width(hits, l, m)
  }

  lemma CoverIsUpward(hits: seq<Hit>, l: nat, l': nat, n: nat)
    requires l <= l' <= n <= |hits| && CoversAll(hits, l', n)
    ensures CoversAll(hits, l, n)
  {
    TermsShrink(hits, l, l', n);
    TermsShrink(hits, 0, l, n);
    TermsWiden(hits, 0, n, |hits|);
  }

  lemma CoversBySize(hits: seq<Hit>, l: nat, n: nat)
    requires l <= n <= |hits|
    ensures CoversAll(hits, l, n) <==> |Terms(hits, l, n)| == |Terms(hits, 0, |hits|)|
  {
    TermsShrink(hits, 0, l, n);
    TermsWiden(hits, 0, n, |hits|);
    SubsetSize(Terms(hits, l, n), Terms(hits, 0, |hits|));
  }

  /** The smallest window covering every matched term. `matched` is the number of distinct terms on the page. */
  method MinimumWindow(hits: seq<Hit>, matched: nat) returns (span: Option<int>, windowStart: int)
    requires SortedByStart(hits) && matched == |Terms(hits, 0, |hits|)|
    ensures LeastCover(hits, span, windowStart, |hits|)
    ensures hits != [] ==> span.Some?
  {
    var counts: map<nat, nat> := map[];
    var left: nat := 0;
    span := None;
    windowStart := if |hits| > 0 then hits[0].start else 0;
    for right := 0 to |hits|
      invariant left <= right && counts == Tally(hits, left, right)
      invariant NoWider(span, hits, left, right) && LeastCover(hits, span, windowStart, right)
    {
      counts := Count(hits, counts, left, right);
      NoWiderExtends(span, hits, left, right);
      counts, left, span, windowStart := ShrinkWhileCovering(hits, matched, counts, left, right, span, windowStart);
    }
    WholePageCovers(hits, span, windowStart);
  }

  lemma WholePageCovers(hits: seq<Hit>, span: Option<int>, at: int)
    requires LeastCover(hits, span, at, |hits|)
    ensures hits != [] ==> span.Some?
  {
    if hits != [] {
      assert CoversAll(hits, 0, |hits|);
    }
  }

  /** The inner loop: while the window covers every term, measure it and drop its first hit. */
  method ShrinkWhileCovering(hits: seq<Hit>, matched: nat, counts: map<nat, nat>, left: nat, right: nat, span: Option<int>, windowStart: int)
    returns (counts': map<nat, nat>, left': nat, span': Option<int>, windowStart': int)
    requires SortedByStart(hits) && matched == |Terms(hits, 0, |hits|)| && left <= right < |hits|
    requires counts == Tally(hits, left, right + 1) && LeastCover(hits, span, windowStart, right)
    requires NoWider(span, hits, left, right + 1)
    ensures left' <= right + 1 && counts' == Tally(hits, left', right + 1)
    ensures LeastCover(hits, span', windowStart', right + 1) && !CoversAll(hits, left', right + 1)
    ensures NoWider(span', hits, left', right + 1)
  {
    var n := right + 1;
    counts', left', span', windowStart' := counts, left, span, windowStart;
    while left' < n && HoldsAll(counts', matched, hits, left', n)
      invariant left' <= n && counts' == Tally(hits, left', n)
      invariant NoWider(span', hits, left', n) && Progress(hits, span, windowStart, span', windowStart', n)
    {
      span', windowStart' := Measure(hits, left', n, span, windowStart, span', windowStart');
      counts' := Uncount(hits, counts', left', n);
      left' := left' + 1;
    }
    if left' == n {
      EmptyRunCoversNothing(hits, n);
    }
    StillLeast(hits, span, windowStart, span', windowStart', left', right);
  }

  method Measure(hits: seq<Hit>, left: nat, n: nat, ghost span0: Option<int>, ghost at0: int, span: Option<int>, windowStart: int)
    returns (span': Option<int>, windowStart': int)
    requires left < n <= |hits| && CoversAll(hits, left, n)
    requires NoWider(span, hits, left, n) && Progress(hits, span0, at0, span, windowStart, n)
    ensures NoWider(span', hits, left + 1, n) && Progress(hits, span0, at0, span', windowStart', n)
  {
    span', windowStart' := span, windowStart;
    var width := hits[n - 1].start - hits[left].start;
    if span'.None? || width < span'.value {
      span', windowStart' := Some(width), hits[left].start;
      assert span' == Some(Width(hits, left, n));
    }
  }

  /** The best width so far came from before this pass or from a covering run that ends at `n`; it only shrinks. */
  ghost predicate Progress(hits: seq<Hit>, span0: Option<int>, at0: int, span: Option<int>, at: int, n: nat)
    requires n <= |hits|
  {
    && ((span == span0 && at == at0) || CoverFound(hits, span, at, n))
    && (span0.Some? ==> span.Some? && span.value <= span0.value)
  }

  /** Every run up to `n` that starts left of `left` is at least `span` wide. */
  ghost predicate NoWider(span: Option<int>, hits: seq<Hit>, left: nat, n: nat)
    requires left <= n <= |hits|
  {
    (left > 0 ==> span.Some?)
    && forall l :: 0 <= l < left ==> span.value <= hits[n - 1].start - hits[l].start
  }

  lemma NoWiderExtends(span: Option<int>, hits: seq<Hit>, left: nat, n: nat)
    requires SortedByStart(hits) && left <= n < |hits| && NoWider(span, hits, left, n)
    ensures NoWider(span, hits, left, n + 1)
  {
    if n > 0 {
      StartsInOrder(hits, n - 1, n);
    }
  }

  /** A covering run that ends at `n` has this width and start. */
  ghost predicate CoverFound(hits: seq<Hit>, span: Option<int>, at: int, n: nat)
    requires n <= |hits|
  {
    exists l :: 0 <= l < n && CoversAll(hits, l, n) && span == Some(Width(hits, l, n)) && at == hits[l].start
  }

  /** `counts.size === matched.size` */
  predicate HoldsAll(counts: map<nat, nat>, matched: nat, hits: seq<Hit>, ghost l: nat, ghost n: nat): (b: bool)
    requires l <= n <= |hits| && counts == Tally(hits, l, n) && matched == |Terms(hits, 0, |hits|)|
    ensures b <==> CoversAll(hits, l, n)
  {
    CoversBySize(hits, l, n);
    assert |counts| == |counts.Keys|;
    |counts| == matched
  }

  lemma EmptyRunCoversNothing(hits: seq<Hit>, n: nat)
    requires 0 < n <= |hits|
    ensures !CoversAll(hits, n, n)
  {
    assert hits[n - 1].term in Terms(hits, 0, n);
    TermsWiden(hits, 0, n, |hits|);
  }

  lemma StillLeast(hits: seq<Hit>, span0: Option<int>, at0: int, span: Option<int>, at: int, left: nat, right: nat)
    requires right < |hits| && left <= right + 1 && LeastCover(hits, span0, at0, right)
    requires Progress(hits, span0, at0, span, at, right + 1)
    requires NoWider(span, hits, left, right + 1)
    requires !CoversAll(hits, left, right + 1)
    ensures LeastCover(hits, span, at, right + 1)
  {
    var n := right + 1;
    forall l, m | 0 <= l < m <= n && CoversAll(hits, l, m)
      ensures span.Some? && span.value <= Width(hits, l, m)
    {
      if m < n {
        assert span0.Some? && span0.value <= Width(hits, l, m);
      } else if left <= l {
        CoverIsUpward(hits, left, l, n);
      } else {
        assert span.value <= hits[n - 1].start - hits[l].start;
      }
    }
  }
}
