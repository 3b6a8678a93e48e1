/** The repository wiki: pages, their revisions and what replaces what (apps/server/src/wiki/service.ts). */
module WikiStore {
  import opened Common
  import opened Chains

  /** A revision's id is its position plus one: the column is an autoincrement primary key. */
  datatype Revision = Revision(key: string, title: string, body: string, summary: string, supersededBy: Option<string>)
  datatype Page = Page(title: string, current: nat)
  datatype Store = Store(pages: map<string, Page>, revisions: seq<Revision>)

  /** `supersededBy` of a write: left out, null, or a title. */
  datatype Replacement = Keep | Drop | By(title: string)
  datatype Edit = Edit(title: string, body: string, baseRevision: Option<nat>, summary: string, supersededBy: Replacement)
  datatype WikiError = BadTitle | BodyTooLong | SummaryTooLong | ReplacementCycle | ReplacementMissing | Conflict(current: Option<nat>)

  const MAX_TITLE := 160
  const MAX_BODY := 65536
  const MAX_SUMMARY := 200

  predicate ValidTitle(title: string) {
    0 < |title| <= MAX_TITLE
    && forall i :: 0 <= i < |title| ==> title[i] >= ' ' && title[i] != 127 as char && title[i] != '[' && title[i] != ']'
  }

  function LowerChar(c: char): char {
    if 'A' <= c <= 'Z' then (c as int + 32) as char else c
  }

  function KeyOf(title: string): string {
    seq(|title|, i requires 0 <= i < |title| => LowerChar(title[i]))
  }

  function CurrentOf(s: Store, p: string): Option<Revision> {
    if p in s.pages && 0 < s.pages[p].current <= |s.revisions| then Some(s.revisions[s.pages[p].current - 1]) else None
  }

  function SupersededBy(s: Store, p: string): Option<string> {
    var current := CurrentOf(s, p);
    if current.Some? then current.value.supersededBy else None
  }

  /** Page key to replacement key, for the pages that are superseded now. */
  function Links(s: Store): map<string, string> {
    map p | p in s.pages && SupersededBy(s, p).Some? :: KeyOf(SupersededBy(s, p).value)
  }

  function Target(s: Store, p: string, change: Replacement): Result<Option<string>, WikiError> {
    match change
    case Keep => Ok(SupersededBy(s, p))
    case Drop => Ok(None)
    case By(title) => if ValidTitle(title) then Ok(Some(title)) else Err(BadTitle)
  }

  function CurrentId(s: Store, p: string): Option<nat> {
    if p in s.pages then Some(s.pages[p].current) else None
  }

  /** One write transaction. An error leaves the store as it was. */
  function Apply(s: Store, e: Edit): (Store, Result<nat, WikiError>) {
    var p := KeyOf(e.title);
    if !ValidTitle(e.title) then (s, Err(BadTitle))
    else if |e.body| > MAX_BODY then (s, Err(BodyTooLong))
    else if |e.summary| > MAX_SUMMARY then (s, Err(SummaryTooLong))
    else
      var target := Target(s, p, e.supersededBy);
      if target.Err? then (s, Err(target.error))
      else
        var verdict := if target.value.None? || target.value.value == "" then Verdict.Clear
                       else Check(Links(s), s.pages.Keys, {p}, Some(KeyOf(target.value.value)));
        if verdict.Cycle? then (s, Err(ReplacementCycle))
        else if verdict.Inadmissible? then (s, Err(ReplacementMissing))
        else
          var current := CurrentOf(s, p);
          if current.Some? && current.value.body == e.body && current.value.supersededBy == target.value then (s, Ok(s.pages[p].current))
          else if CurrentId(s, p) != e.baseRevision then (s, Err(Conflict(CurrentId(s, p))))
          else (Commit(s, p, e, target.value), Ok(|s.revisions| + 1))
  }

  function Commit(s: Store, p: string, e: Edit, supersededBy: Option<string>): Store {
    Store(s.pages[p := Page(if p in s.pages then s.pages[p].title else e.title, |s.revisions| + 1)],
          s.revisions + [Revision(p, e.title, e.body, e.summary, supersededBy)])
  }

  /** The tables the service owns and the write transaction over them. */
  class WikiService {
    var pages: map<string, Page>
    var revisions: seq<Revision>

    function State(): Store
      reads this
    {
      Store(pages, revisions)
    }

    constructor ()
      ensures State() == EMPTY
    {
      pages, revisions := map[], [];
    }

    method Write(e: Edit) returns (result: Result<nat, WikiError>)
      modifies this
      ensures (State(), result) == Apply(old(State()), e)
    {
      var key := KeyOf(e.title);
      var p := key;
      if !ValidTitle(e.title) { return Err(BadTitle); }
      if |e.body| > MAX_BODY { return Err(BodyTooLong); }
      if |e.summary| > MAX_SUMMARY { return Err(SummaryTooLong); }
      var target := Target(State(), p, e.supersededBy);
      if target.Err? { return Err(target.error); }
      var supersededBy := target.value;
      if supersededBy.Some? && supersededBy.value != "" {
        var verdict := FollowReplacements(key, supersededBy.value);
        if verdict.Cycle? { return Err(ReplacementCycle); }
        if verdict.Inadmissible? { return Err(ReplacementMissing); }
      }
      var current := CurrentOf(State(), p);
      if current.Some? && current.value.body == e.body && current.value.supersededBy == supersededBy {
        return Ok(pages[p].current);
      }
      if CurrentId(State(), p) != e.baseRevision {
        return Err(Conflict(CurrentId(State(), p)));
      }
      var title := if p in pages then pages[p].title else e.title;
      revisions := revisions + [Revision(key, e.title, e.body, e.summary, supersededBy)];
      pages := pages[p := Page(title, |revisions|)];
      return Ok(|revisions|);
    }

    /** The `visited` loop: from the replacement along the current revisions' own replacements. */
    method FollowReplacements(key: string, replacement: string) returns (verdict: Verdict)
      ensures verdict == Check(Links(State()), pages.Keys, {key}, Some(KeyOf(replacement)))
    {
      ghost var links, known := Links(State()), pages.Keys;
      var visited := {key};
      var next := Some(replacement);
      while next.Some?
        invariant Check(links, known, visited, if next.Some? then Some(KeyOf(next.value)) else None)
               == Check(links, known, {key}, Some(KeyOf(replacement)))
        decreases known - visited, next.Some?
      {
        var targetKey := KeyOf(next.value);
        if targetKey in visited {
          return Cycle;
        }
        ghost var seen := visited;
        visited := visited + {targetKey};
        if targetKey !in pages {
          return Inadmissible(targetKey);
        }
        assert targetKey in known - seen && targetKey !in known - visited;
        next := SupersededBy(State(), targetKey);
        assert targetKey in links <==> next.Some?;
      }
      return Clear;
    }
  }

  const EMPTY := Store(map[], [])

  // ---------- what every reachable wiki keeps ----------

  ghost predicate OwnCurrent(s: Store, p: string) {
    p in s.pages ==> 0 < s.pages[p].current <= |s.revisions| && s.revisions[s.pages[p].current - 1].key == p
  }

  ghost predicate NotNewerThanCurrent(s: Store, i: nat) {
    i < |s.revisions| ==> s.revisions[i].key in s.pages && i < s.pages[s.revisions[i].key].current
  }

  /** A page's current revision is its own and the newest of its revisions; every revision has a page. */
  ghost predicate RevisionsAgree(s: Store) {
    (forall p :: OwnCurrent(s, p)) && (forall i :: NotNewerThanCurrent(s, i))
  }

  ghost predicate TargetsExist(s: Store) {
    forall p :: p in s.pages && SupersededBy(s, p).Some? ==>
      ValidTitle(SupersededBy(s, p).value) && KeyOf(SupersededBy(s, p).value) in s.pages
  }

  ghost predicate Sound(s: Store) {
    RevisionsAgree(s) && TargetsExist(s) && Grounded(Links(s))
  }

  function Run(s: Store, edits: seq<Edit>): Store
    decreases |edits|
  {
    if edits == [] then s else Run(Apply(s, edits[0]).0, edits[1..])
  }

  lemma CommitSupersession(s: Store, p: string, e: Edit, supersededBy: Option<string>, q: string)
    requires RevisionsAgree(s)
    ensures SupersededBy(Commit(s, p, e, supersededBy), q) == if q == p then supersededBy else SupersededBy(s, q)
  {
    assert OwnCurrent(s, q);
  }

  lemma CommitLinks(s: Store, p: string, e: Edit, supersededBy: Option<string>)
    requires RevisionsAgree(s)
    ensures Links(Commit(s, p, e, supersededBy))
         == if supersededBy.Some? then Links(s)[p := KeyOf(supersededBy.value)] else Links(s) - {p}
  {
    var s' := Commit(s, p, e, supersededBy);
    var expected := if supersededBy.Some? then Links(s)[p := KeyOf(supersededBy.value)] else Links(s) - {p};
    forall q ensures q in Links(s') <==> q in expected
             ensures q in expected ==> Links(s')[q] == expected[q]
    {
      CommitSupersession(s, p, e, supersededBy, q);
    }
  }

  lemma CommitAgrees(s: Store, p: string, e: Edit, supersededBy: Option<string>)
    requires RevisionsAgree(s)
    ensures RevisionsAgree(Commit(s, p, e, supersededBy))
  {
    var s' := Commit(s, p, e, supersededBy);
    forall q ensures OwnCurrent(s', q) {
      assert OwnCurrent(s, q);
    }
    forall i: nat ensures NotNewerThanCurrent(s', i) {
      assert NotNewerThanCurrent(s, i);
    }
  }

  lemma CommitTargets(s: Store, p: string, e: Edit, supersededBy: Option<string>)
    requires RevisionsAgree(s) && TargetsExist(s)
    requires supersededBy.Some? ==> ValidTitle(supersededBy.value) && KeyOf(supersededBy.value) in s.pages
    ensures TargetsExist(Commit(s, p, e, supersededBy))
  {
    var s' := Commit(s, p, e, supersededBy);
    forall q | q in s'.pages && SupersededBy(s', q).Some?
      ensures ValidTitle(SupersededBy(s', q).value) && KeyOf(SupersededBy(s', q).value) in s'.pages
    {
      CommitSupersession(s, p, e, supersededBy, q);
    }
  }

  /** Every write, accepted or refused, keeps the wiki sound. */
  lemma WriteKeepsSound(s: Store, e: Edit)
    requires Sound(s)
    ensures Sound(Apply(s, e).0)
  {
    var p := KeyOf(e.title);
    var target := Target(s, p, e.supersededBy);
    if target.Ok? && Apply(s, e).0 == Commit(s, p, e, target.value) {
      if Apply(s, e).0 != s {
        CommitKeepsSound(s, p, e, target.value);
      }
    }
  }

  lemma CommitKeepsSound(s: Store, p: string, e: Edit, supersededBy: Option<string>)
    requires Sound(s)
    requires supersededBy.Some? ==> ValidTitle(supersededBy.value)
                                    && Check(Links(s), s.pages.Keys, {p}, Some(KeyOf(supersededBy.value))) == Verdict.Clear
    ensures Sound(Commit(s, p, e, supersededBy))
  {
    CommitAgrees(s, p, e, supersededBy);
    CommitLinks(s, p, e, supersededBy);
    if supersededBy.None? {
      UnlinkKeepsGrounded(Links(s), p);
    } else {
      LinkKeepsGrounded(Links(s), s.pages.Keys, p, KeyOf(supersededBy.value));
    }
    CommitTargets(s, p, e, supersededBy);
  }

  /** Every wiki reachable from a sound one has existing, acyclic replacements and consistent revisions. */
  lemma {:induction false} ReachableIsSound(s: Store, edits: seq<Edit>)
    requires Sound(s)
    ensures Sound(Run(s, edits))
    decreases |edits|
  {
    if edits != [] {
      WriteKeepsSound(s, edits[0]);
      ReachableIsSound(Apply(s, edits[0]).0, edits[1..]);
    }
  }

  lemma EmptyIsSound()
    ensures Sound(EMPTY)
  {
    assert (forall p :: OwnCurrent(EMPTY, p)) && forall i: nat :: NotNewerThanCurrent(EMPTY, i);
    var links := Links(EMPTY);
    forall k ensures Ends(links, k) {
      assert Walk(links, k, 1).None?;
    }
  }

  lemma ReachableReplacementsAcyclic(edits: seq<Edit>)
    ensures Acyclic(Links(Run(EMPTY, edits))) && TargetsExist(Run(EMPTY, edits))
  {
    EmptyIsSound();
    ReachableIsSound(EMPTY, edits);
    GroundedIsAcyclic(Links(Run(EMPTY, edits)));
  }

  // ---------- no update is lost ----------

  /** A write that changes anything replaced exactly the revision it was based on, and nothing else changed. */
  lemma ChangeReplacesItsBase(s: Store, e: Edit)
    requires Sound(s) && Apply(s, e).0 != s
    ensures var s' := Apply(s, e).0;
            var p := KeyOf(e.title);
            && CurrentId(s, p) == e.baseRevision
            && Apply(s, e).1 == Ok(|s'.revisions|) && CurrentId(s', p) == Some(|s'.revisions|)
            && |s'.revisions| == |s.revisions| + 1 && s.revisions <= s'.revisions
            && s'.revisions[|s.revisions|].key == p && s'.revisions[|s.revisions|].title == e.title
            && s'.revisions[|s.revisions|].body == e.body && s'.revisions[|s.revisions|].summary == e.summary
            && s'.pages[p].title == (if p in s.pages then s.pages[p].title else e.title)
            && forall q :: q != p ==> CurrentId(s', q) == CurrentId(s, q)
  {
  }

  lemma WriteOnlyGrows(s: Store, e: Edit, p: string)
    requires RevisionsAgree(s) && p in s.pages
    ensures var s' := Apply(s, e).0;
            s.revisions <= s'.revisions && p in s'.pages && s.pages[p].current <= s'.pages[p].current
            && s'.pages[p].title == s.pages[p].title
  {
    assert OwnCurrent(s, p);
  }

  lemma {:induction false} RevisionsOnlyGrow(s: Store, edits: seq<Edit>, p: string)
    requires Sound(s) && p in s.pages
    ensures var s' := Run(s, edits);
            s.revisions <= s'.revisions && p in s'.pages && s.pages[p].current <= s'.pages[p].current
            && s'.pages[p].title == s.pages[p].title
    decreases |edits|
  {
    if edits != [] {
      WriteKeepsSound(s, edits[0]);
      WriteOnlyGrows(s, edits[0], p);
      RevisionsOnlyGrow(Apply(s, edits[0]).0, edits[1..], p);
    }
  }

  /**
   Once a page has moved past a revision, no later write based on that revision (or on the page not existing) changes the
   page, whatever other writes come in between.
   */
  lemma StaleBaseNeverWins(s: Store, edits: seq<Edit>, e: Edit)
    requires Sound(s) && KeyOf(e.title) in s.pages
    requires e.baseRevision.None? || e.baseRevision.value < s.pages[KeyOf(e.title)].current
    ensures Apply(Run(s, edits), e).0 == Run(s, edits)
  {
    RevisionsOnlyGrow(s, edits, KeyOf(e.title));
    ReachableIsSound(s, edits);
    if Apply(Run(s, edits), e).0 != Run(s, edits) {
      ChangeReplacesItsBase(Run(s, edits), e);
    }
  }

  /** Of two writes based on the same revision of a page, at most one changes it. */
  lemma OneWriterPerBase(s: Store, first: Edit, between: seq<Edit>, second: Edit)
    requires Sound(s) && KeyOf(first.title) == KeyOf(second.title) && first.baseRevision == second.baseRevision
    requires Apply(s, first).0 != s
    ensures var s' := Run(Apply(s, first).0, between);
            Apply(s', second).0 == s'
  {
    WriteKeepsSound(s, first);
    ChangeReplacesItsBase(s, first);
    assert OwnCurrent(s, KeyOf(first.title));
    StaleBaseNeverWins(Apply(s, first).0, between, second);
  }

  // ---------- which replacement a write leaves ----------

  /** What the edit wants the page to be replaced by: what it is now, nothing, or the page it names. */
  function Wanted(s: Store, e: Edit): Option<string> {
    if e.supersededBy.Keep? then SupersededBy(s, KeyOf(e.title))
    else if e.supersededBy.Drop? then None
    else Some(e.supersededBy.title)
  }

  lemma TargetIsWanted(s: Store, e: Edit)
    ensures var target := Target(s, KeyOf(e.title), e.supersededBy);
      target.Ok? ==> target.value == Wanted(s, e)
  {
  }

  /** A write that succeeds leaves the page with the text and the replacement it asked for, whether or not it had to change
      anything; a plain text edit leaves the replacement alone, and one that is refused leaves everything alone. No other page's
      replacement moves. */
  lemma WriteLeavesWhatWasAsked(s: Store, e: Edit)
    requires Sound(s)
    ensures var (s', result) := Apply(s, e);
            var p := KeyOf(e.title);
            && (result.Ok? ==> && CurrentId(s', p) == Some(result.value) && CurrentOf(s', p).Some? && CurrentOf(s', p).value.body == e.body
                               && SupersededBy(s', p) == Wanted(s, e))
            && (result.Err? ==> s' == s)
            && (e.supersededBy.Keep? ==> SupersededBy(s', p) == SupersededBy(s, p))
            && forall q :: q != p ==> SupersededBy(s', q) == SupersededBy(s, q)
  {
    var p := KeyOf(e.title);
    var s' := Apply(s, e).0;
    TargetIsWanted(s, e);
    assert OwnCurrent(s, p);
    if s' != s {
      CommitAgrees(s, p, e, Wanted(s, e));
      assert OwnCurrent(s', p);
      forall q ensures SupersededBy(s', q) == if q == p then Wanted(s, e) else SupersededBy(s, q) {
        CommitSupersession(s, p, e, Wanted(s, e), q);
      }
    }
  }

  // ---------- which writes succeed ----------

  /** The page is there and its replacements do not lead back to `p`. */
  ghost predicate MayReplace(s: Store, p: string, title: string) {
    ValidTitle(title) && KeyOf(title) in s.pages && !LeadsTo(Links(s), KeyOf(title), p)
  }

  lemma ReplacementIsClearIff(s: Store, p: string, k: string)
    requires Sound(s)
    ensures Check(Links(s), s.pages.Keys, {p}, Some(k)) == Verdict.Clear <==> k in s.pages && !LeadsTo(Links(s), k, p)
  {
    var links, known := Links(s), s.pages.Keys;
    ClearIff(links, known, p, k);
    if n: nat :| SafeChain(links, known, {p}, k, n) {
      assert Walk(links, k, 0) == Some(k);
    }
    if k in s.pages && !LeadsTo(links, k, p) {
      assert Ends(links, k);
      var n: nat :| Walk(links, k, n).None?;
      forall i: nat, x | Walk(links, k, i) == Some(x) ensures x in known && x !in {p} {
        WalkStaysKnown(s, k, i);
      }
      assert SafeChain(links, known, {p}, k, n);
    }
  }

  /** The edit asks for nothing but what the page is already. */
  predicate Unchanged(s: Store, e: Edit) {
    CurrentOf(s, KeyOf(e.title)).Some? && CurrentOf(s, KeyOf(e.title)).value.body == e.body && SupersededBy(s, KeyOf(e.title)) == Wanted(s, e)
  }

  predicate WithinLimits(e: Edit) {
    ValidTitle(e.title) && |e.body| <= 65536 && |e.summary| <= 200
  }

  /** A write succeeds exactly when it is within the limits, the replacement it names, if any, exists and does not lead back, and
      it was based on the current revision or changes nothing. */
  lemma WriteSucceedsIff(s: Store, e: Edit)
    requires Sound(s)
    ensures Apply(s, e).1.Ok?
            <==> && WithinLimits(e)
                 && (e.supersededBy.By? ==> MayReplace(s, KeyOf(e.title), e.supersededBy.title))
                 && (Unchanged(s, e) || CurrentId(s, KeyOf(e.title)) == e.baseRevision)
  {
    var p := KeyOf(e.title);
    TargetIsWanted(s, e);
    if e.supersededBy.By? {
      ReplacementIsClearIff(s, p, KeyOf(e.supersededBy.title));
    } else if e.supersededBy.Keep? && SupersededBy(s, p).Some? {
      ChainIsSafe(s, p);
    }
  }

  // ---------- what the replacement walk refuses ----------

  /** An edit that leaves the replacement alone is never refused because of it. */
  lemma KeepIsNeverRefused(s: Store, e: Edit)
    requires Sound(s) && e.supersededBy.Keep?
    ensures Apply(s, e).1 != Err(ReplacementCycle) && Apply(s, e).1 != Err(ReplacementMissing)
  {
    var p := KeyOf(e.title);
    if SupersededBy(s, p).Some? {
      ChainIsSafe(s, p);
    }
  }

  lemma ChainIsSafe(s: Store, key: string)
    requires Sound(s) && key in Links(s)
    ensures Check(Links(s), s.pages.Keys, {key}, Some(Links(s)[key])) == Verdict.Clear
  {
    var links, known := Links(s), s.pages.Keys;
    assert Ends(links, links[key]);
    GroundedIsAcyclic(links);
    var n: nat :| Walk(links, links[key], n).None?;
    forall i: nat, x | Walk(links, links[key], i) == Some(x) ensures x in known && x !in {key} {
      WalkStaysKnown(s, links[key], i);
      assert Walk(links, key, i + 1) == Some(x);
    }
    SafeIsClear(links, known, {key}, links[key], n);
  }

  lemma {:induction false} WalkStaysKnown(s: Store, key: string, n: nat)
    requires TargetsExist(s) && key in s.pages
    ensures var at := Walk(Links(s), key, n); at.Some? ==> at.value in s.pages
    decreases n
  {
    if n > 0 && key in Links(s) {
      WalkStaysKnown(s, Links(s)[key], n - 1);
    }
  }

  /** Following replacements from any page ends at an existing page that nothing replaces. */
  lemma ReplacementChainEndsLive(s: Store, key: string) returns (n: nat, live: string)
    requires Sound(s) && key in s.pages
    ensures Walk(Links(s), key, n) == Some(live) && live in s.pages && SupersededBy(s, live).None?
  {
    assert Ends(Links(s), key);
    var m: nat :| Walk(Links(s), key, m).None?;
    n, live := LastNode(Links(s), key, m);
    WalkStaysKnown(s, key, n);
  }

  lemma {:induction false} LastNode(links: map<string, string>, key: string, m: nat) returns (n: nat, last: string)
    requires Walk(links, key, m).None?
    ensures Walk(links, key, n) == Some(last) && last !in links
    decreases m
  {
    if key in links {
      n, last := LastNode(links, links[key], m - 1);
      n := n + 1;
    } else {
      n, last := 0, key;
    }
  }
}
