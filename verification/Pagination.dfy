/** Paging a conversation from its newest message back (`paginateMessages` in apps/server/src/routes/conversations.ts). */
module Pagination {
  import opened Common
  import T = TimelineMerge

  type Message = T.Message

  datatype PageInfo = PageInfo(hasOlder: bool, olderCursor: Option<nat>, total: nat)
  datatype Page = Page(messages: seq<Message>, info: Option<PageInfo>)

  /** A page may begin here: at the start of the list, or where no run of one speaker continues. */
  predicate Boundary(messages: seq<Message>, start: nat)
    requires start <= |messages|
  {
    start == 0 || start == |messages| || !T.SharesPageRun(messages[start - 1], messages[start])
  }

  function Clamp(n: int, length: nat): nat {
    if n < 0 then 0 else if n > length then length else n
  }

  /** The greatest boundary at or before `start`. */
  function BackToBoundary(messages: seq<Message>, start: nat): (at: nat)
    requires start <= |messages|
    ensures at <= start && Boundary(messages, at) && forall k :: at < k <= start ==> !Boundary(messages, k)
  {
    if Boundary(messages, start) then start else BackToBoundary(messages, start - 1)
  }

  /** The first message of the page that ends before `end`. */
  function PageStart(messages: seq<Message>, end: nat, limit: nat): nat
    requires end <= |messages| && limit >= 1
  {
    BackToBoundary(messages, Clamp(end - limit, |messages|))
  }

  /** `limit` may be absent, zero or negative too; only then is a page not what `PageStart` says. */
  method PaginateMessages(messages: seq<Message>, before: Option<int>, limit: Option<int>) returns (page: Page)
    ensures limit.None? ==> page == Page(messages, None)
    ensures limit.Some? ==> page.info.Some? && page.info.value.total == |messages|
                            && (page.info.value.hasOlder <==> page.info.value.olderCursor.Some?)
    ensures limit.Some? && limit.value >= 1 ==>
      var end := Clamp(if before.Some? then before.value else |messages|, |messages|);
      var start := PageStart(messages, end, limit.value);
      && page.messages == messages[start..end]
      && page.info.value.olderCursor == if start > 0 then Some(start) else None
    ensures limit.Some? && limit.value <= 0 ==> page.messages == []
  {
    if limit.None? {
      return Page(messages, None);
    }
    var cappedEnd := if before.Some? then Clamp(before.value, |messages|) else |messages|;
    var start: int := cappedEnd - limit.value;
    if start < 0 {
      start := 0;
    }
    if limit.value > 0 {
      while start > 0
        invariant 0 <= start <= cappedEnd && (start < cappedEnd || cappedEnd == 0)
        invariant BackToBoundary(messages, start) == PageStart(messages, cappedEnd, limit.value)
      {
        if !T.SharesPageRun(messages[start - 1], messages[start]) {
          break;
        }
        start := start - 1;
      }
    }
    var shown := if start <= cappedEnd then messages[start..cappedEnd] else [];
    return Page(shown, Some(PageInfo(start > 0, if start > 0 then Some(start) else None, |messages|)));
  }

  /** The pages a client sees that starts at `end` and follows `olderCursor`, oldest first. */
  function Pages(messages: seq<Message>, end: nat, limit: nat): seq<seq<Message>>
    requires end <= |messages| && limit >= 1
    decreases end
  {
    var start := PageStart(messages, end, limit);
    if start == 0 || start >= end then [messages[start..end]] else Pages(messages, start, limit) + [messages[start..end]]
  }

  function Flatten(pages: seq<seq<Message>>): seq<Message> {
    if pages == [] then [] else Flatten(pages[..|pages| - 1]) + pages[|pages| - 1]
  }

  /** Each page reaches further back, so the walk ends. */
  lemma PagesGoBack(messages: seq<Message>, end: nat, limit: nat)
    requires 0 < end <= |messages| && limit >= 1
    ensures PageStart(messages, end, limit) < end
  {
  }

  /** The pages, oldest first, are the whole list: no gap, no overlap. */
  lemma {:induction false} PagesAreTheList(messages: seq<Message>, end: nat, limit: nat)
    requires end <= |messages| && limit >= 1
    ensures Flatten(Pages(messages, end, limit)) == messages[..end]
    decreases end
  {
    var start := PageStart(messages, end, limit);
    var last := messages[start..end];
    if end > 0 {
      PagesGoBack(messages, end, limit);
    }
    if start == 0 || start >= end {
      assert [last][..0] == [];
    } else {
      PagesAreTheList(messages, start, limit);
      var older := Pages(messages, start, limit);
      assert (older + [last])[..|older|] == older;
    }
  }

  /** Both are from the user, or both from the assistant. */
  predicate SameSpeaker(a: Message, b: Message) {
    (a.role == T.User && b.role == T.User) || (a.role == T.Assistant && b.role == T.Assistant)
  }

  /** No page begins inside a run of one speaker, and none is longer than it must be to hold `limit` messages and begin at a
      boundary. */
  lemma PagesKeepRunsWhole(messages: seq<Message>, end: nat, limit: nat)
    requires end <= |messages| && limit >= 1
    ensures var start := PageStart(messages, end, limit);
      && (0 < start < |messages| ==> !SameSpeaker(messages[start - 1], messages[start]))
      && (start == 0 || end - start >= limit)
      && forall k :: start < k <= end - limit ==> SameSpeaker(messages[k - 1], messages[k])
  {
    var start := PageStart(messages, end, limit);
    forall k | start < k <= end - limit ensures SameSpeaker(messages[k - 1], messages[k]) {
      assert !Boundary(messages, k);
    }
  }
}
