/**
 Merging live messages into a provider transcript (apps/server/src/sessions/timeline-merge.ts). A message carries what the
 text helpers make of its text: `trimmed`, the normalised `comparable` and its letters and digits `compact`. A timestamp
 carries its place in string order and what Date.parse makes of it.
 */
module TimelineMerge {
  import opened Common

  const WINDOW_MS := 600000
  const SHORT_EXACT_WINDOW_MS := 30000
  const CONTAINMENT_MIN_LENGTH := 80

  datatype Role = User | Assistant | Tool | Notice
  datatype Stamp = Stamp(order: int, ms: Option<int>)
  datatype Message = Message(source: string, stamp: Stamp, role: Role, trimmed: string, comparable: string, compact: string,
                             status: bool)

  predicate SharesPageRun(previous: Message, next: Message) {
    previous.role == next.role && (previous.role == Assistant || previous.role == User)
  }

  // ---------- when a live message repeats a transcript message ----------

  predicate OccursAt(s: string, t: string, i: nat) {
    i + |t| <= |s| && s[i..i + |t|] == t
  }

  predicate Includes(s: string, t: string) {
    exists i | 0 <= i <= |s| :: OccursAt(s, t, i)
  }

  function Distance(a: int, b: int): nat {
    if a <= b then b - a else a - b
  }

  predicate TextsMatch(a: Message, b: Message) {
    var minLength := if |a.comparable| <= |b.comparable| then |a.comparable| else |b.comparable|;
    if a.comparable == b.comparable then
      minLength >= CONTAINMENT_MIN_LENGTH
      || (a.stamp.ms.Some? && b.stamp.ms.Some? && Distance(a.stamp.ms.value, b.stamp.ms.value) <= SHORT_EXACT_WINDOW_MS)
    else minLength >= CONTAINMENT_MIN_LENGTH && (Includes(a.compact, b.compact) || Includes(b.compact, a.compact))
  }

  predicate TimesAreNear(a: Message, b: Message) {
    a.stamp.ms.Some? && b.stamp.ms.Some? ==> Distance(a.stamp.ms.value, b.stamp.ms.value) <= WINDOW_MS
  }

  /** The duplicate test on one pair. A live message without a valid time is compared with untimed messages only. */
  predicate Repeats(live: Message, t: Message) {
    && live.comparable != "" && t.comparable != "" && t.role == live.role
    && (live.stamp.ms.None? ==> t.stamp.ms.None?)
    && TimesAreNear(live, t) && TextsMatch(live, t)
  }

  /** Brute force over the whole transcript. */
  predicate InTranscript(live: Message, transcript: seq<Message>) {
    exists t :: t in transcript && Repeats(live, t)
  }

  /** The live messages no transcript message repeats, in order. */
  function NotInTranscript(live: seq<Message>, transcript: seq<Message>): seq<Message> {
    if live == [] then []
    else
      var rest := NotInTranscript(live[..|live| - 1], transcript);
      var last := live[|live| - 1];
      if InTranscript(last, transcript) then rest else rest + [last]
  }

  // ---------- the index ----------

  datatype Index = Index(buckets: map<Role, map<int, seq<Message>>>, untimed: map<Role, seq<Message>>)

  function Bucket(ms: int): int {
    ms / WINDOW_MS
  }

  function InBucket(index: Index, role: Role, bucket: int): seq<Message> {
    if role in index.buckets && bucket in index.buckets[role] then index.buckets[role][bucket] else []
  }

  function Untimed(index: Index, role: Role): seq<Message> {
    if role in index.untimed then index.untimed[role] else []
  }

  function Candidates(index: Index, live: Message): seq<Message> {
    if live.stamp.ms.None? || live.role !in index.buckets then Untimed(index, live.role)
    else
      var bucket := Bucket(live.stamp.ms.value);
      InBucket(index, live.role, bucket - 1) + InBucket(index, live.role, bucket) + InBucket(index, live.role, bucket + 1)
      + Untimed(index, live.role)
  }

  predicate Filed(message: Message, role: Role, bucket: int) {
    message.comparable != "" && message.role == role && message.stamp.ms.Some? && Bucket(message.stamp.ms.value) == bucket
  }

  predicate IsUntimed(message: Message, role: Role) {
    message.comparable != "" && message.role == role && message.stamp.ms.None?
  }

  function FiledIn(messages: seq<Message>, role: Role, bucket: int): seq<Message> {
    if messages == [] then []
    else
      var rest := FiledIn(messages[..|messages| - 1], role, bucket);
      if Filed(messages[|messages| - 1], role, bucket) then rest + [messages[|messages| - 1]] else rest
  }

  function FiledUntimed(messages: seq<Message>, role: Role): seq<Message> {
    if messages == [] then []
    else
      var rest := FiledUntimed(messages[..|messages| - 1], role);
      if IsUntimed(messages[|messages| - 1], role) then rest + [messages[|messages| - 1]] else rest
  }

  /** Every comparable message is filed under its role and ten-minute bucket, in order. */
  ghost predicate Indexes(index: Index, messages: seq<Message>) {
    && (forall role, bucket :: InBucket(index, role, bucket) == FiledIn(messages, role, bucket))
    && (forall role :: Untimed(index, role) == FiledUntimed(messages, role))
  }

  /** One turn of the loop: append the message to the list it belongs to. */
  method FileMessage(index: Index, message: Message) returns (next: Index)
    ensures forall role, bucket :: InBucket(next, role, bucket)
              == if Filed(message, role, bucket) then InBucket(index, role, bucket) + [message] else InBucket(index, role, bucket)
    ensures forall role :: Untimed(next, role)
              == if IsUntimed(message, role) then Untimed(index, role) + [message] else Untimed(index, role)
  {
    if message.comparable == "" {
      return index;
    }
    if message.stamp.ms.None? {
      return index.(untimed := index.untimed[message.role := Untimed(index, message.role) + [message]]);
    }
    var bucket := Bucket(message.stamp.ms.value);
    var roleBuckets := if message.role in index.buckets then index.buckets[message.role] else map[];
    var bucketMessages := if bucket in roleBuckets then roleBuckets[bucket] else [];
    return index.(buckets := index.buckets[message.role := roleBuckets[bucket := bucketMessages + [message]]]);
  }

  method BuildIndex(messages: seq<Message>) returns (index: Index)
    ensures Indexes(index, messages)
  {
    index := Index(map[], map[]);
    for i := 0 to |messages|
      invariant Indexes(index, messages[..i])
    {
      assert messages[..i + 1][..i] == messages[..i];
      index := FileMessage(index, messages[i]);
    }
    assert messages[..|messages|] == messages;
  }

  lemma {:induction false} FiledMembers(messages: seq<Message>, role: Role, bucket: int, t: Message)
    ensures t in FiledIn(messages, role, bucket) <==> t in messages && Filed(t, role, bucket)
    ensures t in FiledUntimed(messages, role) <==> t in messages && IsUntimed(t, role)
  {
    if messages != [] {
      assert messages == messages[..|messages| - 1] + [messages[|messages| - 1]];
      FiledMembers(messages[..|messages| - 1], role, bucket, t);
    }
  }

  // ---------- the lookup agrees with brute force ----------

  lemma NearMeansNeighbours(a: int, b: int)
    requires Distance(a, b) <= WINDOW_MS
    ensures Bucket(a) - 1 <= Bucket(b) <= Bucket(a) + 1
  {
  }

  /** Looking in the message's own bucket, its two neighbours and the untimed messages finds exactly what a scan finds. */
  lemma CandidatesSuffice(index: Index, messages: seq<Message>, live: Message)
    requires Indexes(index, messages) && live.comparable != ""
    ensures (exists t :: t in Candidates(index, live) && TimesAreNear(live, t) && TextsMatch(live, t)) <==> InTranscript(live, messages)
  {
    forall t ensures t in Candidates(index, live) && TimesAreNear(live, t) <==> t in messages && Repeatable(live, t) {
      CandidateIff(index, messages, live, t);
    }
    if t :| t in messages && Repeats(live, t) {
      assert t in messages && Repeatable(live, t);
    }
    if t :| t in Candidates(index, live) && TimesAreNear(live, t) && TextsMatch(live, t) {
      assert Repeats(live, t);
    }
  }

  /** `Repeats` without the texts. */
  predicate Repeatable(live: Message, t: Message) {
    t.comparable != "" && t.role == live.role && (live.stamp.ms.None? ==> t.stamp.ms.None?) && TimesAreNear(live, t)
  }

  lemma CandidateIff(index: Index, messages: seq<Message>, live: Message, t: Message)
    requires Indexes(index, messages)
    ensures t in Candidates(index, live) && TimesAreNear(live, t) <==> t in messages && Repeatable(live, t)
  {
    var role := live.role;
    FiledMembers(messages, role, 0, t);
    assert t in Untimed(index, role) <==> t in messages && IsUntimed(t, role);
    if live.stamp.ms.Some? {
      var bucket := Bucket(live.stamp.ms.value);
      FiledMembers(messages, role, bucket - 1, t);
      FiledMembers(messages, role, bucket, t);
      FiledMembers(messages, role, bucket + 1, t);
      assert t in Candidates(index, live)
             <==> t in InBucket(index, role, bucket - 1) || t in InBucket(index, role, bucket) || t in InBucket(index, role, bucket + 1)
                  || t in Untimed(index, role);
      if t.stamp.ms.Some? && TimesAreNear(live, t) {
        NearMeansNeighbours(live.stamp.ms.value, t.stamp.ms.value);
      }
    }
  }

  method LiveMessageIsInTranscript(live: Message, index: Index, ghost messages: seq<Message>) returns (found: bool)
    requires Indexes(index, messages)
    ensures found <==> InTranscript(live, messages)
  {
    if live.comparable == "" {
      return false;
    }
    CandidatesSuffice(index, messages, live);
    return exists t :: t in Candidates(index, live) && TimesAreNear(live, t) && TextsMatch(live, t);
  }

  /** A live message repeats one of the transcript when both have text, one role and times at most ten minutes apart, and the same
      text of at least 80 characters, or the same shorter text within thirty seconds, or one long text that holds the other. */
  lemma RepeatsIff(live: Message, t: Message)
    ensures var near := live.stamp.ms.Some? && t.stamp.ms.Some? ==> -600000 <= live.stamp.ms.value - t.stamp.ms.value <= 600000;
      var close := live.stamp.ms.Some? && t.stamp.ms.Some? && -30000 <= live.stamp.ms.value - t.stamp.ms.value <= 30000;
      var long := |live.comparable| >= 80 && |t.comparable| >= 80;
      Repeats(live, t)
      <==> && live.comparable != "" && t.comparable != "" && live.role == t.role && near && (live.stamp.ms.None? ==> t.stamp.ms.None?)
           && (if live.comparable == t.comparable then long || close
               else long && (Includes(live.compact, t.compact) || Includes(t.compact, live.compact)))
  {
  }

  // ---------- the earliest-live pre-filter ----------

  method EarliestLiveMs(live: seq<Message>) returns (earliest: Option<int>)
    ensures forall m :: m in live && m.stamp.ms.Some? ==> earliest.Some? && earliest.value <= m.stamp.ms.value
    ensures earliest.Some? ==> exists m :: m in live && m.stamp.ms == earliest
  {
    earliest := None;
    for i := 0 to |live|
      invariant forall m :: m in live[..i] && m.stamp.ms.Some? ==> earliest.Some? && earliest.value <= m.stamp.ms.value
      invariant earliest.Some? ==> exists m :: m in live[..i] && m.stamp.ms == earliest
    {
      assert live[..i + 1] == live[..i] + [live[i]];
      var ms := live[i].stamp.ms;
      if ms.Some? && (earliest.None? || ms.value < earliest.value) {
        earliest := ms;
        assert live[i] in live[..i + 1];
      }
    }
    assert live[..|live|] == live;
  }

  predicate Recent(t: Message, earliest: Option<int>) {
    earliest.Some? && t.stamp.ms.Some? ==> t.stamp.ms.value >= earliest.value - WINDOW_MS
  }

  method RecentMessages(transcript: seq<Message>, earliest: Option<int>) returns (recent: seq<Message>)
    ensures forall t :: t in recent <==> t in transcript && Recent(t, earliest)
  {
    recent := [];
    for i := 0 to |transcript|
      invariant forall t :: t in recent <==> t in transcript[..i] && Recent(t, earliest)
    {
      assert transcript[..i + 1] == transcript[..i] + [transcript[i]];
      if Recent(transcript[i], earliest) {
        recent := recent + [transcript[i]];
      }
    }
    assert transcript[..|transcript|] == transcript;
  }

  /** Dropping the messages older than ten minutes before the earliest live one changes no answer. */
  lemma RecentSuffices(live: Message, transcript: seq<Message>, recent: seq<Message>, earliest: Option<int>)
    requires live.stamp.ms.Some? ==> earliest.Some? && earliest.value <= live.stamp.ms.value
    requires forall t :: t in recent <==> t in transcript && Recent(t, earliest)
    ensures InTranscript(live, recent) <==> InTranscript(live, transcript)
  {
    if t :| t in transcript && Repeats(live, t) {
      assert Recent(t, earliest) && t in recent;
    }
  }

  /** Index and pre-filter keep exactly the live messages that a scan of the whole transcript keeps. */
  method FilterTranscriptBacked(live: seq<Message>, transcript: seq<Message>) returns (kept: seq<Message>)
    ensures kept == NotInTranscript(live, transcript)
  {
    var earliest := EarliestLiveMs(live);
    var recent := RecentMessages(transcript, earliest);
    var index := BuildIndex(recent);
    kept := [];
    for i := 0 to |live|
      invariant kept == NotInTranscript(live[..i], transcript)
    {
      assert live[..i + 1][..i] == live[..i];
      var found := LiveMessageIsInTranscript(live[i], index, recent);
      RecentSuffices(live[i], transcript, recent, earliest);
      if !found {
        kept := kept + [live[i]];
      }
    }
    assert live[..|live|] == live;
  }

  // ---------- duplicate scrub ----------

  predicate SameEntry(a: Message, b: Message) {
    a.source == b.source && a.stamp == b.stamp && a.role == b.role && a.trimmed == b.trimmed
  }

  predicate Seen(messages: seq<Message>, m: Message) {
    exists e :: e in messages && SameEntry(e, m)
  }

  /** Keep each message with no earlier one of the same source, time, role and trimmed text. */
  function KeepFirst(messages: seq<Message>): seq<Message> {
    if messages == [] then []
    else
      var earlier, last := messages[..|messages| - 1], messages[|messages| - 1];
      if Seen(earlier, last) then KeepFirst(earlier) else KeepFirst(earlier) + [last]
  }

  ghost predicate EachOnce(messages: seq<Message>) {
    forall i, j :: 0 <= i < j < |messages| ==> !SameEntry(messages[i], messages[j])
  }

  /** Nothing is lost and nothing is left twice. */
  lemma {:induction false} KeepFirstIsExact(messages: seq<Message>)
    ensures forall m :: Seen(KeepFirst(messages), m) <==> Seen(messages, m)
    ensures EachOnce(KeepFirst(messages))
    ensures forall m :: m in KeepFirst(messages) ==> m in messages
  {
    if messages != [] {
      var earlier, last := messages[..|messages| - 1], messages[|messages| - 1];
      KeepFirstIsExact(earlier);
      assert messages == earlier + [last];
      forall m ensures Seen(messages, m) <==> Seen(earlier, m) || SameEntry(last, m) {
        if Seen(earlier, m) {
          var e :| e in earlier && SameEntry(e, m);
          assert e in messages;
        }
        if SameEntry(last, m) { assert last in messages; }
      }
      if !Seen(earlier, last) {
        var kept := KeepFirst(earlier);
        forall m ensures Seen(kept + [last], m) <==> Seen(kept, m) || SameEntry(last, m) {
          if Seen(kept, m) {
            var e :| e in kept && SameEntry(e, m);
            assert e in kept + [last];
          }
          if SameEntry(last, m) { assert last in kept + [last]; }
        }
        forall i | 0 <= i < |kept| ensures !SameEntry(kept[i], last) {
          if SameEntry(kept[i], last) { assert Seen(kept, last); }
        }
      } else {
        var e :| e in earlier && SameEntry(e, last);
        forall m | SameEntry(last, m) ensures Seen(earlier, m) {
          assert SameEntry(e, m);
        }
      }
    }
  }

  datatype GroupKey = GroupKey(source: string, stamp: Stamp, role: Role)

  function KeyOf(m: Message): GroupKey {
    GroupKey(m.source, m.stamp, m.role)
  }

  predicate Grouped(groups: map<GroupKey, seq<Message>>, m: Message) {
    KeyOf(m) in groups && exists e :: e in groups[KeyOf(m)] && e.trimmed == m.trimmed
  }

  ghost predicate GroupsAre(groups: map<GroupKey, seq<Message>>, messages: seq<Message>) {
    && (forall k, e :: k in groups && e in groups[k] ==> KeyOf(e) == k)
    && (forall m :: Grouped(groups, m) <==> Seen(messages, m))
  }

  /** A new entry joins its group. */
  method AddToGroup(groups: map<GroupKey, seq<Message>>, m: Message, ghost messages: seq<Message>) returns (next: map<GroupKey, seq<Message>>)
    requires GroupsAre(groups, messages)
    ensures GroupsAre(next, messages + [m])
  {
    var group := if KeyOf(m) in groups then groups[KeyOf(m)] else [];
    next := groups[KeyOf(m) := group + [m]];
    forall x ensures Grouped(next, x) <==> Seen(messages + [m], x) {
      assert Grouped(groups, x) <==> Seen(messages, x);
      assert m in next[KeyOf(m)] && m in messages + [m];
      if Seen(messages, x) {
        var e :| e in messages && SameEntry(e, x);
        assert e in messages + [m];
      }
      if Grouped(groups, x) {
        var e :| e in groups[KeyOf(x)] && e.trimmed == x.trimmed;
        assert e in next[KeyOf(x)];
      }
    }
  }

  /** Grouping by source, time and role first is the same as comparing the full key. */
  method Dedupe(messages: seq<Message>) returns (deduped: seq<Message>)
    ensures deduped == KeepFirst(messages)
  {
    var groups: map<GroupKey, seq<Message>> := map[];
    deduped := [];
    for i := 0 to |messages|
      invariant deduped == KeepFirst(messages[..i])
      invariant GroupsAre(groups, deduped)
    {
      var m := messages[i];
      assert messages[..i + 1][..i] == messages[..i];
      KeepFirstIsExact(messages[..i]);
      assert Grouped(groups, m) <==> Seen(messages[..i], m);
      if !Grouped(groups, m) {
        groups := AddToGroup(groups, m, deduped);
        deduped := deduped + [m];
      }
    }
    assert messages[..|messages|] == messages;
  }

  // ---------- the merge ----------

  function LatestMs(messages: seq<Message>): Option<int> {
    if messages == [] then None
    else
      var earlier, ms := LatestMs(messages[..|messages| - 1]), messages[|messages| - 1].stamp.ms;
      if ms.Some? && (earlier.None? || ms.value > earlier.value) then ms else earlier
  }

  /** The greatest valid time, or none. */
  lemma {:induction false} LatestIs(messages: seq<Message>)
    ensures forall m :: m in messages && m.stamp.ms.Some? ==> LatestMs(messages).Some? && m.stamp.ms.value <= LatestMs(messages).value
    ensures LatestMs(messages).Some? ==> exists m :: m in messages && m.stamp.ms == LatestMs(messages)
  {
    if messages != [] {
      var init, last := messages[..|messages| - 1], messages[|messages| - 1];
      LatestIs(init);
      assert messages == init + [last] && last in messages;
      if m :| m in init && m.stamp.ms == LatestMs(init) {
        assert m in messages;
      }
    }
  }

  method LatestMessage(messages: seq<Message>) returns (latest: Option<Message>)
    ensures (if latest.Some? then latest.value.stamp.ms else None) == LatestMs(messages)
    ensures latest.Some? ==> latest.value in messages && latest.value.stamp.ms.Some?
    ensures forall m :: m in messages && m.stamp.ms.Some? ==> latest.Some? && m.stamp.ms.value <= latest.value.stamp.ms.value
  {
    LatestIs(messages);
    latest := None;
    for i := 0 to |messages|
      invariant (if latest.Some? then latest.value.stamp.ms else None) == LatestMs(messages[..i])
      invariant latest.Some? ==> latest.value in messages && latest.value.stamp.ms.Some?
    {
      assert messages[..i + 1][..i] == messages[..i];
      var ms := messages[i].stamp.ms;
      if ms.Some? && (latest.None? || ms.value > latest.value.stamp.ms.value) {
        latest := Some(messages[i]);
      }
    }
    assert messages[..|messages|] == messages;
  }

  predicate PendingAfter(m: Message, latest: Option<int>) {
    && m.role == User && m.source == "user-input" && !m.status
    && (latest.Some? ==> m.stamp.ms.Some? && m.stamp.ms.value > latest.value)
  }

  function PendingOf(messages: seq<Message>, latest: Option<int>): seq<Message> {
    if messages == [] then []
    else
      var rest := PendingOf(messages[..|messages| - 1], latest);
      if PendingAfter(messages[|messages| - 1], latest) then rest + [messages[|messages| - 1]] else rest
  }

  function Visible(messages: seq<Message>): seq<Message> {
    if messages == [] then []
    else
      var rest, last := Visible(messages[..|messages| - 1]), messages[|messages| - 1];
      if last.role == User || last.role == Assistant then rest + [last] else rest
  }

  predicate HasTranscript(messages: seq<Message>) {
    exists m :: m in messages && (m.role == User || m.role == Assistant || m.role == Tool)
  }

  function InsertByTime(sorted: seq<Message>, m: Message): seq<Message> {
    if sorted == [] || sorted[|sorted| - 1].stamp.order <= m.stamp.order then sorted + [m]
    else InsertByTime(sorted[..|sorted| - 1], m) + [sorted[|sorted| - 1]]
  }

  /** The stable sort by timestamp string. */
  function SortByTime(messages: seq<Message>): seq<Message> {
    if messages == [] then [] else InsertByTime(SortByTime(messages[..|messages| - 1]), messages[|messages| - 1])
  }

  function ShownOf(all: seq<Message>, visible: seq<Message>, live: seq<Message>): seq<Message> {
    if HasTranscript(all) then PendingOf(NotInTranscript(live, visible), LatestMs(visible)) else Visible(live)
  }

  function Merged(all: seq<Message>, visible: seq<Message>, live: seq<Message>): seq<Message> {
    if live == [] then KeepFirst(visible)
    else
      SortByTime(KeepFirst(visible + ShownOf(all, visible, live)))
  }

  method Merge(all: seq<Message>, visible: seq<Message>, live: seq<Message>) returns (merged: seq<Message>)
    ensures merged == Merged(all, visible, live)
  {
    if |live| == 0 {
      merged := Dedupe(visible);
      return;
    }
    var unseen := FilterTranscriptBacked(live, visible);
    var latest := LatestMessage(visible);
    var shown := if HasTranscript(all) then PendingOf(unseen, if latest.Some? then latest.value.stamp.ms else None) else Visible(live);
    var deduped := Dedupe(visible + shown);
    merged := SortByTime(deduped);
  }

  predicate Ordered(messages: seq<Message>) {
    forall i, j :: 0 <= i < j < |messages| ==> messages[i].stamp.order <= messages[j].stamp.order
  }

  lemma {:induction false} InsertAdds(sorted: seq<Message>, m: Message)
    ensures multiset(InsertByTime(sorted, m)) == multiset(sorted) + multiset{m}
  {
    if sorted != [] && sorted[|sorted| - 1].stamp.order > m.stamp.order {
      var init, last := sorted[..|sorted| - 1], sorted[|sorted| - 1];
      assert sorted == init + [last];
      InsertAdds(init, m);
    }
  }

  lemma {:induction false} InsertKeepsOrder(sorted: seq<Message>, m: Message)
    requires Ordered(sorted)
    ensures Ordered(InsertByTime(sorted, m))
  {
    if sorted != [] && sorted[|sorted| - 1].stamp.order > m.stamp.order {
      var init, last := sorted[..|sorted| - 1], sorted[|sorted| - 1];
      InsertKeepsOrder(init, m);
      InsertAdds(init, m);
      var grown := InsertByTime(init, m);
      forall i | 0 <= i < |grown| ensures grown[i].stamp.order <= last.stamp.order {
        assert grown[i] in multiset(grown);
        assert grown[i] in init || grown[i] == m;
      }
    }
  }

  lemma {:induction false} SortIsOrdered(messages: seq<Message>)
    ensures Ordered(SortByTime(messages)) && multiset(SortByTime(messages)) == multiset(messages)
  {
    if messages != [] {
      var init, last := messages[..|messages| - 1], messages[|messages| - 1];
      assert messages == init + [last];
      SortIsOrdered(init);
      InsertKeepsOrder(SortByTime(init), last);
      InsertAdds(SortByTime(init), last);
    }
  }

  /** The messages of one place in time order. */
  function AtTime(messages: seq<Message>, order: int): seq<Message> {
    if messages == [] then []
    else
      var rest, last := AtTime(messages[..|messages| - 1], order), messages[|messages| - 1];
      if last.stamp.order == order then rest + [last] else rest
  }

  lemma AtTimeAppend(messages: seq<Message>, m: Message, order: int)
    ensures AtTime(messages + [m], order) == AtTime(messages, order) + if m.stamp.order == order then [m] else []
  {
    assert (messages + [m])[..|messages|] == messages;
  }

  lemma {:induction false} InsertIsStable(sorted: seq<Message>, m: Message, order: int)
    requires Ordered(sorted)
    ensures AtTime(InsertByTime(sorted, m), order) == AtTime(sorted, order) + if m.stamp.order == order then [m] else []
  {
    if sorted == [] || sorted[|sorted| - 1].stamp.order <= m.stamp.order {
      AtTimeAppend(sorted, m, order);
    } else {
      var init, last := sorted[..|sorted| - 1], sorted[|sorted| - 1];
      InsertIsStable(init, m, order);
      AtTimeAppend(InsertByTime(init, m), last, order);
      assert last.stamp.order != m.stamp.order;
    }
  }

  /** Messages of the same time stay in the order in which they came. */
  lemma {:induction false} SortIsStable(messages: seq<Message>, order: int)
    ensures AtTime(SortByTime(messages), order) == AtTime(messages, order)
  {
    if messages != [] {
      var init := messages[..|messages| - 1];
      SortIsStable(init, order);
      SortIsOrdered(init);
      InsertIsStable(SortByTime(init), messages[|messages| - 1], order);
    }
  }

  /** What is kept of a first part does not depend on what follows: of repeated entries it is the first. */
  lemma {:induction false} KeepFirstGrows(a: seq<Message>, b: seq<Message>)
    ensures KeepFirst(a) <= KeepFirst(a + b)
    decreases |b|
  {
    if b == [] {
      assert a + b == a;
    } else {
      assert (a + b)[..|a + b| - 1] == a + b[..|b| - 1];
      KeepFirstGrows(a, b[..|b| - 1]);
    }
  }

  lemma {:induction false} FiltersSelect(messages: seq<Message>, transcript: seq<Message>, latest: Option<int>, m: Message)
    ensures m in NotInTranscript(messages, transcript) <==> m in messages && !InTranscript(m, transcript)
    ensures m in PendingOf(messages, latest) <==> m in messages && PendingAfter(m, latest)
  {
    if messages != [] {
      assert messages == messages[..|messages| - 1] + [messages[|messages| - 1]];
      FiltersSelect(messages[..|messages| - 1], transcript, latest, m);
    }
  }

  lemma {:induction false} InsertKeepsOnce(sorted: seq<Message>, m: Message)
    requires EachOnce(sorted) && !Seen(sorted, m)
    ensures EachOnce(InsertByTime(sorted, m))
  {
    if sorted == [] || sorted[|sorted| - 1].stamp.order <= m.stamp.order {
      forall i | 0 <= i < |sorted| ensures !SameEntry(sorted[i], m) {
        assert sorted[i] in sorted;
      }
    } else {
      var init, last := sorted[..|sorted| - 1], sorted[|sorted| - 1];
      InsertKeepsOnce(init, m);
      InsertAdds(init, m);
      var grown := InsertByTime(init, m);
      forall i | 0 <= i < |grown| ensures !SameEntry(grown[i], last) {
        assert grown[i] in multiset(grown);
        assert grown[i] in init || grown[i] == m;
      }
    }
  }

  lemma {:induction false} SortKeepsOnce(messages: seq<Message>)
    requires EachOnce(messages)
    ensures EachOnce(SortByTime(messages))
  {
    if messages != [] {
      var init, last := messages[..|messages| - 1], messages[|messages| - 1];
      SortKeepsOnce(init);
      SortIsOrdered(init);
      forall e | e in SortByTime(init) ensures !SameEntry(e, last) {
        assert e in multiset(init);
      }
      InsertKeepsOnce(SortByTime(init), last);
    }
  }

  lemma {:induction false} VisibleSelects(messages: seq<Message>, m: Message)
    ensures m in Visible(messages) <==> m in messages && (m.role == User || m.role == Assistant)
  {
    if messages != [] {
      assert messages == messages[..|messages| - 1] + [messages[|messages| - 1]];
      VisibleSelects(messages[..|messages| - 1], m);
    }
  }

  predicate LaterThanAll(l: Message, visible: seq<Message>) {
    forall t :: t in visible && t.stamp.ms.Some? ==> l.stamp.ms.Some? && l.stamp.ms.value > t.stamp.ms.value
  }

  lemma PendingIff(l: Message, visible: seq<Message>)
    ensures PendingAfter(l, LatestMs(visible)) <==> l.role == User && l.source == "user-input" && !l.status && LaterThanAll(l, visible)
  {
    LatestIs(visible);
  }

  /** Is this live message to be shown? With a provider transcript, if it is a user input that is newer than it and that no
      transcript message repeats; without one, if it is from the user or the assistant. */
  predicate Shows(all: seq<Message>, visible: seq<Message>, live: seq<Message>, l: Message) {
    && l in live
    && (if exists m :: m in all && m.role != Notice
        then l.role == User && l.source == "user-input" && !l.status && !InTranscript(l, visible) && LaterThanAll(l, visible)
        else l.role == User || l.role == Assistant)
  }

  lemma ShownIs(all: seq<Message>, visible: seq<Message>, live: seq<Message>, l: Message)
    ensures l in ShownOf(all, visible, live) <==> Shows(all, visible, live, l)
  {
    FiltersSelect(live, visible, LatestMs(visible), l);
    FiltersSelect(NotInTranscript(live, visible), visible, LatestMs(visible), l);
    VisibleSelects(live, l);
    PendingIff(l, visible);
    if m :| m in all && m.role != Notice {
      assert m.role == User || m.role == Assistant || m.role == Tool;
    }
  }

  /** An entry of the transcript, or of a live message that is to be shown. */
  ghost predicate Expected(all: seq<Message>, visible: seq<Message>, live: seq<Message>, m: Message) {
    Seen(visible, m) || exists l :: Shows(all, visible, live, l) && SameEntry(l, m)
  }

  lemma SeenIsExpected(all: seq<Message>, visible: seq<Message>, live: seq<Message>, m: Message)
    ensures Seen(visible + ShownOf(all, visible, live), m) <==> Expected(all, visible, live, m)
  {
    var shown := ShownOf(all, visible, live);
    if Seen(visible + shown, m) {
      var e :| e in visible + shown && SameEntry(e, m);
      ShownIs(all, visible, live, e);
      assert e in visible || e in shown;
    }
    if e :| e in visible && SameEntry(e, m) {
      assert e in visible + shown;
    }
    if l :| Shows(all, visible, live, l) && SameEntry(l, m) {
      ShownIs(all, visible, live, l);
      assert l in visible + shown;
    }
  }

  lemma SortSees(messages: seq<Message>, m: Message)
    ensures Seen(SortByTime(messages), m) <==> Seen(messages, m)
  {
    SortIsOrdered(messages);
    forall e ensures e in SortByTime(messages) <==> e in messages {
      assert e in multiset(SortByTime(messages)) <==> e in multiset(messages);
    }
  }

  /** The merged timeline shows, each entry once, exactly the transcript and the live messages that are to be shown. It is in
      time order; with no live messages it is the transcript in the order in which it arrived. */
  lemma MergedShowsExactly(all: seq<Message>, visible: seq<Message>, live: seq<Message>, m: Message)
    ensures Seen(Merged(all, visible, live), m) <==> Expected(all, visible, live, m)
    ensures EachOnce(Merged(all, visible, live))
    ensures if live == [] then Merged(all, visible, live) == KeepFirst(visible) else Ordered(Merged(all, visible, live))
  {
    var whole := visible + ShownOf(all, visible, live);
    KeepFirstIsExact(visible);
    KeepFirstIsExact(whole);
    SortIsOrdered(KeepFirst(whole));
    SortKeepsOnce(KeepFirst(whole));
    SortSees(KeepFirst(whole), m);
    SeenIsExpected(all, visible, live, m);
  }
}
