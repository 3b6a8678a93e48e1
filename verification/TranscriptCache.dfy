/**
 The byte-capped cache of parsed transcripts (apps/server/src/lib/provider-conversation-cache.ts). A JavaScript Map keeps its
 keys in insertion order, so the cache is the list of its entries, least recently used first. Parses run in the background
 and may finish in any order.
 */
module TranscriptCache {
  import opened Common

  const MAX_BYTES := 64 * 1024 * 1024
  const STALE_MIN_BYTES := 8 * 1024 * 1024

  type Key = string

  datatype Stat = Stat(identity: string, size: nat, mtimeMs: int)
  datatype Entry = Entry(conversation: string, stat: Stat, generation: nat)
  datatype Slot = Slot(key: Key, entry: Entry)

  // ---------- the ordered map ----------

  predicate Has(slots: seq<Slot>, key: Key) {
    exists slot :: slot in slots && slot.key == key
  }

  ghost predicate Distinct(slots: seq<Slot>) {
    forall i, j :: 0 <= i < j < |slots| ==> slots[i].key != slots[j].key
  }

  function Find(slots: seq<Slot>, key: Key): Option<Entry> {
    if slots == [] then None
    else if slots[|slots| - 1].key == key then Some(slots[|slots| - 1].entry)
    else Find(slots[..|slots| - 1], key)
  }

  /** The list with `key` deleted. */
  function Without(slots: seq<Slot>, key: Key): seq<Slot> {
    if slots == [] then []
    else
      var rest := Without(slots[..|slots| - 1], key);
      if slots[|slots| - 1].key == key then rest else rest + [slots[|slots| - 1]]
  }

  function Bytes(slots: seq<Slot>): nat {
    if slots == [] then 0 else slots[0].entry.stat.size + Bytes(slots[1..])
  }

  /** Drop from the old end, by the counter, until it is within the cap or `key` is the oldest. */
  function Evict(slots: seq<Slot>, bytes: int, key: Key): (seq<Slot>, int) {
    if slots == [] || bytes <= MAX_BYTES || slots[0].key == key then (slots, bytes)
    else Evict(slots[1..], bytes - slots[0].entry.stat.size, key)
  }

  function SizeOf(entry: Option<Entry>): nat {
    if entry.Some? then entry.value.stat.size else 0
  }

  /** The recency order with the new entry at its young end. */
  function Appended(slots: seq<Slot>, key: Key, entry: Entry): seq<Slot> {
    Without(slots, key) + [Slot(key, entry)]
  }

  function Insert(slots: seq<Slot>, bytes: int, key: Key, entry: Entry): (seq<Slot>, int) {
    Evict(Appended(slots, key, entry), bytes - SizeOf(Find(slots, key)) + entry.stat.size, key)
  }

  // ---------- facts about the list ----------

  lemma {:induction false} BytesAppend(a: seq<Slot>, b: seq<Slot>)
    ensures Bytes(a + b) == Bytes(a) + Bytes(b)
    decreases |a|
  {
    if a == [] {
      assert a + b == b;
    } else {
      assert (a + b)[1..] == a[1..] + b && (a + b)[0] == a[0];
      BytesAppend(a[1..], b);
    }
  }

  lemma {:induction false} FindIff(slots: seq<Slot>, key: Key)
    ensures Has(slots, key) <==> Find(slots, key).Some?
    ensures Find(slots, key).Some? ==> Slot(key, Find(slots, key).value) in slots
  {
    if slots != [] {
      var init := slots[..|slots| - 1];
      assert slots == init + [slots[|slots| - 1]];
      FindIff(init, key);
      if Has(slots, key) {
        var slot :| slot in slots && slot.key == key;
        assert slot in init || slot == slots[|slots| - 1];
      }
      if Has(init, key) {
        var slot :| slot in init && slot.key == key;
        assert slot in slots;
      }
    }
  }

  lemma {:induction false} WithoutIs(slots: seq<Slot>, key: Key)
    requires Distinct(slots)
    ensures Distinct(Without(slots, key)) && !Has(Without(slots, key), key)
    ensures forall slot :: slot in Without(slots, key) <==> slot in slots && slot.key != key
    ensures Bytes(slots) == Bytes(Without(slots, key)) + SizeOf(Find(slots, key))
  {
    if slots != [] {
      var init, last := slots[..|slots| - 1], slots[|slots| - 1];
      assert slots == init + [last];
      WithoutIs(init, key);
      BytesAppend(init, [last]);
      var rest := Without(init, key);
      if last.key == key {
        FindIff(init, key);
        assert !Has(init, key);
      } else {
        BytesAppend(rest, [last]);
        forall i | 0 <= i < |rest| ensures rest[i].key != last.key {
          assert rest[i] in init;
        }
      }
    }
  }

  predicate OverCap(slots: seq<Slot>, from: nat)
    requires from <= |slots|
  {
    Bytes(slots[from..]) > MAX_BYTES
  }

  /** The list is cut at the least place where the rest is within the cap, or at the new key. */
  predicate IsCut(slots: seq<Slot>, key: Key, cut: nat) {
    && cut < |slots| && Evict(slots, Bytes(slots), key) == (slots[cut..], Bytes(slots[cut..]))
    && (OverCap(slots, cut) ==> slots[cut].key == key)
    && (cut > 0 ==> OverCap(slots, cut - 1) && slots[cut - 1].key != key)
  }

  lemma {:induction false} EvictIsMinimal(slots: seq<Slot>, key: Key) returns (cut: nat)
    requires slots != [] && slots[|slots| - 1].key == key
    ensures IsCut(slots, key, cut)
    decreases |slots|
  {
    assert slots[0..] == slots;
    if Bytes(slots) <= MAX_BYTES || slots[0].key == key {
      cut := 0;
    } else {
      var c := EvictIsMinimal(slots[1..], key);
      CutShifts(slots, key, c);
      cut := c + 1;
    }
  }

  lemma CutShifts(slots: seq<Slot>, key: Key, c: nat)
    requires slots != [] && slots[0].key != key && Bytes(slots) > MAX_BYTES && IsCut(slots[1..], key, c)
    ensures IsCut(slots, key, c + 1)
  {
    assert slots[1..][c..] == slots[c + 1..];
    if c == 0 {
      assert slots[0..] == slots;
    } else {
      assert slots[1..][c - 1..] == slots[c..];
    }
  }

  lemma AppendedIs(slots: seq<Slot>, key: Key, entry: Entry)
    requires Distinct(slots)
    ensures Distinct(Appended(slots, key, entry))
    ensures Bytes(Appended(slots, key, entry)) == Bytes(slots) - SizeOf(Find(slots, key)) + entry.stat.size
    ensures forall slot :: slot in Appended(slots, key, entry) <==> slot == Slot(key, entry) || (slot in slots && slot.key != key)
  {
    WithoutIs(slots, key);
    var kept := Without(slots, key);
    BytesAppend(kept, [Slot(key, entry)]);
    forall i | 0 <= i < |kept| ensures kept[i].key != key {
      assert kept[i] in kept;
    }
  }

  lemma InsertCuts(slots: seq<Slot>, key: Key, entry: Entry) returns (cut: nat)
    requires Distinct(slots)
    ensures var whole := Appended(slots, key, entry);
      && IsCut(whole, key, cut) && Distinct(whole)
      && Insert(slots, Bytes(slots), key, entry) == (whole[cut..], Bytes(whole[cut..]))
  {
    AppendedIs(slots, key, entry);
    cut := EvictIsMinimal(Appended(slots, key, entry), key);
  }

  /** After an insertion the counter is exact and within the cap, or only the new entry is left; what went is the oldest part
      of the recency order, and no more of it than the cap asked for. */
  lemma InsertBoundsTheTotal(slots: seq<Slot>, key: Key, entry: Entry) returns (cut: nat)
    requires Distinct(slots)
    ensures var (t, bytes), whole := Insert(slots, Bytes(slots), key, entry), Appended(slots, key, entry);
      && cut < |whole| && t == whole[cut..] && (cut > 0 ==> Bytes(whole[cut - 1..]) > 64 * 1024 * 1024)
      && Distinct(t) && bytes == Bytes(t)
      && (bytes <= MAX_BYTES || t == [Slot(key, entry)])
  {
    cut := InsertCuts(slots, key, entry);
    var whole := Appended(slots, key, entry);
    TailIsDistinct(whole, cut);
    if OverCap(whole, cut) {
      OnlyTheLastHasItsKey(whole, cut);
    }
  }

  lemma TailIsDistinct(slots: seq<Slot>, cut: nat)
    requires Distinct(slots) && cut <= |slots|
    ensures Distinct(slots[cut..])
  {
  }

  lemma OnlyTheLastHasItsKey(slots: seq<Slot>, i: nat)
    requires Distinct(slots) && i < |slots| && slots[i].key == slots[|slots| - 1].key
    ensures slots[i..] == [slots[|slots| - 1]]
  {
  }

  /** Which entries an insertion leaves. */
  lemma InsertLeaves(slots: seq<Slot>, key: Key, entry: Entry, slot: Slot)
    requires Distinct(slots)
    ensures slot in Insert(slots, Bytes(slots), key, entry).0 ==> slot == Slot(key, entry) || (slot in slots && slot.key != key)
  {
    AppendedIs(slots, key, entry);
    var cut := InsertBoundsTheTotal(slots, key, entry);
    assert slot in Appended(slots, key, entry)[cut..] ==> slot in Appended(slots, key, entry);
  }

  // ---------- the module's state ----------

  datatype Pending = Pending(fingerprint: Stat, generation: nat)
  /** A parse under way: which key, the file it saw, and whether an entry existed when it began. */
  datatype Parse = Parse(key: Key, stat: Stat, hadCached: bool)

  datatype State = State(slots: seq<Slot>, bytes: int, inFlight: map<Key, Pending>, generation: nat, parses: map<nat, Parse>)

  /** How `loadProviderConversationFromSummary` answers: from the cache, with a stale conversation, or by waiting for a parse. */
  datatype Answer = Cached(conversation: string) | Stale(conversation: string) | Waits(generation: nat)

  function DeleteEntry(s: State, key: Key): State {
    match Find(s.slots, key)
    case None => s
    case Some(entry) => s.(slots := Without(s.slots, key), bytes := s.bytes - entry.stat.size)
  }

  function InsertEntry(s: State, key: Key, entry: Entry): State {
    var (slots, bytes) := Insert(s.slots, s.bytes, key, entry);
    s.(slots := slots, bytes := bytes)
  }

  predicate MayBeStale(cached: Option<Entry>, stat: Stat, allow: bool) {
    allow && stat.size >= STALE_MIN_BYTES && cached.Some? && cached.value.stat.identity == stat.identity
  }

  /** `fs.stat` has answered. */
  function Load(s: State, key: Key, stat: Stat, allow: bool): (State, Answer) {
    var cached := Find(s.slots, key);
    if cached.Some? && cached.value.stat == stat then
      (s.(slots := Appended(s.slots, key, cached.value)), Cached(cached.value.conversation))
    else if key in s.inFlight && (s.inFlight[key].fingerprint == stat || MayBeStale(cached, stat, allow)) then
      (s, if MayBeStale(cached, stat, allow) then Stale(cached.value.conversation) else Waits(s.inFlight[key].generation))
    else
      var generation := s.generation + 1;
      (s.(generation := generation, inFlight := s.inFlight[key := Pending(stat, generation)],
          parses := s.parses[generation := Parse(key, stat, cached.Some?)]),
       if MayBeStale(cached, stat, allow) then Stale(cached.value.conversation) else Waits(generation))
  }

  function Landed(s: State, generation: nat, key: Key): State {
    var left := s.(parses := s.parses - {generation});
    if key in s.inFlight && s.inFlight[key].generation == generation then left.(inFlight := s.inFlight - {key}) else left
  }

  function ParseDone(s: State, generation: nat, conversation: string): State {
    if generation !in s.parses then s
    else
      var parse := s.parses[generation];
      var cached := Find(s.slots, parse.key);
      var stored := if cached.None? || cached.value.generation < generation
                    then InsertEntry(s, parse.key, Entry(conversation, parse.stat, generation)) else s;
      Landed(stored, generation, parse.key)
  }

  function ParseFailed(s: State, generation: nat): State {
    if generation !in s.parses then s
    else
      var parse := s.parses[generation];
      var current := parse.key in s.inFlight && s.inFlight[parse.key].generation == generation;
      Landed(if current && !parse.hadCached then DeleteEntry(s, parse.key) else s, generation, parse.key)
  }

  datatype Event = Loads(key: Key, stat: Stat, allow: bool) | StatFails(key: Key) | Parsed(generation: nat, conversation: string)
                 | ParseFails(generation: nat)

  function Next(s: State, e: Event): State {
    match e
    case Loads(key, stat, allow) => Load(s, key, stat, allow).0
    case StatFails(key) => DeleteEntry(s, key)
    case Parsed(generation, conversation) => ParseDone(s, generation, conversation)
    case ParseFails(generation) => ParseFailed(s, generation)
  }

  function Execute(s: State, events: seq<Event>): State
    decreases |events|
  {
    if events == [] then s else Execute(Next(s, events[0]), events[1..])
  }

  const EMPTY := State([], 0, map[], 0, map[])

  // ---------- what every run keeps ----------

  /** Distinct keys, and a byte counter that is the sum of the cached sizes and over the cap only for a single entry. */
  ghost predicate CacheOk(s: State) {
    Distinct(s.slots) && s.bytes == Bytes(s.slots) && (s.bytes <= MAX_BYTES || |s.slots| == 1)
  }

  predicate SlotOk(s: State, slot: Slot) {
    slot.entry.generation <= s.generation && slot.entry.generation !in s.parses
  }

  /** No generation is from the future, and none is both cached and still being parsed. */
  ghost predicate GenerationsOk(s: State) {
    (forall slot :: slot in s.slots ==> SlotOk(s, slot)) && (forall g :: g in s.parses ==> g <= s.generation)
  }

  ghost predicate Inv(s: State) {
    CacheOk(s) && GenerationsOk(s)
  }

  lemma RefreshKeeps(s: State, key: Key)
    requires Inv(s) && Find(s.slots, key).Some?
    ensures Inv(s.(slots := Appended(s.slots, key, Find(s.slots, key).value)))
  {
    FindIff(s.slots, key);
    AppendedIs(s.slots, key, Find(s.slots, key).value);
    WithoutShrinks(s.slots, key);
  }

  lemma {:induction false} WithoutShrinks(slots: seq<Slot>, key: Key)
    ensures |Without(slots, key)| <= |slots|
    ensures Find(slots, key).Some? ==> |Without(slots, key)| < |slots|
  {
    if slots != [] {
      WithoutShrinks(slots[..|slots| - 1], key);
    }
  }

  lemma DeleteKeeps(s: State, key: Key)
    requires Inv(s)
    ensures Inv(DeleteEntry(s, key))
  {
    WithoutIs(s.slots, key);
    WithoutShrinks(s.slots, key);
  }

  lemma LoadKeeps(s: State, key: Key, stat: Stat, allow: bool)
    requires Inv(s)
    ensures Inv(Load(s, key, stat, allow).0)
  {
    var t := Load(s, key, stat, allow).0;
    if Find(s.slots, key).Some? && Find(s.slots, key).value.stat == stat {
      RefreshKeeps(s, key);
    } else {
      assert t.slots == s.slots && t.bytes == s.bytes;
      forall slot | slot in t.slots ensures SlotOk(t, slot) {
        assert SlotOk(s, slot);
      }
    }
  }

  lemma InsertEntryOk(s: State, key: Key, entry: Entry)
    requires CacheOk(s)
    ensures CacheOk(InsertEntry(s, key, entry))
  {
    var _ := InsertBoundsTheTotal(s.slots, key, entry);
  }

  lemma SlotsAfterInsert(s: State, key: Key, entry: Entry, slot: Slot)
    requires CacheOk(s) && slot in InsertEntry(s, key, entry).slots
    ensures slot == Slot(key, entry) || slot in s.slots
  {
    InsertLeaves(s.slots, key, entry, slot);
  }

  lemma StoreKeeps(s: State, generation: nat, conversation: string)
    requires Inv(s) && generation in s.parses
    ensures Inv(ParseDone(s, generation, conversation))
  {
    var t := ParseDone(s, generation, conversation);
    var key, entry := s.parses[generation].key, Entry(conversation, s.parses[generation].stat, generation);
    InsertEntryOk(s, key, entry);
    assert CacheOk(t) by {
      assert (t.slots == s.slots && t.bytes == s.bytes)
             || (t.slots == InsertEntry(s, key, entry).slots && t.bytes == InsertEntry(s, key, entry).bytes);
    }
    forall slot | slot in t.slots ensures SlotOk(t, slot) {
      if slot !in s.slots {
        SlotsAfterInsert(s, key, entry, slot);
      } else {
        assert SlotOk(s, slot);
      }
    }
  }

  lemma StepKeepsInv(s: State, e: Event)
    requires Inv(s)
    ensures Inv(Next(s, e))
  {
    match e
    case Loads(key, stat, allow) => LoadKeeps(s, key, stat, allow);
    case StatFails(key) => DeleteKeeps(s, key);
    case Parsed(generation, conversation) => if generation in s.parses { StoreKeeps(s, generation, conversation); }
    case ParseFails(generation) => if generation in s.parses { DeleteKeeps(s, s.parses[generation].key); }
  }

  lemma {:induction false} RunKeepsInv(s: State, events: seq<Event>)
    requires Inv(s)
    ensures Inv(Execute(s, events))
    decreases |events|
  {
    if events != [] {
      StepKeepsInv(s, events[0]);
      RunKeepsInv(Next(s, events[0]), events[1..]);
    }
  }

  /** However loads, parses and failures follow one another from the empty cache on: the counter is the sum of the cached
      sizes and within the cap, unless one entry alone exceeds it; no key is cached twice. */
  lemma CounterIsExact(events: seq<Event>)
    ensures var s := Execute(EMPTY, events);
      && s.bytes == Bytes(s.slots)
      && (s.bytes <= 64 * 1024 * 1024 || |s.slots| == 1)
      && (forall i, j :: 0 <= i < j < |s.slots| ==> s.slots[i].key != s.slots[j].key)
  {
    RunKeepsInv(EMPTY, events);
  }

  // ---------- generations ----------

  lemma {:induction false} FindUnique(slots: seq<Slot>, slot: Slot)
    requires Distinct(slots) && slot in slots
    ensures Find(slots, slot.key) == Some(slot.entry)
  {
    var init := slots[..|slots| - 1];
    if slots[|slots| - 1] != slot {
      assert slots == init + [slots[|slots| - 1]];
      var i :| 0 <= i < |slots| && slots[i] == slot;
      FindUnique(init, slot);
    }
  }

  /** A key that stays cached never goes back to an older parse, whatever order the parses finish in. */
  lemma GenerationNeverGoesBack(s: State, e: Event, key: Key)
    requires Inv(s) && Find(s.slots, key).Some? && Find(Next(s, e).slots, key).Some?
    ensures var before, after := Find(s.slots, key).value, Find(Next(s, e).slots, key).value;
      after == before || after.generation > before.generation
  {
    var t := Next(s, e);
    var after := Slot(key, Find(t.slots, key).value);
    FindIff(t.slots, key);
    if after in s.slots {
      FindUnique(s.slots, after);
    } else {
      match e
      case Loads(k, stat, allow) =>
        RefreshAddsNothing(s, k, after);
      case Parsed(generation, conversation) =>
        InsertLeaves(s.slots, s.parses[generation].key, Entry(conversation, s.parses[generation].stat, generation), after);
      case StatFails(k) => WithoutIs(s.slots, k);
      case ParseFails(generation) => if generation in s.parses { WithoutIs(s.slots, s.parses[generation].key); }
    }
  }

  lemma RefreshAddsNothing(s: State, key: Key, slot: Slot)
    requires Inv(s) && Find(s.slots, key).Some?
    ensures slot in Appended(s.slots, key, Find(s.slots, key).value) ==> slot in s.slots
  {
    FindIff(s.slots, key);
    WithoutIs(s.slots, key);
  }

  predicate StaysCached(s: State, events: seq<Event>, key: Key)
    decreases |events|
  {
    Find(s.slots, key).Some? && (events == [] || StaysCached(Next(s, events[0]), events[1..], key))
  }

  lemma {:induction false} GenerationsRiseFrom(s: State, events: seq<Event>, key: Key)
    requires Inv(s) && StaysCached(s, events, key)
    ensures Find(Execute(s, events).slots, key).Some?
    ensures Find(Execute(s, events).slots, key).value.generation >= Find(s.slots, key).value.generation
    decreases |events|
  {
    if events != [] {
      StepKeepsInv(s, events[0]);
      GenerationNeverGoesBack(s, events[0], key);
      GenerationsRiseFrom(Next(s, events[0]), events[1..], key);
    }
  }

  /** From any point of any run on, the entry of a key that stays cached never goes back to an older parse. */
  lemma GenerationsRise(before: seq<Event>, events: seq<Event>, key: Key)
    requires StaysCached(Execute(EMPTY, before), events, key)
    ensures var s := Execute(EMPTY, before); var t := Execute(s, events);
      Find(t.slots, key).Some? && Find(t.slots, key).value.generation >= Find(s.slots, key).value.generation
  {
    RunKeepsInv(EMPTY, before);
    GenerationsRiseFrom(Execute(EMPTY, before), events, key);
  }
}

/** The module-level map, counters and background parses, changed in place. */
module TranscriptCacheStore {
  import opened Common
  import T = TranscriptCache

  class TranscriptCache {
    var slots: seq<T.Slot>
    var bytes: int
    var inFlight: map<T.Key, T.Pending>
    var generation: nat
    var parses: map<nat, T.Parse>

    function State(): T.State
      reads this
    {
      T.State(slots, bytes, inFlight, generation, parses)
    }

    ghost predicate Valid()
      reads this
    {
      T.Inv(State())
    }

    constructor ()
      ensures State() == T.EMPTY && Valid()
    {
      slots, bytes, inFlight, generation, parses := [], 0, map[], 0, map[];
    }

    method RefreshCacheRecency(key: T.Key, entry: T.Entry)
      modifies this`slots
      ensures slots == T.Appended(old(slots), key, entry)
    {
      slots := T.Without(slots, key);
      slots := slots + [T.Slot(key, entry)];
    }

    method InsertCacheEntry(key: T.Key, entry: T.Entry)
      modifies this`slots, this`bytes
      ensures State() == T.InsertEntry(old(State()), key, entry)
    {
      var previous := T.Find(slots, key);
      if previous.Some? {
        bytes := bytes - previous.value.stat.size;
      }
      slots := T.Without(slots, key) + [T.Slot(key, entry)];
      bytes := bytes + entry.stat.size;
      while slots != [] && bytes > T.MAX_BYTES && slots[0].key != key
        invariant T.Evict(slots, bytes, key) == T.Insert(old(slots), old(bytes), key, entry)
        decreases |slots|
      {
        bytes := bytes - slots[0].entry.stat.size;
        slots := slots[1..];
      }
    }

    method DeleteCacheEntry(key: T.Key)
      modifies this`slots, this`bytes
      ensures State() == T.DeleteEntry(old(State()), key)
    {
      var existing := T.Find(slots, key);
      if existing.Some? {
        bytes := bytes - existing.value.stat.size;
        slots := T.Without(slots, key);
      }
    }

    /** `loadProviderConversationFromSummary` once `fs.stat` has answered. */
    method Load(key: T.Key, stat: T.Stat, allow: bool) returns (answer: T.Answer)
      modifies this`slots, this`generation, this`inFlight, this`parses
      ensures (State(), answer) == T.Load(old(State()), key, stat, allow)
    {
      var cached := T.Find(slots, key);
      if cached.Some? && cached.value.stat == stat {
        RefreshCacheRecency(key, cached.value);
        return T.Cached(cached.value.conversation);
      }
      var stale := T.MayBeStale(cached, stat, allow);
      if key in inFlight && (inFlight[key].fingerprint == stat || stale) {
        return if stale then T.Stale(cached.value.conversation) else T.Waits(inFlight[key].generation);
      }
      generation := generation + 1;
      parses := parses[generation := T.Parse(key, stat, cached.Some?)];
      inFlight := inFlight[key := T.Pending(stat, generation)];
      return if stale then T.Stale(cached.value.conversation) else T.Waits(generation);
    }

    method Land(parsed: nat, key: T.Key)
      modifies this`inFlight, this`parses
      ensures State() == T.Landed(old(State()), parsed, key)
    {
      parses := parses - {parsed};
      if key in inFlight && inFlight[key].generation == parsed {
        inFlight := inFlight - {key};
      }
    }

    method ParseDone(parsed: nat, conversation: string)
      modifies this`slots, this`bytes, this`inFlight, this`parses
      ensures State() == T.ParseDone(old(State()), parsed, conversation)
    {
      if parsed !in parses {
        return;
      }
      var parse := parses[parsed];
      var cached := T.Find(slots, parse.key);
      if cached.None? || cached.value.generation < parsed {
        InsertCacheEntry(parse.key, T.Entry(conversation, parse.stat, parsed));
      }
      Land(parsed, parse.key);
    }

    method ParseFailed(parsed: nat)
      modifies this`slots, this`bytes, this`inFlight, this`parses
      ensures State() == T.ParseFailed(old(State()), parsed)
    {
      if parsed !in parses {
        return;
      }
      var parse := parses[parsed];
      if parse.key in inFlight && inFlight[parse.key].generation == parsed && !parse.hadCached {
        DeleteCacheEntry(parse.key);
      }
      Land(parsed, parse.key);
    }

    // ---------- runs ----------

    method Handle(e: T.Event)
      requires Valid()
      modifies this
      ensures State() == T.Next(old(State()), e) && Valid()
    {
      T.StepKeepsInv(State(), e);
      match e
      case Loads(key, stat, allow) => var _ := Load(key, stat, allow);
      case StatFails(key) => DeleteCacheEntry(key);
      case Parsed(parsed, conversation) => ParseDone(parsed, conversation);
      case ParseFails(parsed) => ParseFailed(parsed);
    }

    /** Any sequence of calls leaves the object in the state of the run, so that what holds of every run holds of the object. */
    method HandleAll(calls: seq<T.Event>)
      requires Valid()
      modifies this
      ensures State() == T.Execute(old(State()), calls) && Valid()
      ensures bytes <= T.MAX_BYTES || |slots| == 1
    {
      for i := 0 to |calls|
        invariant Valid() && T.Execute(State(), calls[i..]) == T.Execute(old(State()), calls)
      {
        assert calls[i..][1..] == calls[i + 1..] && calls[i..][0] == calls[i];
        Handle(calls[i]);
      }
    }
  }
}
