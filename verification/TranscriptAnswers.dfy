/** What a load of a transcript is answered with: always the outcome of a parse of that transcript, and a current one unless the
    caller allowed a stale one. */
module TranscriptAnswers {
  import opened Common
  import opened TranscriptCache

  /** A parse that finished: what it read, its number, and the conversation it found. */
  datatype Finish = Finish(key: Key, stat: Stat, generation: nat, conversation: string)

  function Finished(s: State, e: Event): set<Finish> {
    if e.Parsed? && e.generation in s.parses
    then {Finish(s.parses[e.generation].key, s.parses[e.generation].stat, e.generation, e.conversation)}
    else {}
  }

  function FinishedIn(s: State, events: seq<Event>): set<Finish>
    decreases |events|
  {
    if events == [] then {} else Finished(s, events[0]) + FinishedIn(Next(s, events[0]), events[1..])
  }

  // ---------- what every run keeps ----------

  predicate ComesFrom(slot: Slot, finished: set<Finish>) {
    Finish(slot.key, slot.entry.stat, slot.entry.generation, slot.entry.conversation) in finished
  }

  ghost predicate AllCome(s: State, finished: set<Finish>) {
    forall slot :: slot in s.slots ==> ComesFrom(slot, finished)
  }

  /** The parse that a key waits for is under way, is of that key, and read the file it is remembered for. */
  predicate PendingOk(s: State, key: Key)
    requires key in s.inFlight
  {
    && s.inFlight[key].generation in s.parses && s.parses[s.inFlight[key].generation].key == key
    && s.parses[s.inFlight[key].generation].stat == s.inFlight[key].fingerprint
  }

  ghost predicate AllPendingOk(s: State) {
    forall key :: key in s.inFlight ==> PendingOk(s, key)
  }

  lemma DeletedSlots(s: State, key: Key, slot: Slot)
    requires Inv(s)
    ensures slot in DeleteEntry(s, key).slots ==> slot in s.slots
  {
    WithoutIs(s.slots, key);
  }

  lemma LoadedSlots(s: State, key: Key, stat: Stat, allow: bool, slot: Slot)
    requires Inv(s) && slot in Load(s, key, stat, allow).0.slots
    ensures slot in s.slots
  {
    if Find(s.slots, key).Some? {
      RefreshAddsNothing(s, key, slot);
    }
  }

  lemma StepKeepsOrigin(s: State, e: Event, finished: set<Finish>)
    requires Inv(s) && AllCome(s, finished)
    ensures AllCome(Next(s, e), finished + Finished(s, e))
  {
    forall slot | slot in Next(s, e).slots ensures ComesFrom(slot, finished + Finished(s, e)) {
      match e
      case Loads(key, stat, allow) => LoadedSlots(s, key, stat, allow, slot);
      case StatFails(key) => DeletedSlots(s, key, slot);
      case Parsed(generation, conversation) =>
        if generation in s.parses && slot !in s.slots {
          InsertLeaves(s.slots, s.parses[generation].key, Entry(conversation, s.parses[generation].stat, generation), slot);
        }
      case ParseFails(generation) => if generation in s.parses { DeletedSlots(s, s.parses[generation].key, slot); }
    }
  }

  lemma StepKeepsPending(s: State, e: Event)
    requires Inv(s) && AllPendingOk(s)
    ensures AllPendingOk(Next(s, e))
  {
    forall key | key in Next(s, e).inFlight ensures PendingOk(Next(s, e), key) {
      assert key in s.inFlight ==> PendingOk(s, key);
    }
  }

  lemma {:induction false} RunKeepsOrigin(s: State, events: seq<Event>, finished: set<Finish>)
    requires Inv(s) && AllCome(s, finished) && AllPendingOk(s)
    ensures Inv(Execute(s, events)) && AllPendingOk(Execute(s, events))
    ensures AllCome(Execute(s, events), finished + FinishedIn(s, events))
    decreases |events|
  {
    if events != [] {
      StepKeepsInv(s, events[0]);
      StepKeepsOrigin(s, events[0], finished);
      StepKeepsPending(s, events[0]);
      RunKeepsOrigin(Next(s, events[0]), events[1..], finished + Finished(s, events[0]));
      assert finished + Finished(s, events[0]) + FinishedIn(Next(s, events[0]), events[1..]) == finished + FinishedIn(s, events);
    } else {
      assert finished + FinishedIn(s, events) == finished;
    }
  }

  // ---------- the answers ----------

  /** In any run: a load answered from the cache gets what a parse of exactly this file, as it is now, found. A stale answer is
      given only to a caller that allows it, for a file of at least 8 MB, and is what a parse of the same file found earlier.
      Otherwise the caller waits for a parse under way that read the file as it is now. */
  lemma AnswersBelongToTheFile(events: seq<Event>, key: Key, stat: Stat, allow: bool)
    ensures var s := Execute(EMPTY, events);
      var (t, answer) := Load(s, key, stat, allow);
      match answer
      case Cached(c) => exists g :: Finish(key, stat, g, c) in FinishedIn(EMPTY, events)
      case Stale(c) =>
        && allow && stat.size >= 8 * 1024 * 1024
        && exists seen, g :: Finish(key, seen, g, c) in FinishedIn(EMPTY, events) && seen.identity == stat.identity
      case Waits(g) => g in t.parses && t.parses[g].key == key && t.parses[g].stat == stat
  {
    var s := Execute(EMPTY, events);
    RunKeepsOrigin(EMPTY, events, {});
    assert {} + FinishedIn(EMPTY, events) == FinishedIn(EMPTY, events);
    FindIff(s.slots, key);
    if Find(s.slots, key).Some? {
      var entry := Find(s.slots, key).value;
      assert ComesFrom(Slot(key, entry), FinishedIn(EMPTY, events));
      assert Finish(key, entry.stat, entry.generation, entry.conversation) in FinishedIn(EMPTY, events);
    }
    assert key in s.inFlight ==> PendingOk(s, key);
  }

  /** A load is answered from the cache exactly when the file is as it was when it was parsed. It makes the entry the youngest,
      and otherwise changes nothing. */
  lemma HitIff(s: State, key: Key, stat: Stat, allow: bool)
    ensures var (t, answer) := Load(s, key, stat, allow);
      && (answer.Cached? <==> Find(s.slots, key).Some? && Find(s.slots, key).value.stat == stat)
      && (answer.Cached? ==> && t == s.(slots := t.slots) && t.slots != []
                             && t.slots[|t.slots| - 1] == Slot(key, Find(s.slots, key).value)
                             && t.slots[..|t.slots| - 1] == Without(s.slots, key))
  {
  }

  /** A stale conversation is given exactly when the caller allows it, the file has at least 8 MB, and what is cached was read from
      the same file as it was before. */
  lemma StaleIff(s: State, key: Key, stat: Stat, allow: bool)
    ensures Load(s, key, stat, allow).1.Stale?
            <==> && allow && stat.size >= 8 * 1024 * 1024 && Find(s.slots, key).Some?
                 && Find(s.slots, key).value.stat.identity == stat.identity && Find(s.slots, key).value.stat != stat
  {
  }

  /** A parse that finishes is what the next load of the unchanged file is answered with, unless a later parse is cached. */
  lemma ParsedIsAnswered(events: seq<Event>, generation: nat, conversation: string, allow: bool)
    requires var s := Execute(EMPTY, events);
      && generation in s.parses
      && (Find(s.slots, s.parses[generation].key).Some? ==> Find(s.slots, s.parses[generation].key).value.generation < generation)
    ensures var s := Execute(EMPTY, events);
      var parse, t := s.parses[generation], Next(s, Parsed(generation, conversation));
      Load(t, parse.key, parse.stat, allow).1 == Cached(conversation)
  {
    var s := Execute(EMPTY, events);
    RunKeepsInv(EMPTY, events);
    StepKeepsInv(s, Parsed(generation, conversation));
    var parse := s.parses[generation];
    var entry := Entry(conversation, parse.stat, generation);
    InsertedIsFound(s.slots, s.bytes, parse.key, entry);
  }

  lemma InsertedIsFound(slots: seq<Slot>, bytes: int, key: Key, entry: Entry)
    ensures Find(Insert(slots, bytes, key, entry).0, key) == Some(entry)
  {
    EvictKeepsTheLast(Appended(slots, key, entry), bytes - SizeOf(Find(slots, key)) + entry.stat.size, key);
  }

  lemma {:induction false} EvictKeepsTheLast(slots: seq<Slot>, bytes: int, key: Key)
    requires slots != [] && slots[|slots| - 1].key == key
    ensures var kept := Evict(slots, bytes, key).0; kept != [] && kept[|kept| - 1] == slots[|slots| - 1]
    decreases |slots|
  {
    if bytes > MAX_BYTES && slots[0].key != key {
      EvictKeepsTheLast(slots[1..], bytes - slots[0].entry.stat.size, key);
    }
  }

  /** A load that nothing can answer starts a parse of the file as it is; loads of other keys are left alone. */
  lemma ParseIsStarted(s: State, key: Key, stat: Stat, allow: bool)
    requires !Load(s, key, stat, allow).1.Cached? && !(key in s.inFlight && s.inFlight[key].fingerprint == stat)
    requires !(key in s.inFlight && Load(s, key, stat, allow).1.Stale?)
    ensures var t := Load(s, key, stat, allow).0;
      && t.generation == s.generation + 1 && t.generation in t.parses
      && t.parses[t.generation].key == key && t.parses[t.generation].stat == stat
      && t.slots == s.slots
      && (forall other :: other != key ==> (other in t.inFlight <==> other in s.inFlight)
                                           && (other in s.inFlight ==> t.inFlight[other] == s.inFlight[other]))
  {
  }

  // ---------- failures ----------

  lemma {:induction false} FindWithout(slots: seq<Slot>, key: Key, other: Key)
    ensures Find(Without(slots, key), other) == if other == key then None else Find(slots, other)
  {
    if slots != [] {
      FindWithout(slots[..|slots| - 1], key, other);
      var rest, last := Without(slots[..|slots| - 1], key), slots[|slots| - 1];
      assert (rest + [last])[..|rest + [last]| - 1] == rest;
    }
  }

  /** A parse that fails is over. It takes away the entry of its key only if it is the one the key waits for and there was no
      entry when it began; a file that cannot be looked up loses its entry. Every other entry stays. */
  lemma FailuresDropOnly(s: State, generation: nat, other: Key)
    requires generation in s.parses
    ensures var parse, t := s.parses[generation], Next(s, ParseFails(generation));
      var awaited := parse.key in s.inFlight && s.inFlight[parse.key].generation == generation;
      && generation !in t.parses && (awaited ==> parse.key !in t.inFlight)
      && Find(t.slots, other) == if other == parse.key && awaited && !parse.hadCached then None else Find(s.slots, other)
    ensures forall key :: Find(Next(s, StatFails(key)).slots, other) == if other == key then None else Find(s.slots, other)
  {
    FindWithout(s.slots, s.parses[generation].key, other);
    forall key ensures Find(Next(s, StatFails(key)).slots, other) == if other == key then None else Find(s.slots, other) {
      FindWithout(s.slots, key, other);
    }
  }
}
