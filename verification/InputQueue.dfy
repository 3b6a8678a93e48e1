/**
 The delivery journal of one session (apps/server/src/sessions/input-queue.ts): a record per submission ID and the list of the
 IDs still pending. Every database key carries the session ID, so sessions do not meet.
 */
module InputQueue {
  import opened Common

  type Id = string

  datatype State = Queued | Submitting | Submitted | Failed | Cancelled
  /** `body` stands for the text, times, reason and provider turn, which the journal only stores. */
  datatype Record = Record(id: Id, state: State, body: string)
  datatype Journal = Journal(records: map<Id, Record>, pending: seq<Id>)

  predicate IsPending(record: Record) {
    record.state != Submitted && record.state != Cancelled
  }

  predicate Abandoned(j: Journal, id: Id) {
    id in j.records && j.records[id].state == Cancelled
  }

  function Drop(ids: seq<Id>, id: Id): seq<Id> {
    if ids == [] then []
    else
      var rest := Drop(ids[..|ids| - 1], id);
      if ids[|ids| - 1] == id then rest else rest + [ids[|ids| - 1]]
  }

  function Put(j: Journal, record: Record): Journal {
    if Abandoned(j, record.id) then j
    else
      var ids := if IsPending(record) then j.pending else Drop(j.pending, record.id);
      var listed := if IsPending(record) && record.id !in ids then ids + [record.id] else ids;
      Journal(j.records[record.id := record], listed)
  }

  const EMPTY := Journal(map[], [])

  function Run(puts: seq<Record>): Journal {
    if puts == [] then EMPTY else Put(Run(puts[..|puts| - 1]), puts[|puts| - 1])
  }

  // ---------- what the list means ----------

  /** The put that last turned this submission from not pending to pending, if it is still pending. */
  function PendingSince(puts: seq<Record>, id: Id): Option<nat> {
    if puts == [] then None
    else
      var earlier, last := puts[..|puts| - 1], puts[|puts| - 1];
      if last.id != id || Abandoned(Run(earlier), id) then PendingSince(earlier, id)
      else if !IsPending(last) then None
      else if PendingSince(earlier, id).Some? then PendingSince(earlier, id)
      else Some(|earlier|)
  }

  function SinceOf(puts: seq<Record>, id: Id): int {
    if PendingSince(puts, id).Some? then PendingSince(puts, id).value else -1
  }

  lemma {:induction false} SinceIsPast(puts: seq<Record>, id: Id)
    ensures SinceOf(puts, id) < |puts|
  {
    if puts != [] {
      SinceIsPast(puts[..|puts| - 1], id);
    }
  }

  lemma {:induction false} DropIs(ids: seq<Id>, id: Id)
    ensures forall x :: x in Drop(ids, id) <==> x in ids && x != id
  {
    if ids != [] {
      assert ids == ids[..|ids| - 1] + [ids[|ids| - 1]];
      DropIs(ids[..|ids| - 1], id);
    }
  }

  predicate Before(puts: seq<Record>, a: Id, b: Id) {
    SinceOf(puts, a) < SinceOf(puts, b)
  }

  /** The list is in the order of these times, strictly, so without duplicates. */
  ghost predicate InOrder(ids: seq<Id>, puts: seq<Record>) {
    forall i, j :: 0 <= i < j < |ids| ==> Before(puts, ids[i], ids[j])
  }

  lemma {:induction false} DropKeepsOrder(ids: seq<Id>, id: Id, puts: seq<Record>)
    requires InOrder(ids, puts)
    ensures InOrder(Drop(ids, id), puts)
  {
    if ids != [] {
      var init, last := ids[..|ids| - 1], ids[|ids| - 1];
      DropKeepsOrder(init, id, puts);
      DropIs(init, id);
      var rest := Drop(init, id);
      forall i | 0 <= i < |rest| ensures Before(puts, rest[i], last) {
        assert rest[i] in init;
      }
    }
  }

  ghost predicate Listed(j: Journal, puts: seq<Record>) {
    && (forall id :: id in j.pending <==> id in j.records && IsPending(j.records[id]))
    && (forall id :: id in j.pending <==> PendingSince(puts, id).Some?)
    && (forall id :: id in j.records ==> j.records[id].id == id)
  }

  lemma PutLists(earlier: seq<Record>, last: Record)
    requires Listed(Run(earlier), earlier)
    ensures Listed(Run(earlier + [last]), earlier + [last])
  {
    assert (earlier + [last])[..|earlier|] == earlier;
    DropIs(Run(earlier).pending, last.id);
  }

  /** No rank changes but that of the submission just put, and a new entry ranks above all others. */
  lemma PutRanks(earlier: seq<Record>, last: Record, id: Id)
    requires Listed(Run(earlier), earlier) && PendingSince(earlier + [last], id).Some?
    ensures SinceOf(earlier + [last], id) == if id in Run(earlier).pending then SinceOf(earlier, id) else |earlier|
  {
    assert (earlier + [last])[..|earlier|] == earlier;
  }

  /** The list before the submission just put is appended, if it is. */
  function Kept(j: Journal, last: Record): seq<Id> {
    if Abandoned(j, last.id) || IsPending(last) then j.pending else Drop(j.pending, last.id)
  }

  lemma KeptRanks(earlier: seq<Record>, last: Record, id: Id)
    requires Listed(Run(earlier), earlier) && id in Kept(Run(earlier), last)
    ensures SinceOf(earlier + [last], id) == SinceOf(earlier, id) < |earlier|
  {
    PutLists(earlier, last);
    DropIs(Run(earlier).pending, last.id);
    assert (earlier + [last])[..|earlier|] == earlier;
    PutRanks(earlier, last, id);
    SinceIsPast(earlier, id);
  }

  lemma AppendedRanks(earlier: seq<Record>, last: Record)
    requires Listed(Run(earlier), earlier)
    ensures var ids, kept := Run(earlier + [last]).pending, Kept(Run(earlier), last);
      ids == kept || (ids == kept + [last.id] && SinceOf(earlier + [last], last.id) == |earlier|)
  {
    PutLists(earlier, last);
    assert (earlier + [last])[..|earlier|] == earlier;
    if Run(earlier + [last]).pending != Kept(Run(earlier), last) {
      PutRanks(earlier, last, last.id);
    }
  }

  lemma OrderCarries(kept: seq<Id>, ids: seq<Id>, id: Id, p: seq<Record>, q: seq<Record>)
    requires InOrder(kept, p) && forall x :: x in kept ==> SinceOf(p, x) == SinceOf(q, x) < |p|
    requires ids == kept || (ids == kept + [id] && SinceOf(q, id) == |p|)
    ensures InOrder(ids, q)
  {
  }

  lemma PutKeepsOrder(earlier: seq<Record>, last: Record)
    requires Listed(Run(earlier), earlier) && InOrder(Run(earlier).pending, earlier)
    ensures InOrder(Run(earlier + [last]).pending, earlier + [last])
  {
    var kept := Kept(Run(earlier), last);
    DropKeepsOrder(Run(earlier).pending, last.id, earlier);
    forall id | id in kept ensures SinceOf(earlier, id) == SinceOf(earlier + [last], id) < |earlier| {
      KeptRanks(earlier, last, id);
    }
    AppendedRanks(earlier, last);
    OrderCarries(kept, Run(earlier + [last]).pending, last.id, earlier, earlier + [last]);
  }

  /** After any sequence of puts the list holds, without duplicates and in the order they last became pending, exactly the
      submissions whose record is neither submitted nor cancelled. */
  lemma {:induction false} ListIsExact(puts: seq<Record>)
    ensures Listed(Run(puts), puts) && InOrder(Run(puts).pending, puts)
    ensures forall id :: id in Run(puts).pending
                         <==> id in Run(puts).records && Run(puts).records[id].state in {Queued, Submitting, Failed}
  {
    if puts != [] {
      var earlier, last := puts[..|puts| - 1], puts[|puts| - 1];
      assert puts == earlier + [last];
      ListIsExact(earlier);
      PutLists(earlier, last);
      PutKeepsOrder(earlier, last);
    }
  }

  /** An abandoned send is never revived: its record stays as it is for ever. */
  lemma {:induction false} CancelledIsFinal(before: seq<Record>, after: seq<Record>, id: Id)
    requires id in Run(before).records && Run(before).records[id].state == Cancelled
    ensures id in Run(before + after).records && Run(before + after).records[id] == Run(before).records[id]
    decreases |after|
  {
    if after == [] {
      assert before + after == before;
    } else {
      var all, init := before + after, after[..|after| - 1];
      assert all[..|all| - 1] == before + init && all[|all| - 1] == after[|after| - 1];
      CancelledIsFinal(before, init, id);
    }
  }

  /** Apart from puts on an abandoned send, a record is the last one put. */
  lemma RecordIsLastPut(puts: seq<Record>, record: Record)
    requires record.id in Run(puts).records ==> Run(puts).records[record.id].state != Cancelled
    ensures record.id in Run(puts + [record]).records && Run(puts + [record]).records[record.id] == record
    ensures forall id :: id != record.id ==> (id in Run(puts + [record]).records <==> id in Run(puts).records)
                                             && (id in Run(puts).records ==> Run(puts + [record]).records[id] == Run(puts).records[id])
  {
    assert (puts + [record])[..|puts|] == puts;
  }
}

/** The journal as the service keeps it. */
module InputQueueService {
  import J = InputQueue

  class InputQueue {
    var records: map<J.Id, J.Record>
    var pending: seq<J.Id>

    function Contents(): J.Journal
      reads this
    {
      J.Journal(records, pending)
    }

    constructor ()
      ensures Contents() == J.EMPTY
    {
      records, pending := map[], [];
    }

    method Put(record: J.Record)
      modifies this`records, this`pending
      ensures Contents() == J.Put(old(Contents()), record)
    {
      if record.id in records && records[record.id].state == J.Cancelled {
        return;
      }
      var ids := [];
      for i := 0 to |pending|
        invariant ids == if J.IsPending(record) then pending[..i] else J.Drop(pending[..i], record.id)
      {
        assert pending[..i + 1][..i] == pending[..i];
        if pending[i] != record.id || J.IsPending(record) {
          ids := ids + [pending[i]];
        }
      }
      assert pending[..|pending|] == pending;
      if J.IsPending(record) && record.id !in ids {
        ids := ids + [record.id];
      }
      records := records[record.id := record];
      pending := ids;
    }

    /** `list`: the records of the pending IDs, in order. */
    method List() returns (list: seq<J.Record>)
      requires forall id :: id in pending ==> id in records
      ensures |list| == |pending| && forall i :: 0 <= i < |list| ==> list[i] == records[pending[i]]
    {
      list := [];
      for i := 0 to |pending|
        invariant |list| == i && forall k :: 0 <= k < i ==> list[k] == records[pending[k]]
      {
        list := list + [records[pending[i]]];
      }
    }
  }
}
