/**
 The stream, its consumer group and the shared autoclaim cursor, under any interleaving of producers and workers.
 As for the records, an action that is not enabled changes nothing.
 */
module WorkQueue {
  import opened Wrappers
  import opened StreamId
  import opened Paging
  import Cursor

  datatype StreamEntry = StreamEntry(id: Id, responseId: Option<string>)

  /** Why an entry was acknowledged. */
  datatype Reason = ByRpc | RecordMissing | RecordCorrupt

  /** A claim request's own copy of the cursor, and how often the cursor had been reset when it was read. */
  datatype Reader = Reader(cursor: Id, cycle: nat)

  /**
   Everything ever added, of which the first `trimmed` entries are gone; the claimed entries in order of their
   identifiers; and the acknowledged ones. `cycle` and `examined` only record what happened to the cursor.
   */
  datatype Queue = Queue(
    maxlen: nat,
    added: seq<StreamEntry>,
    trimmed: nat,
    lastDelivered: Id,
    claimed: seq<Id>,
    settled: map<Id, Reason>,
    cursor: Option<Id>,
    cycle: nat,
    examined: set<Id>,
    readers: map<nat, Reader>)

  datatype Action =
    | Enqueue(id: Id, responseId: Option<string>, trim: nat)
    | ReadGroup(count: nat)
    | ReadCursor(request: nat)
    | Autoclaim(request: nat, count: nat, idle: set<Id>)
    | WriteCursor(request: nat)
    | Acknowledge(id: Id, reason: Reason)

  function Ids(entries: seq<StreamEntry>): (ids: seq<Id>)
    ensures |ids| == |entries| && forall i | 0 <= i < |ids| :: ids[i] == entries[i].id
  {
    seq(|entries|, i requires 0 <= i < |entries| => entries[i].id)
  }

  function Retained(q: Queue): seq<StreamEntry> {
    if q.trimmed <= |q.added| then q.added[q.trimmed..] else []
  }

  function LastAdded(q: Queue): Id {
    if q.added == [] then ZERO else q.added[|q.added| - 1].id
  }

  // ----- XREADGROUP ----------------------------------------------------------------------------

  /** The position of the first retained entry that was not delivered yet. */
  function FirstNew(q: Queue): (f: nat)
    requires q.trimmed <= |q.added|
    ensures q.trimmed <= f <= |q.added|
  {
    q.trimmed + Skipped(Ids(Retained(q)), Beyond(q.lastDelivered))
  }

  /** Where a delivery of at most `count` entries ends. */
  function EndNew(q: Queue, count: nat): (e: nat)
    requires q.trimmed <= |q.added|
    ensures FirstNew(q) <= e <= |q.added|
  {
    if FirstNew(q) + count <= |q.added| then FirstNew(q) + count else |q.added|
  }

  /** The retained entries not delivered yet, at most `count` of them, in order. */
  function Undelivered(q: Queue, count: nat): (entries: seq<StreamEntry>)
    requires q.trimmed <= |q.added|
    ensures |entries| <= count
  {
    q.added[FirstNew(q)..EndNew(q, count)]
  }

  function Deliver(q: Queue, count: nat): Queue
    requires q.trimmed <= |q.added|
  {
    var batch := Ids(Undelivered(q, count));
    if batch == [] then q
    else q.(claimed := q.claimed + batch, lastDelivered := batch[|batch| - 1])
  }

  // ----- XAUTOCLAIM ----------------------------------------------------------------------------

  datatype Scan = Scan(taken: seq<Id>, dropped: set<Id>, stop: nat)

  /**
   The scan over the claimed entries from position `k`: at most `attempts` of them are looked at; one that was
   trimmed from the stream is dropped, one that is idle is taken, and `count` bounds those two kinds together.
   */
  function ScanFrom(claimed: seq<Id>, k: nat, attempts: nat, count: nat, idle: set<Id>, stream: seq<Id>): (scan: Scan)
    requires k <= |claimed|
    ensures k <= scan.stop <= |claimed|
    ensures |scan.taken| <= count
    ensures forall x | x in scan.taken :: x in stream && x in claimed[k..scan.stop]
    ensures forall x | x in scan.dropped :: x !in stream && x in claimed
    decreases attempts
  {
    if attempts == 0 || count == 0 || k == |claimed| then Scan([], {}, k)
    else if claimed[k] !in stream then
      var rest := ScanFrom(claimed, k + 1, attempts - 1, count - 1, idle, stream);
      rest.(dropped := rest.dropped + {claimed[k]})
    else if claimed[k] !in idle then ScanFrom(claimed, k + 1, attempts - 1, count, idle, stream)
    else
      var rest := ScanFrom(claimed, k + 1, attempts - 1, count - 1, idle, stream);
      rest.(taken := [claimed[k]] + rest.taken)
  }

  function ScanAt(q: Queue, cursor: Id, count: nat, idle: set<Id>): Scan
    requires q.trimmed <= |q.added|
  {
    ScanFrom(q.claimed, Skipped(q.claimed, From(cursor)), 10 * count, count, idle, Ids(Retained(q)))
  }

  function Without(ids: seq<Id>, gone: set<Id>): (rest: seq<Id>)
    ensures forall x :: x in rest <==> x in ids && x !in gone
    ensures |rest| <= |ids|
  {
    if ids == [] then []
    else if ids[|ids| - 1] in gone then Without(ids[..|ids| - 1], gone)
    else Without(ids[..|ids| - 1], gone) + [ids[|ids| - 1]]
  }

  /** The cursor the scan hands back: the first entry it did not look at, or the start again. */
  function NextCursor(q: Queue, scan: Scan): Id {
    if scan.stop < |q.claimed| then q.claimed[scan.stop] else ZERO
  }

  function Rescue(q: Queue, request: nat, count: nat, idle: set<Id>): Queue
    requires q.trimmed <= |q.added| && request in q.readers
  {
    var reader := q.readers[request];
    var from := Skipped(q.claimed, From(reader.cursor));
    var scan := ScanAt(q, reader.cursor, count, idle);
    q.(claimed := Without(q.claimed, scan.dropped),
       examined := q.examined + (set x | x in q.claimed[from..scan.stop]),
       readers := q.readers[request := reader.(cursor := NextCursor(q, scan))])
  }

  // ----- XACK and the cursor key ---------------------------------------------------------------

  function Settle(q: Queue, id: Id, reason: Reason): Queue {
    if id in q.claimed then q.(claimed := Without(q.claimed, {id}), settled := q.settled[id := reason]) else q
  }

  function StoreCursor(q: Queue, request: nat): Queue
    requires request in q.readers
  {
    var cursor := q.readers[request].cursor;
    var q' := q.(cursor := Some(Cursor.Write(q.cursor, cursor)), readers := q.readers - {request});
    if cursor == ZERO then q'.(cycle := q.cycle + 1, examined := {}) else q'
  }

  // ----- The machine ---------------------------------------------------------------------------

  predicate Enabled(q: Queue, action: Action) {
    && q.trimmed <= |q.added|
    && match action
       case Enqueue(id, _, trim) =>
         && Less(LastAdded(q), id)
         && (trim == 0
             || (&& q.maxlen > 0
                 && q.trimmed + trim <= |q.added|
                 && |q.added| + 1 - (q.trimmed + trim) >= q.maxlen))
       case ReadCursor(request) => request !in q.readers
       case Autoclaim(request, count, _) => request in q.readers && count > 0
       case WriteCursor(request) => request in q.readers
       case _ => true
  }

  function Apply(q: Queue, action: Action): Queue {
    if !Enabled(q, action) then q
    else
      match action
      case Enqueue(id, responseId, trim) =>
        q.(added := q.added + [StreamEntry(id, responseId)], trimmed := q.trimmed + trim)
      case ReadGroup(count) => Deliver(q, count)
      case ReadCursor(request) =>
        q.(readers := q.readers[request := Reader(if q.cursor.Some? then q.cursor.value else ZERO, q.cycle)])
      case Autoclaim(request, count, idle) => Rescue(q, request, count, idle)
      case WriteCursor(request) => StoreCursor(q, request)
      case Acknowledge(id, reason) => Settle(q, id, reason)
  }

  function Run(q: Queue, actions: seq<Action>): Queue
    decreases |actions|
  {
    if actions == [] then q else Run(Apply(q, actions[0]), actions[1..])
  }

  // ----- What every run keeps ------------------------------------------------------------------

  ghost predicate Delivered(q: Queue, id: Id) {
    !Less(q.lastDelivered, id)
  }

  /** Every entry delivered and still in the stream is claimed or acknowledged. */
  ghost predicate Accounted(q: Queue)
    requires q.trimmed <= |q.added|
  {
    forall i | q.trimmed <= i < |q.added| && Delivered(q, q.added[i].id) ::
      q.added[i].id in q.claimed || q.added[i].id in q.settled
  }

  ghost predicate StreamOk(added: seq<StreamEntry>) {
    Sorted(Ids(added)) && forall i | 0 <= i < |added| :: added[i].id != ZERO
  }

  /** The claimed entries are in order, delivered from the stream, and not acknowledged. */
  ghost predicate ClaimedOk(q: Queue) {
    && Sorted(q.claimed)
    && forall x | x in q.claimed :: x in Ids(q.added) && Delivered(q, x) && x !in q.settled
  }

  ghost predicate SettledOk(q: Queue) {
    forall x | x in q.settled :: Delivered(q, x)
  }

  ghost predicate Inv(q: Queue) {
    && q.trimmed <= |q.added|
    && StreamOk(q.added)
    && !Less(LastAdded(q), q.lastDelivered)
    && ClaimedOk(q)
    && SettledOk(q)
    && Accounted(q)
  }

  lemma InvTrims(q: Queue)
    requires Inv(q)
    ensures q.trimmed <= |q.added|
  {
  }

  /** A stream of any contents, whose group was created at its very start. */
  ghost predicate Initial(q: Queue) {
    && q.trimmed <= |q.added|
    && Sorted(Ids(q.added))
    && (forall i | 0 <= i < |q.added| :: q.added[i].id != ZERO)
    && q.lastDelivered == ZERO
    && q.claimed == [] && q.settled == map[]
    && q.cursor == None && q.cycle == 0 && q.examined == {} && q.readers == map[]
  }

  lemma InitialInv(q: Queue)
    requires Initial(q)
    ensures Inv(q)
  {
    if q.added != [] {
      assert Ids(q.added)[|q.added| - 1] == LastAdded(q);
    }
  }

  lemma {:induction false} WithoutSorted(ids: seq<Id>, gone: set<Id>)
    requires Sorted(ids)
    ensures Sorted(Without(ids, gone))
  {
    if ids != [] {
      var front, last := ids[..|ids| - 1], ids[|ids| - 1];
      WithoutSorted(front, gone);
      forall x | x in Without(front, gone)
        ensures Less(x, last)
      {
        var i :| 0 <= i < |front| && front[i] == x;
        assert Less(ids[i], ids[|ids| - 1]);
      }
    }
  }

  lemma InIds(entries: seq<StreamEntry>, i: nat)
    requires i < |entries|
    ensures entries[i].id in Ids(entries)
  {
    assert Ids(entries)[i] == entries[i].id;
  }

  lemma EnqueueKeeps(q: Queue, id: Id, responseId: Option<string>, trim: nat)
    requires Inv(q) && Enabled(q, Enqueue(id, responseId, trim))
    ensures Inv(Apply(q, Enqueue(id, responseId, trim)))
  {
    var q' := Apply(q, Enqueue(id, responseId, trim));
    assert Ids(q'.added) == Ids(q.added) + [id];
    forall i | 0 <= i < |q.added|
      ensures Less(q.added[i].id, id)
    {
      assert Ids(q.added)[i] == q.added[i].id && Ids(q.added)[|q.added| - 1] == LastAdded(q);
    }
  }

  lemma AddedInOrder(q: Queue, i: nat, j: nat)
    requires Sorted(Ids(q.added)) && i < j < |q.added|
    ensures Less(q.added[i].id, q.added[j].id)
  {
    assert Less(Ids(q.added)[i], Ids(q.added)[j]);
  }

  /** XREADGROUP starts at the first retained entry above the last one delivered. */
  lemma FirstNewSplits(q: Queue)
    requires Inv(q)
    ensures forall i | q.trimmed <= i < |q.added| :: Less(q.lastDelivered, q.added[i].id) <==> FirstNew(q) <= i
  {
    var retained := Retained(q);
    SliceSorted(q, q.trimmed, |q.added|);
    assert retained == q.added[q.trimmed..|q.added|];
    forall i | q.trimmed <= i < |q.added|
      ensures Less(q.lastDelivered, q.added[i].id) <==> FirstNew(q) <= i
    {
      SkippedSplits(Ids(retained), Beyond(q.lastDelivered), i - q.trimmed);
    }
  }

  /** A group read hands out the first `count` retained entries above the last delivered one, all if there are fewer. */
  lemma ReadsExactly(q: Queue, count: nat) returns (lo: nat)
    requires Inv(q)
    ensures q.trimmed <= lo <= |q.added|
    ensures forall i | q.trimmed <= i < |q.added| :: Less(q.lastDelivered, q.added[i].id) <==> lo <= i
    ensures var hi, q' := if lo + count <= |q.added| then lo + count else |q.added|, Apply(q, ReadGroup(count));
            && Undelivered(q, count) == q.added[lo..hi]
            && q' == (if lo == hi then q
                      else q.(claimed := q.claimed + Ids(q.added[lo..hi]), lastDelivered := q.added[hi - 1].id))
  {
    hide Less, Sorted, StreamOk, ClaimedOk, SettledOk, Accounted;
    lo := FirstNew(q);
    FirstNewSplits(q);
  }

  /** A scan takes every idle entry and drops every trimmed one of the stretch it goes through, and no other. */
  lemma {:induction false} ScanTakes(
    claimed: seq<Id>, k: nat, attempts: nat, count: nat, idle: set<Id>, stream: seq<Id>, i: nat)
    requires Sorted(claimed) && k <= |claimed|
    requires k <= i < ScanFrom(claimed, k, attempts, count, idle, stream).stop
    ensures var scan := ScanFrom(claimed, k, attempts, count, idle, stream);
            && (claimed[i] in scan.taken <==> claimed[i] in stream && claimed[i] in idle)
            && (claimed[i] in scan.dropped <==> claimed[i] !in stream)
    decreases attempts
  {
    hide Sorted;
    var left := if claimed[k] in stream && claimed[k] !in idle then count else count - 1;
    if k < i {
      ScanTakes(claimed, k + 1, attempts - 1, left, idle, stream, i);
      FirstApart(claimed, k, i + 1);
    } else {
      var rest := ScanFrom(claimed, k + 1, attempts - 1, left, idle, stream);
      FirstApart(claimed, k, rest.stop);
      DroppedLater(claimed, k, attempts - 1, left, idle, stream);
    }
  }

  /** It goes on until it has looked at `attempts` entries, has `count` of the two kinds together, or is through. */
  lemma {:induction false} ScanStretch(
    claimed: seq<Id>, k: nat, attempts: nat, count: nat, idle: set<Id>, stream: seq<Id>)
    requires Sorted(claimed) && k <= |claimed|
    ensures var scan := ScanFrom(claimed, k, attempts, count, idle, stream);
            && scan.stop - k <= attempts && |scan.taken| + |scan.dropped| <= count
            && (scan.stop == |claimed| || scan.stop - k == attempts || |scan.taken| + |scan.dropped| == count)
    decreases attempts
  {
    hide Sorted, Less;
    if attempts != 0 && count != 0 && k < |claimed| {
      var left := if claimed[k] in stream && claimed[k] !in idle then count else count - 1;
      ScanStretch(claimed, k + 1, attempts - 1, left, idle, stream);
      DroppedLater(claimed, k, attempts - 1, left, idle, stream);
      var rest := ScanFrom(claimed, k + 1, attempts - 1, left, idle, stream);
      var scan := ScanFrom(claimed, k, attempts, count, idle, stream);
      assert |rest.dropped + {claimed[k]}| == |rest.dropped| + 1;
      assert scan.stop == rest.stop && |scan.taken| + |scan.dropped| == |rest.taken| + |rest.dropped| + (count - left);
    }
  }

  lemma {:induction false} DroppedInStretch(
    claimed: seq<Id>, k: nat, attempts: nat, count: nat, idle: set<Id>, stream: seq<Id>, x: Id)
    requires k <= |claimed| && x in ScanFrom(claimed, k, attempts, count, idle, stream).dropped
    ensures exists i :: k <= i < |claimed| && claimed[i] == x
    decreases attempts
  {
    if claimed[k] != x {
      var left := if claimed[k] in stream && claimed[k] !in idle then count else count - 1;
      DroppedInStretch(claimed, k + 1, attempts - 1, left, idle, stream, x);
    }
  }

  lemma DroppedLater(
    claimed: seq<Id>, k: nat, attempts: nat, count: nat, idle: set<Id>, stream: seq<Id>)
    requires Sorted(claimed) && k < |claimed|
    ensures claimed[k] !in ScanFrom(claimed, k + 1, attempts, count, idle, stream).dropped
  {
    FirstApart(claimed, k, |claimed|);
    if claimed[k] in ScanFrom(claimed, k + 1, attempts, count, idle, stream).dropped {
      DroppedInStretch(claimed, k + 1, attempts, count, idle, stream, claimed[k]);
    }
  }

  lemma FirstApart(ids: seq<Id>, k: nat, stop: nat)
    requires Sorted(ids) && k < stop <= |ids|
    ensures ids[k] !in ids[k + 1..stop] && forall i | k < i < stop :: ids[i] != ids[k]
  {
    forall i | k < i < stop
      ensures ids[i] != ids[k]
    {
      assert Less(ids[k], ids[i]);
    }
  }

  lemma SortedConcat(a: seq<Id>, b: seq<Id>)
    requires Sorted(a) && Sorted(b)
    requires forall x, y | x in a && y in b :: Less(x, y)
    ensures Sorted(a + b)
  {
    forall i, j | 0 <= i < j < |a + b|
      ensures Less((a + b)[i], (a + b)[j])
    {
      if i < |a| <= j {
        assert a[i] in a && b[j - |a|] in b;
      }
    }
  }

  lemma SliceSorted(q: Queue, lo: nat, hi: nat)
    requires StreamOk(q.added) && lo <= hi <= |q.added|
    ensures Sorted(Ids(q.added[lo..hi]))
  {
    forall i, j | 0 <= i < j < hi - lo
      ensures Less(Ids(q.added[lo..hi])[i], Ids(q.added[lo..hi])[j])
    {
      AddedInOrder(q, lo + i, lo + j);
    }
  }

  lemma DeliverKeeps(q: Queue, count: nat)
    requires Inv(q) && q.trimmed <= |q.added|
    ensures Inv(Deliver(q, count))
  {
    hide Less, Sorted, StreamOk, ClaimedOk, SettledOk, Accounted, FirstNew, EndNew;
    var lo, hi := FirstNew(q), EndNew(q, count);
    if lo < hi {
      FirstNewSplits(q);
      SliceSorted(q, lo, hi);
      SliceDelivered(q, Deliver(q, count), lo, hi);
    }
  }

  /** The next slice of the stream is delivered. */
  ghost predicate Delivers(q: Queue, q': Queue, lo: nat, hi: nat) {
    && q.trimmed <= lo < hi <= |q.added|
    && Sorted(Ids(q.added[lo..hi]))
    && (forall i | q.trimmed <= i < |q.added| :: Less(q.lastDelivered, q.added[i].id) <==> lo <= i)
    && q' == q.(claimed := q.claimed + Ids(q.added[lo..hi]), lastDelivered := q.added[hi - 1].id)
  }

  lemma SliceMember(q: Queue, q': Queue, lo: nat, hi: nat, x: Id)
    requires Inv(q) && Delivers(q, q', lo, hi) && x in Ids(q.added[lo..hi])
    ensures x in Ids(q.added) && Less(q.lastDelivered, x) && Delivered(q', x)
  {
    var batch := Ids(q.added[lo..hi]);
    var i :| 0 <= i < |batch| && batch[i] == x;
    InIds(q.added, lo + i);
    if lo + i < hi - 1 {
      AddedInOrder(q, lo + i, hi - 1);
    }
  }

  lemma SliceAccounted(q: Queue, q': Queue, lo: nat, hi: nat)
    requires Inv(q) && Delivers(q, q', lo, hi)
    ensures Accounted(q')
  {
    var batch := Ids(q.added[lo..hi]);
    forall i | q'.trimmed <= i < |q'.added| && Delivered(q', q'.added[i].id)
      ensures q'.added[i].id in q'.claimed || q'.added[i].id in q'.settled
    {
      if lo <= i < hi {
        assert batch[i - lo] == q.added[i].id;
      } else if i < lo {
        assert Delivered(q, q.added[i].id);
      }
    }
  }

  lemma SliceClaimed(q: Queue, q': Queue, lo: nat, hi: nat)
    requires Inv(q) && Delivers(q, q', lo, hi)
    ensures ClaimedOk(q') && SettledOk(q')
  {
    var batch := Ids(q.added[lo..hi]);
    InIds(q.added[lo..hi], hi - 1 - lo);
    SliceMember(q, q', lo, hi, q'.lastDelivered);
    forall x | x in batch
      ensures x in Ids(q.added) && Less(q.lastDelivered, x) && Delivered(q', x)
    {
      SliceMember(q, q', lo, hi, x);
    }
    forall x, y | x in q.claimed && y in batch
      ensures Less(x, y)
    {
      assert Delivered(q, x);
    }
    SortedConcat(q.claimed, batch);
  }

  lemma SliceDelivered(q: Queue, q': Queue, lo: nat, hi: nat)
    requires Inv(q) && Delivers(q, q', lo, hi)
    ensures Inv(q')
  {
    hide StreamOk, ClaimedOk, SettledOk, Accounted;
    SliceAccounted(q, q', lo, hi);
    SliceClaimed(q, q', lo, hi);
    SliceBelowEnd(q, lo, hi);
  }

  lemma SliceBelowEnd(q: Queue, lo: nat, hi: nat)
    requires Inv(q) && q.trimmed <= lo < hi <= |q.added|
    ensures !Less(LastAdded(q), q.added[hi - 1].id)
  {
    if hi < |q.added| {
      AddedInOrder(q, hi - 1, |q.added| - 1);
    }
  }

  lemma RescueKeeps(q: Queue, request: nat, count: nat, idle: set<Id>)
    requires Inv(q) && request in q.readers
    ensures Inv(Rescue(q, request, count, idle))
  {
    var scan := ScanAt(q, q.readers[request].cursor, count, idle);
    var q' := Rescue(q, request, count, idle);
    WithoutSorted(q.claimed, scan.dropped);
    forall i | q'.trimmed <= i < |q'.added| && Delivered(q', q'.added[i].id)
      ensures q'.added[i].id in q'.claimed || q'.added[i].id in q'.settled
    {
      InIds(Retained(q), i - q.trimmed);
      assert Retained(q)[i - q.trimmed].id !in scan.dropped;
    }
  }

  lemma SettleKeeps(q: Queue, id: Id, reason: Reason)
    requires Inv(q)
    ensures Inv(Settle(q, id, reason))
  {
    WithoutSorted(q.claimed, {id});
  }

  lemma ActionKeeps(q: Queue, action: Action)
    requires Inv(q)
    ensures Inv(Apply(q, action))
  {
    if Enabled(q, action) {
      match action
      case Enqueue(id, responseId, trim) => EnqueueKeeps(q, id, responseId, trim);
      case ReadGroup(count) => DeliverKeeps(q, count);
      case Autoclaim(request, count, idle) => RescueKeeps(q, request, count, idle);
      case Acknowledge(id, reason) => SettleKeeps(q, id, reason);
      case _ =>
    }
  }

  lemma {:induction false} RunKeeps(q: Queue, actions: seq<Action>)
    requires Inv(q)
    ensures Inv(Run(q, actions))
    decreases |actions|
  {
    hide Inv;
    if actions != [] {
      ActionKeeps(q, actions[0]);
      RunKeeps(Apply(q, actions[0]), actions[1..]);
    }
  }

  /** No delivery is taken back. */
  lemma DeliveryGrows(q: Queue, action: Action)
    requires Inv(q)
    ensures !Less(Apply(q, action).lastDelivered, q.lastDelivered)
  {
    hide Sorted, StreamOk, ClaimedOk, SettledOk, Accounted, FirstNew, EndNew, Delivered;
    if Enabled(q, action) && action.ReadGroup? {
      var lo, hi := FirstNew(q), EndNew(q, action.count);
      if lo < hi {
        FirstNewSplits(q);
        assert Deliver(q, action.count).lastDelivered == q.added[hi - 1].id;
      }
    }
  }
}
