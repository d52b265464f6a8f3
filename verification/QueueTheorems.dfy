/** What holds of the work queue after any run. */
module QueueTheorems {
  import opened Wrappers
  import opened StreamId
  import opened Paging
  import opened WorkQueue
  import Cursor

  ghost predicate Reachable(q: Queue) {
    exists q0, actions :: WorkQueue.Initial(q0) && q == Run(q0, actions)
  }

  lemma ReachableInv(q: Queue)
    requires Reachable(q)
    ensures Inv(q)
  {
    hide Inv;
    var q0, actions :| WorkQueue.Initial(q0) && q == Run(q0, actions);
    InitialInv(q0);
    RunKeeps(q0, actions);
  }

  // ----- Conservation --------------------------------------------------------------------------

  ghost function InStream(q: Queue): set<Id> {
    set x | x in Ids(Retained(q))
  }

  lemma RetainedSorted(q: Queue)
    requires Inv(q)
    ensures Sorted(Ids(Retained(q)))
  {
    SliceSorted(q, q.trimmed, |q.added|);
    assert Retained(q) == q.added[q.trimmed..|q.added|];
  }

  /** A claimed entry is not below the start of the stream exactly when it is still in the stream. */
  lemma ProcessableIsInStream(q: Queue)
    requires Inv(q)
    ensures Processable(q.claimed, Ids(Retained(q))) == set x | x in q.claimed && x in InStream(q)
  {
    var stream := Ids(Retained(q));
    forall x | x in q.claimed
      ensures x in InStream(q) <==> stream != [] && !Less(x, stream[0])
    {
      var i :| 0 <= i < |q.added| && Ids(q.added)[i] == x;
      if q.trimmed <= i {
        InIds(Retained(q), i - q.trimmed);
        if q.trimmed < i {
          AddedInOrder(q, q.trimmed, i);
        }
      } else {
        forall r | 0 <= r < |stream|
          ensures Less(x, stream[r])
        {
          AddedInOrder(q, i, q.trimmed + r);
        }
      }
    }
  }

  /** The two counts of the statistics, as sets, split what the stream holds and nobody acknowledged. */
  lemma CountsSplit(q: Queue)
    requires Inv(q)
    ensures var pending, working := Newer(Ids(Retained(q)), q.lastDelivered), Processable(q.claimed, Ids(Retained(q)));
            && pending !! working
            && pending + working == InStream(q) - q.settled.Keys
  {
    ProcessableIsInStream(q);
    var stream := Ids(Retained(q));
    forall x | x in InStream(q)
      ensures x in Newer(stream, q.lastDelivered) || x in q.claimed || x in q.settled
    {
      var r :| 0 <= r < |stream| && stream[r] == x;
      assert q.added[q.trimmed + r].id == x;
    }
  }

  /**
   Workload conservation: for a group created at the start of the stream, the waiting and the working entries
   together are the entries the stream still holds that were not acknowledged.
   */
  lemma WorkloadConserved(q: Queue)
    requires Reachable(q)
    ensures |Newer(Ids(Retained(q)), q.lastDelivered)| + |Processable(q.claimed, Ids(Retained(q)))|
            == |InStream(q) - q.settled.Keys|
  {
    ReachableInv(q);
    CountsSplit(q);
  }

  /**
   Statistics without the server's own lag figure: both counts, page by page, and their sum, wherever the two loops end.
   Each is at least what it should be, and exactly that where its pages do not overlap.
   */
  method Stats(q: Queue, exclusive: bool, ghost fuel: nat) returns (pending: nat, inProgress: nat, workload: nat)
    requires Reachable(q)
    requires var stream := Ids(Retained(q));
             && PageLoop(stream, First, RangeStartAfter(Print(q.lastDelivered), exclusive, false), exclusive, PENDING_PAGE,
                         fuel).Some?
             && PageLoop(q.claimed, Low(stream), "-", exclusive, IN_PROGRESS_PAGE, fuel).Some?
    ensures var stream := Ids(Retained(q));
            && pending >= |Newer(stream, q.lastDelivered)|
            && (pending == |Newer(stream, q.lastDelivered)|
                <==> exclusive || (&& StartTurns(stream, q.lastDelivered)
                                   && PagesTurn(stream, FirstNewer(stream, q.lastDelivered), PENDING_PAGE)))
            && inProgress >= |set x | x in q.claimed && x in InStream(q)|
            && (inProgress == |set x | x in q.claimed && x in InStream(q)|
                <==> Harmless(q.claimed, Low(stream), "-", exclusive, IN_PROGRESS_PAGE, fuel))
            && workload == pending + inProgress >= |InStream(q) - q.settled.Keys|
            && (workload == |InStream(q) - q.settled.Keys|
                <==> && pending == |Newer(stream, q.lastDelivered)|
                     && inProgress == |set x | x in q.claimed && x in InStream(q)|)
  {
    ReachableInv(q);
    StreamCountable(q);
    ProcessableIsInStream(q);
    WorkloadConserved(q);
    hide Inv, Countable, Newer, Processable, InStream, PageLoop, StartTurns, PagesTurn, Harmless, Low;
    pending := CountPending(Ids(Retained(q)), q.lastDelivered, exclusive, PENDING_PAGE, fuel);
    inProgress := CountInProgress(q.claimed, Ids(Retained(q)), exclusive, IN_PROGRESS_PAGE, fuel);
    workload := pending + inProgress;
  }

  /** Both loops do end, and the sum is right, where ranges can start exclusively. */
  lemma StatsEnd(q: Queue, fuel: nat)
    requires Reachable(q) && fuel > |q.added| && fuel > |q.claimed|
    ensures var stream := Ids(Retained(q));
            && PageLoop(stream, First, RangeStartAfter(Print(q.lastDelivered), true, false), true, PENDING_PAGE, fuel)
               == Some(|Newer(stream, q.lastDelivered)|)
            && PageLoop(q.claimed, Low(stream), "-", true, IN_PROGRESS_PAGE, fuel)
               == Some(|Processable(q.claimed, stream)|)
  {
    ReachableInv(q);
    StreamCountable(q);
    hide Inv, Countable, Newer, Processable, PageLoop, StartTurns, PagesTurn, Harmless, Low;
    PendingCountExactly(Ids(Retained(q)), q.lastDelivered, true, PENDING_PAGE, fuel);
    InProgressCountExactly(q.claimed, Ids(Retained(q)), true, IN_PROGRESS_PAGE, fuel);
  }

  lemma StreamCountable(q: Queue)
    requires Inv(q)
    ensures Countable(Ids(Retained(q))) && Countable(q.claimed)
  {
    RetainedSorted(q);
    forall x | x in q.claimed
      ensures x != ZERO
    {
      var i :| 0 <= i < |q.added| && Ids(q.added)[i] == x;
    }
  }

  // ----- Delivery ------------------------------------------------------------------------------

  /**
   At least once: an entry that was delivered and is still in the stream is either claimed, and so within reach of
   XAUTOCLAIM, or was acknowledged for a recorded reason.
   */
  lemma NothingIsLost(q: Queue, i: nat)
    requires Reachable(q) && q.trimmed <= i < |q.added|
    ensures Less(q.lastDelivered, q.added[i].id) || q.added[i].id in q.claimed || q.added[i].id in q.settled
    ensures !(q.added[i].id in q.claimed && q.added[i].id in q.settled)
  {
    ReachableInv(q);
  }

  /** An entry leaves the claimed list in one step only by an acknowledgement, or after the stream dropped it. */
  lemma LeavesOnlyAcknowledged(q: Queue, action: Action, x: Id)
    requires Inv(q) && x in q.claimed && x !in Apply(q, action).claimed
    ensures || (action.Acknowledge? && action.id == x && Apply(q, action).settled == q.settled[x := action.reason])
            || (action.Autoclaim? && x !in InStream(q))
  {
  }

  // ----- Coverage of the autoclaim cursor ------------------------------------------------------

  /** Everything claimed below the cursor was looked at since the cursor was last sent back to the start. */
  ghost predicate Covered(q: Queue, cursor: Id) {
    && Delivered(q, cursor)
    && forall x | x in q.claimed && Less(x, cursor) :: x in q.examined
  }

  ghost predicate CursorInv(q: Queue) {
    && (q.cursor.Some? ==> Covered(q, q.cursor.value))
    && (forall r | r in q.readers :: q.readers[r].cycle <= q.cycle && Delivered(q, q.readers[r].cursor))
    && (forall r | r in q.readers && q.readers[r].cycle == q.cycle :: Covered(q, q.readers[r].cursor))
  }

  /**
   A write that is harmless whatever is claimed: its writer read the cursor after the last time it was sent back to the
   start, or sends it back itself, or writes nothing the script prefers to what is stored.
   */
  predicate Timely(q: Queue, action: Action) {
    action.WriteCursor? && action.request in q.readers ==>
      var reader := q.readers[action.request];
      || reader.cycle == q.cycle
      || reader.cursor == ZERO
      || q.cursor == Some(Cursor.Write(q.cursor, reader.cursor))
  }

  predicate AllTimely(q: Queue, actions: seq<Action>)
    decreases |actions|
  {
    actions == [] || (Timely(q, actions[0]) && AllTimely(Apply(q, actions[0]), actions[1..]))
  }

  /** New deliveries land above every cursor in use. */
  lemma DeliveryCovers(q: Queue, count: nat, cursor: Id)
    requires Inv(q) && Covered(q, cursor)
    ensures Covered(Deliver(q, count), cursor)
  {
    hide Less, Sorted, StreamOk, ClaimedOk, SettledOk, Accounted, FirstNew, EndNew, Covered;
    var lo, hi := FirstNew(q), EndNew(q, count);
    if lo < hi {
      FirstNewSplits(q);
      SliceSorted(q, lo, hi);
      SliceCovers(q, Deliver(q, count), lo, hi, cursor);
    }
  }

  lemma SliceCovers(q: Queue, q': Queue, lo: nat, hi: nat, cursor: Id)
    requires Inv(q) && Delivers(q, q', lo, hi) && Covered(q, cursor)
    ensures Covered(q', cursor)
  {
    hide StreamOk, ClaimedOk, SettledOk, Accounted, Sorted;
    InIds(q.added[lo..hi], hi - 1 - lo);
    SliceMember(q, q', lo, hi, q'.lastDelivered);
    forall x | x in q'.claimed && Less(x, cursor)
      ensures x in q'.examined
    {
      if x !in q.claimed {
        SliceMember(q, q', lo, hi, x);
      }
    }
  }

  lemma BelowStops(ids: seq<Id>, stop: nat, i: nat)
    requires Sorted(ids) && stop < |ids| && i < |ids| && Less(ids[i], ids[stop])
    ensures i < stop
  {
  }

  /** Whatever is claimed below where a scan stopped was below its start, or was gone through by it. */
  lemma ScannedBelow(claimed: seq<Id>, cursor: Id, stop: nat, x: Id)
    requires Sorted(claimed) && stop < |claimed| && x in claimed && Less(x, claimed[stop])
    requires Skipped(claimed, From(cursor)) <= stop
    ensures Less(x, cursor) || x in claimed[Skipped(claimed, From(cursor))..stop]
  {
    hide Sorted;
    var from := Skipped(claimed, From(cursor));
    var i :| 0 <= i < |claimed| && claimed[i] == x;
    BelowStops(claimed, stop, i);
    SkippedSplits(claimed, From(cursor), i);
    if from <= i {
      assert claimed[from..stop][i - from] == x;
    }
  }

  lemma NothingBelowZero(x: Id)
    ensures !Less(x, ZERO)
  {
  }

  /** The cursor a scan hands back covers what the scan went through on top of what its start covered. */
  lemma RescueCovers(q: Queue, request: nat, count: nat, idle: set<Id>)
    requires Inv(q) && request in q.readers && Covered(q, q.readers[request].cursor)
    ensures Covered(Rescue(q, request, count, idle), Rescue(q, request, count, idle).readers[request].cursor)
  {
    hide StreamOk, SettledOk, Accounted, Retained, Less, Sorted, ScanFrom, Skipped;
    var cursor := q.readers[request].cursor;
    var scan := ScanAt(q, cursor, count, idle);
    var q' := Rescue(q, request, count, idle);
    forall x | x in q'.claimed && Less(x, NextCursor(q, scan))
      ensures x in q'.examined
    {
      NothingBelowZero(x);
      ScannedBelow(q.claimed, cursor, scan.stop, x);
    }
    NextIsDelivered(q, scan);
  }

  lemma NextIsDelivered(q: Queue, scan: Scan)
    requires Inv(q)
    ensures Delivered(q, NextCursor(q, scan))
  {
    if scan.stop < |q.claimed| {
      assert q.claimed[scan.stop] in q.claimed;
    }
  }

  /** A scan takes no cursor in use out of coverage. */
  lemma RescueLeavesCovered(q: Queue, request: nat, count: nat, idle: set<Id>, cursor: Id)
    requires q.trimmed <= |q.added| && request in q.readers && Covered(q, cursor)
    ensures Covered(Rescue(q, request, count, idle), cursor)
  {
    hide ScanAt, Less;
  }

  lemma DeliveredStays(q: Queue, q': Queue, cursor: Id)
    requires Delivered(q, cursor) && !Less(q'.lastDelivered, q.lastDelivered)
    ensures Delivered(q', cursor)
  {
  }

  lemma DeliveryKeepsCursor(q: Queue, count: nat)
    requires Inv(q) && CursorInv(q)
    ensures CursorInv(Deliver(q, count))
  {
    hide Inv, Covered, Undelivered, Delivered, Less;
    InvTrims(q);
    var q' := Deliver(q, count);
    assert q' == Apply(q, WorkQueue.Action.ReadGroup(count));
    DeliveryGrows(q, WorkQueue.Action.ReadGroup(count));
    if q.cursor.Some? {
      DeliveryCovers(q, count, q.cursor.value);
    }
    forall r | r in q.readers
      ensures Delivered(q', q.readers[r].cursor)
      ensures q.readers[r].cycle == q.cycle ==> Covered(q', q.readers[r].cursor)
    {
      DeliveredStays(q, q', q.readers[r].cursor);
      if q.readers[r].cycle == q.cycle {
        DeliveryCovers(q, count, q.readers[r].cursor);
      }
    }
  }

  lemma RescueKeepsCursor(q: Queue, request: nat, count: nat, idle: set<Id>)
    requires Inv(q) && CursorInv(q) && request in q.readers
    ensures CursorInv(Rescue(q, request, count, idle))
  {
    hide Inv, Covered, ScanAt, NextCursor;
    InvTrims(q);
    NextIsDelivered(q, ScanAt(q, q.readers[request].cursor, count, idle));
    if q.readers[request].cycle == q.cycle {
      RescueCovers(q, request, count, idle);
    }
    if q.cursor.Some? {
      RescueLeavesCovered(q, request, count, idle, q.cursor.value);
    }
    forall r | r in q.readers && q.readers[r].cycle == q.cycle && r != request
      ensures Covered(Rescue(q, request, count, idle), q.readers[r].cursor)
    {
      RescueLeavesCovered(q, request, count, idle, q.readers[r].cursor);
    }
  }

  lemma ReadKeepsCursor(q: Queue, request: nat)
    requires Inv(q) && CursorInv(q)
    ensures CursorInv(Apply(q, ReadCursor(request)))
  {
    hide Inv;
    InvTrims(q);
    NothingBelowZero(q.lastDelivered);
  }

  /** A write replaces the stored cursor, resets it, or does nothing. */
  lemma WriteKeepsCursor(q: Queue, request: nat)
    requires Inv(q) && CursorInv(q) && Timely(q, WriteCursor(request))
    ensures CursorInv(Apply(q, WriteCursor(request)))
  {
    hide Inv;
    InvTrims(q);
    if request in q.readers && q.readers[request].cursor == ZERO {
      NothingBelowZero(q.lastDelivered);
    }
  }

  lemma ActionKeepsCursor(q: Queue, action: Action)
    requires Inv(q) && CursorInv(q) && Timely(q, action)
    ensures CursorInv(Apply(q, action))
  {
    hide Inv, Rescue, Deliver, Timely, Less;
    if Enabled(q, action) {
      match action
      case ReadGroup(count) => DeliveryKeepsCursor(q, count);
      case Autoclaim(request, count, idle) => RescueKeepsCursor(q, request, count, idle);
      case ReadCursor(request) => ReadKeepsCursor(q, request);
      case WriteCursor(request) => WriteKeepsCursor(q, request);
      case _ => InvTrims(q);
    }
  }

  /**
   Coverage: as long as every writer of the cursor read it after its last reset, every claimed entry below the stored
   cursor was looked at by some scan since that reset.
   */
  lemma {:induction false} CursorCoversRun(q: Queue, actions: seq<Action>)
    requires Inv(q) && CursorInv(q) && AllTimely(q, actions)
    ensures CursorInv(Run(q, actions))
    decreases |actions|
  {
    hide Inv, CursorInv, Timely;
    if actions != [] {
      ActionKeeps(q, actions[0]);
      ActionKeepsCursor(q, actions[0]);
      CursorCoversRun(Apply(q, actions[0]), actions[1..]);
    }
  }

  /** A claimed entry below the stored cursor that no scan looked at since the cursor was last reset. */
  ghost predicate Missed(q: Queue, x: Id) {
    q.cursor.Some? && x in q.claimed && Less(x, q.cursor.value) && x !in q.examined
  }

  lemma CursorCovers(q0: Queue, actions: seq<Action>, x: Id)
    requires WorkQueue.Initial(q0) && AllTimely(q0, actions)
    ensures !Missed(Run(q0, actions), x)
  {
    InitialInv(q0);
    CursorCoversRun(q0, actions);
  }

  /**
   Exactly when a write that is not harmless breaks coverage: the entries missed after it are the claimed ones below the
   written cursor that were not looked at since the reset, and coverage holds after all if there is none.
   */
  lemma LateWriteMisses(q: Queue, request: nat)
    requires Inv(q) && CursorInv(q) && request in q.readers && !Timely(q, WriteCursor(request))
    ensures var q', written := Apply(q, WriteCursor(request)), q.readers[request].cursor;
            && q'.cursor == Some(written)
            && (forall x :: Missed(q', x) <==> x in q.claimed && Less(x, written) && x !in q.examined)
            && (CursorInv(q') <==> forall x :: !Missed(q', x))
  {
    InvTrims(q);
    hide Inv;
    var q', written := Apply(q, WriteCursor(request)), q.readers[request].cursor;
    assert q' == q.(cursor := Some(written), readers := q.readers - {request});
    if CursorInv(q') {
      forall x
        ensures !Missed(q', x)
      {
        assert Covered(q', written);
      }
    } else if forall x :: !Missed(q', x) {
      forall x | x in q'.claimed && Less(x, written)
        ensures x in q'.examined
      {
        assert !Missed(q', x);
      }
      assert Covered(q', written);
      forall r | r in q'.readers && q'.readers[r].cycle == q'.cycle
        ensures Covered(q', q'.readers[r].cursor)
      {
        assert Covered(q, q.readers[r].cursor);
      }
      assert false;
    }
  }

  const FIRST: Id := Id(1, 0)
  const SECOND: Id := Id(2, 0)

  /** Two delivered entries and two requests that both read the cursor at the start. */
  const TWO_READERS: Queue :=
    Queue(0, [StreamEntry(FIRST, None), StreamEntry(SECOND, None)], 0, SECOND, [FIRST, SECOND], map[], None, 0, {},
          map[1 := Reader(ZERO, 0), 2 := Reader(ZERO, 0)])

  lemma TwoReadersReached(q0: Queue)
    requires q0 == TWO_READERS.(lastDelivered := ZERO, claimed := [], readers := map[])
    ensures WorkQueue.Initial(q0)
    ensures Run(q0, [WorkQueue.Action.ReadGroup(2), ReadCursor(1), ReadCursor(2)]) == TWO_READERS
  {
    var q1 := q0.(lastDelivered := SECOND, claimed := [FIRST, SECOND]);
    BothDelivered(q0);
    var q2 := q1.(readers := map[1 := Reader(ZERO, 0)]);
    assert Apply(q1, ReadCursor(1)) == q2;
    assert Apply(q2, ReadCursor(2)) == TWO_READERS;
    hide Apply;
    assert Run(q0, [WorkQueue.Action.ReadGroup(2), ReadCursor(1), ReadCursor(2)])
        == Run(q1, [ReadCursor(1), ReadCursor(2)])
        == Run(q2, [ReadCursor(2)])
        == Run(TWO_READERS, []);
  }

  lemma BothDelivered(q: Queue)
    requires q == TWO_READERS.(lastDelivered := ZERO, claimed := [], readers := map[])
    ensures Apply(q, WorkQueue.Action.ReadGroup(2)) == q.(lastDelivered := SECOND, claimed := [FIRST, SECOND])
  {
    assert Ids(Retained(q)) == [FIRST, SECOND];
    assert Skipped(Ids(Retained(q)), Beyond(ZERO)) == 0;
    assert Ids(Undelivered(q, 2)) == [FIRST, SECOND];
  }

  lemma {:induction false} WithoutNone(ids: seq<Id>)
    ensures Without(ids, {}) == ids
  {
    if ids != [] {
      WithoutNone(ids[..|ids| - 1]);
    }
  }

  /** A scan for one entry stops behind the first one it may take. */
  lemma ScanTakesOne(q: Queue, idle: set<Id>)
    requires q.trimmed <= |q.added| && q.claimed != [] && q.claimed[0] in Ids(Retained(q)) && q.claimed[0] in idle
    ensures ScanAt(q, ZERO, 1, idle) == Scan([q.claimed[0]], {}, 1)
  {
    assert Skipped(q.claimed, From(ZERO)) == 0;
    var rest := ScanFrom(q.claimed, 1, 9, 0, idle, Ids(Retained(q)));
    assert rest == Scan([], {}, 1);
  }

  /** A scan that finds nothing idle goes through everything, up to its number of looks. */
  lemma {:induction false} ScanTakesNothing(claimed: seq<Id>, k: nat, attempts: nat, count: nat, stream: seq<Id>)
    requires k <= |claimed| <= k + attempts && count > 0
    requires forall i | k <= i < |claimed| :: claimed[i] in stream
    ensures ScanFrom(claimed, k, attempts, count, {}, stream) == Scan([], {}, |claimed|)
    decreases attempts
  {
    if k < |claimed| {
      ScanTakesNothing(claimed, k + 1, attempts - 1, count, stream);
    }
  }

  lemma FirstScanStops(q: Queue)
    requires q == TWO_READERS
    ensures Apply(q, WorkQueue.Action.Autoclaim(1, 1, {FIRST, SECOND}))
            == q.(examined := {FIRST}, readers := q.readers[1 := Reader(SECOND, 0)])
  {
    hide ScanAt, ScanFrom, Retained;
    InRetained(q, 0);
    ScanTakesOne(q, {FIRST, SECOND});
    WithoutNone(q.claimed);
    assert Skipped(q.claimed, From(ZERO)) == 0;
    assert q.claimed[0..1] == [FIRST];
    assert (set x | x in q.claimed[0..1]) == {FIRST};
  }

  lemma InRetained(q: Queue, i: nat)
    requires q.trimmed == 0 && i < |q.added|
    ensures q.added[i].id in Ids(Retained(q))
  {
    InIds(Retained(q), i);
  }

  lemma SecondScanEnds(q: Queue)
    requires q == TWO_READERS.(examined := {FIRST}, readers := TWO_READERS.readers[1 := Reader(SECOND, 0)])
    ensures var q' := Apply(q, WorkQueue.Action.Autoclaim(2, 1, {}));
            q' == q.(examined := q'.examined)
  {
    hide ScanFrom, Retained;
    InRetained(q, 0);
    InRetained(q, 1);
    assert Skipped(q.claimed, From(ZERO)) == 0;
    ScanTakesNothing(q.claimed, 0, 10, 1, Ids(Retained(q)));
    WithoutNone(q.claimed);
  }

  lemma LateWrites(q: Queue)
    requires q.trimmed <= |q.added| && 1 in q.readers && 2 in q.readers
    requires q.readers[1].cursor == SECOND && q.readers[2].cursor == ZERO
    ensures var q' := Apply(Apply(q, WriteCursor(2)), WriteCursor(1));
            q'.cursor == Some(SECOND) && q'.examined == {} && q'.claimed == q.claimed
  {
    Cursor.ExactComparison(SECOND, ZERO);
  }

  lemma {:induction false} RunConcat(q: Queue, first: seq<Action>, second: seq<Action>)
    ensures Run(q, first + second) == Run(Run(q, first), second)
    decreases |first|
  {
    if first == [] {
      assert first + second == second;
    } else {
      assert (first + second)[1..] == first[1..] + second;
      RunConcat(Apply(q, first[0]), first[1..], second);
    }
  }

  lemma RunTwo(q: Queue, first: Action, second: Action)
    ensures Run(q, [first, second]) == Apply(Apply(q, first), second)
  {
    hide Apply;
    assert [first, second][1..] == [second] && [second][1..] == [];
    assert Run(q, [first, second]) == Run(Apply(q, first), [second]);
  }

  lemma RunInParts(q: Queue, first: seq<Action>, a: Action, b: Action, c: Action, d: Action)
    ensures Run(q, first + [a, b] + [c, d]) == Apply(Apply(Apply(Apply(Run(q, first), a), b), c), d)
  {
    hide Apply;
    RunConcat(q, first, [a, b]);
    RunTwo(Run(q, first), a, b);
    RunConcat(q, first + [a, b], [c, d]);
    RunTwo(Run(q, first + [a, b]), c, d);
  }

  /**
   Such a late write happens: two requests read the start, one scans part of the entries, the other goes through all
   of them and resets the cursor, and then the first one writes. The first entry is skipped from then on.
   */
  lemma LateWriteHappens(q0: Queue, q1: Queue, first: Action, second: Action)
    requires q0 == TWO_READERS.(lastDelivered := ZERO, claimed := [], readers := map[])
    requires first == WorkQueue.Action.Autoclaim(1, 1, {FIRST, SECOND})
    requires second == WorkQueue.Action.Autoclaim(2, 1, {})
    requires q1 == Run(q0, [WorkQueue.Action.ReadGroup(2), ReadCursor(1), ReadCursor(2)]
                           + [first, second] + [WriteCursor(2), WriteCursor(1)])
    ensures WorkQueue.Initial(q0)
    ensures Missed(q1, FIRST)
  {
    hide Apply, Run, WorkQueue.Initial;
    TwoReadersReached(q0);
    FirstScanStops(TWO_READERS);
    SecondScanEnds(Apply(TWO_READERS, first));
    LateWrites(Apply(Apply(TWO_READERS, first), second));
    RunInParts(q0, [WorkQueue.Action.ReadGroup(2), ReadCursor(1), ReadCursor(2)], first, second,
               WriteCursor(2), WriteCursor(1));
    assert q1.claimed[0] == FIRST;
  }

  // ----- Requests that do not scan -------------------------------------------------------------

  function Stored(q: Queue): Id {
    if q.cursor.Some? then q.cursor.value else ZERO
  }

  /** Every identifier in use is one the script compares exactly. */
  ghost predicate ExactIds(q: Queue) {
    && (forall i | 0 <= i < |q.added| :: Cursor.Exact(q.added[i].id))
    && Cursor.Exact(Stored(q))
    && (forall r | r in q.readers :: Cursor.Exact(q.readers[r].cursor))
  }

  predicate ExactAction(action: Action) {
    action.Enqueue? ==> Cursor.Exact(action.id)
  }

  lemma ScanStaysExact(q: Queue, scan: Scan)
    requires Inv(q) && forall i | 0 <= i < |q.added| :: Cursor.Exact(q.added[i].id)
    ensures Cursor.Exact(NextCursor(q, scan))
  {
    if scan.stop < |q.claimed| {
      assert q.claimed[scan.stop] in q.claimed;
      var i :| 0 <= i < |q.added| && Ids(q.added)[i] == q.claimed[scan.stop];
    }
  }

  lemma ActionKeepsExact(q: Queue, action: Action)
    requires Inv(q) && ExactIds(q) && ExactAction(action)
    ensures ExactIds(Apply(q, action))
  {
    if Enabled(q, action) && action.Autoclaim? {
      ScanStaysExact(q, ScanAt(q, q.readers[action.request].cursor, action.count, action.idle));
    }
    hide Inv, ScanAt, NextCursor, Undelivered, Less, Cursor.ScriptGreater, Without;
  }

  /** Between two resets the stored cursor never moves back. */
  lemma CursorOnlyAdvances(q: Queue, action: Action)
    requires ExactIds(q)
    ensures q.cycle <= Apply(q, action).cycle
    ensures Apply(q, action).cycle == q.cycle ==> !Less(Stored(Apply(q, action)), Stored(q))
  {
    if Enabled(q, action) && action.WriteCursor? && q.cursor.Some? {
      Cursor.ExactComparison(q.readers[action.request].cursor, q.cursor.value);
    }
  }

  lemma {:induction false} ReaderFallsBehind(q: Queue, request: nat, between: seq<Action>)
    requires Inv(q) && ExactIds(q) && request in q.readers && !Less(Stored(q), q.readers[request].cursor)
    requires forall i | 0 <= i < |between| ::
               && ExactAction(between[i])
               && !(between[i].Autoclaim? && between[i].request == request)
               && between[i] != WriteCursor(request)
    ensures var q' := Run(q, between);
            && ExactIds(q')
            && q.cycle <= q'.cycle
            && request in q'.readers && q'.readers[request] == q.readers[request]
            && (q'.cycle == q.cycle ==> !Less(Stored(q'), q.readers[request].cursor))
    decreases |between|
  {
    hide Inv, ExactIds;
    if between != [] {
      var q1 := Apply(q, between[0]);
      assert ExactAction(between[0]);
      ActionKeeps(q, between[0]);
      ActionKeepsExact(q, between[0]);
      CursorOnlyAdvances(q, between[0]);
      if q1.cycle == q.cycle {
        ReaderFallsBehind(q1, request, between[1..]);
      } else {
        CyclesOnlyGrow(q1, request, between[1..]);
      }
    }
  }

  lemma {:induction false} CyclesOnlyGrow(q: Queue, request: nat, between: seq<Action>)
    requires Inv(q) && ExactIds(q) && request in q.readers
    requires forall i | 0 <= i < |between| ::
               && ExactAction(between[i])
               && !(between[i].Autoclaim? && between[i].request == request)
               && between[i] != WriteCursor(request)
    ensures var q' := Run(q, between);
            ExactIds(q') && q.cycle <= q'.cycle && request in q'.readers && q'.readers[request] == q.readers[request]
    decreases |between|
  {
    hide Inv, ExactIds;
    if between != [] {
      assert ExactAction(between[0]);
      ActionKeeps(q, between[0]);
      ActionKeepsExact(q, between[0]);
      CursorOnlyAdvances(q, between[0]);
      CyclesOnlyGrow(Apply(q, between[0]), request, between[1..]);
    }
  }

  /**
   A request that does not scan writes back the cursor it read, whatever others did meanwhile. Unless the cursor was
   reset in between this changes nothing, except when the request had read the start: then it resets the cursor.
   */
  lemma WriteBackWithoutScan(q: Queue, request: nat, between: seq<Action>)
    requires Inv(q) && ExactIds(q) && request !in q.readers
    requires forall i | 0 <= i < |between| ::
               && ExactAction(between[i])
               && !(between[i].Autoclaim? && between[i].request == request)
               && between[i] != WriteCursor(request)
    requires Run(Apply(q, ReadCursor(request)), between).cycle == q.cycle
    ensures var late := Run(Apply(q, ReadCursor(request)), between);
            var after := Apply(late, WriteCursor(request));
            && (Stored(q) != ZERO ==> after.cursor == late.cursor && after.cycle == late.cycle)
            && (Stored(q) == ZERO ==> after.cursor == Some(ZERO) && after.cycle == late.cycle + 1)
  {
    hide Inv, ExactIds;
    var read := Apply(q, ReadCursor(request));
    ActionKeeps(q, ReadCursor(request));
    ActionKeepsExact(q, ReadCursor(request));
    ReadCopies(q, request);
    ReaderFallsBehind(read, request, between);
    var late := Run(read, between);
    RunKeeps(read, between);
    hide Run, Apply, Less;
    WriteBackEffect(late, request);
  }

  lemma ReadCopies(q: Queue, request: nat)
    requires Inv(q) && request !in q.readers
    ensures var read := Apply(q, ReadCursor(request));
            && request in read.readers && read.readers[request] == Reader(Stored(q), q.cycle)
            && Stored(read) == Stored(q) && read.cycle == q.cycle && !Less(Stored(read), read.readers[request].cursor)
  {
  }

  lemma WriteBackEffect(late: Queue, request: nat)
    requires Inv(late) && ExactIds(late) && request in late.readers
    requires !Less(Stored(late), late.readers[request].cursor)
    ensures var after := Apply(late, WriteCursor(request));
            && (late.readers[request].cursor != ZERO ==> after.cursor == late.cursor && after.cycle == late.cycle)
            && (late.readers[request].cursor == ZERO ==> after.cursor == Some(ZERO) && after.cycle == late.cycle + 1)
  {
    if late.readers[request].cursor != ZERO {
      Cursor.ExactComparison(late.readers[request].cursor, Stored(late));
    }
  }
}
