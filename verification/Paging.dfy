/** The two counts behind the queue statistics, computed page by page over one snapshot. */
module Paging {
  import opened Wrappers
  import opened StreamId

  const PENDING_PAGE: nat := 1000
  const IN_PROGRESS_PAGE: nat := 100

  ghost predicate Sorted(ids: seq<Id>) {
    forall i, j | 0 <= i < j < |ids| :: Less(ids[i], ids[j])
  }

  /** How many leading identifiers lie before the start of the range. */
  function Skipped(ids: seq<Id>, bound: Bound): (k: nat)
    ensures k <= |ids|
  {
    if ids == [] || Admits(bound, ids[0]) then 0 else 1 + Skipped(ids[1..], bound)
  }

  /** XRANGE and XPENDING over a range that is open at the top: at most `count` identifiers from the start on. */
  function Range(ids: seq<Id>, start: string, count: nat): (page: seq<Id>)
    ensures var rest := ids[Skipped(ids, ParseBound(start))..];
            |page| <= count && page <= rest && (page == rest || |page| == count)
  {
    var rest := ids[Skipped(ids, ParseBound(start))..];
    if |rest| <= count then rest else rest[..count]
  }

  lemma {:induction false} SkippedSplits(ids: seq<Id>, bound: Bound, i: nat)
    requires Sorted(ids) && i < |ids|
    ensures Admits(bound, ids[i]) <==> Skipped(ids, bound) <= i
  {
    if Admits(bound, ids[0]) {
      assert i == 0 || Less(ids[0], ids[i]);
    } else if i > 0 {
      assert Sorted(ids[1..]) by {
        forall a, b | 0 <= a < b < |ids[1..]|
          ensures Less(ids[1..][a], ids[1..][b])
        {
          assert ids[1..][a] == ids[a + 1] && ids[1..][b] == ids[b + 1];
        }
      }
      SkippedSplits(ids[1..], bound, i - 1);
    }
  }

  /** Without exclusive starts a range that goes on after `id` starts at its successor, which wraps at the top. */
  lemma InclusiveStart(id: Id, afterDelivered: bool)
    requires afterDelivered || id != ZERO
    ensures ParseBound(RangeStartAfter(Print(id), false, afterDelivered)) == From(Next(id))
  {
    RoundTrip(id);
    StartReads(Next(id));
    ZeroText();
    PrintStartsWithDigit(id);
    hide Print, Parse, ParseBound;
    if Print(id) == "0-0" {
      PrintInjective(id, ZERO);
    }
  }

  /**
   Starting after the last identifier of a page continues right behind it, exactly when the range can start exclusively
   or that identifier has a successor. Otherwise the next page overlaps this one, and entries are counted twice.
   */
  lemma NextPageStarts(ids: seq<Id>, last: nat, exclusive: bool)
    requires Sorted(ids) && last < |ids|
    ensures var next := Skipped(ids, ParseBound(RangeStartAfter(Print(ids[last]), exclusive, true)));
            && next <= last + 1
            && (next == last + 1 <==> exclusive || ids[last].serial + 1 < U64_END)
  {
    hide Print, Parse, RangeStartAfter, ParseBound;
    var bound := ParseBound(RangeStartAfter(Print(ids[last]), exclusive, true));
    var k := Skipped(ids, bound);
    SkippedSplits(ids, bound, last);
    if last + 1 < |ids| {
      assert Less(ids[last], ids[last + 1]);
      SkippedSplits(ids, bound, last + 1);
    }
    if exclusive || ids[last].serial + 1 < U64_END {
      RangeStartAdmits(ids[last], exclusive, true, ids[last]);
      if last + 1 < |ids| {
        RangeStartAdmits(ids[last], exclusive, true, ids[last + 1]);
      }
    } else {
      InclusiveStart(ids[last], true);
    }
  }

  /** No full page, from position `from` on, ends at the top of the sequence range. */
  ghost predicate PagesTurn(ids: seq<Id>, from: nat, pageSize: nat)
    requires pageSize >= 1
    decreases |ids| - from
  {
    from + pageSize <= |ids| ==>
      ids[from + pageSize - 1].serial + 1 < U64_END && PagesTurn(ids, from + pageSize, pageSize)
  }

  /** The last delivered identifier has a successor, or none of its millisecond is left. */
  ghost predicate StartTurns(ids: seq<Id>, last: Id) {
    last.serial + 1 < U64_END || forall x | x in ids :: x.ms != last.ms
  }

  /** Exactly when the first page starts with what is newer. */
  lemma FirstPageStarts(ids: seq<Id>, last: Id, exclusive: bool)
    requires forall x | x in ids :: x != ZERO
    ensures (forall x | x in ids :: Admits(ParseBound(RangeStartAfter(Print(last), exclusive, false)), x) <==> Less(last, x))
            <==> exclusive || StartTurns(ids, last)
  {
    hide Print, Parse, RangeStartAfter, ParseBound;
    if exclusive || last.serial + 1 < U64_END {
      forall x | x in ids
        ensures Admits(ParseBound(RangeStartAfter(Print(last), exclusive, false)), x) <==> Less(last, x)
      {
        RangeStartAdmits(last, exclusive, false, x);
      }
    } else {
      InclusiveStart(last, false);
    }
  }

  /** The identifiers above `last`. */
  ghost function Newer(ids: seq<Id>, last: Id): set<Id> {
    set x | x in ids && Less(last, x)
  }

  lemma {:induction false} DistinctCount(ids: seq<Id>)
    requires Sorted(ids)
    ensures |set x | x in ids| == |ids|
  {
    if ids != [] {
      var front, last := ids[..|ids| - 1], ids[|ids| - 1];
      DistinctCount(front);
      assert last !in front;
      assert (set x | x in ids) == (set x | x in front) + {last};
    }
  }

  /** The suffix that the first page starts with is exactly what is newer. */
  lemma NewerIsSuffix(ids: seq<Id>, last: Id, k: nat)
    requires Sorted(ids) && k <= |ids|
    requires forall i | 0 <= i < |ids| :: Less(last, ids[i]) <==> k <= i
    ensures |Newer(ids, last)| == |ids| - k
  {
    DistinctCount(ids[k..]);
    assert Newer(ids, last) == set x | x in ids[k..] by {
      forall x
        ensures x in Newer(ids, last) <==> x in ids[k..]
      {
        if x in Newer(ids, last) {
          var i :| 0 <= i < |ids| && ids[i] == x;
          assert ids[k..][i - k] == x;
        }
        if x in ids[k..] {
          var i :| 0 <= i < |ids[k..]| && ids[k..][i] == x;
          assert ids[k + i] == x;
        }
      }
    }
  }

  /** What Redis keeps of identifiers: they are in order, and none is the reserved zero. */
  ghost predicate Countable(ids: seq<Id>) {
    Sorted(ids) && forall x | x in ids :: x != ZERO
  }

  /** The position of the first identifier above `last`. */
  function FirstNewer(ids: seq<Id>, last: Id): (k: nat)
    ensures k <= |ids|
  {
    Skipped(ids, Beyond(last))
  }

  lemma FirstNewerSplits(ids: seq<Id>, last: Id, bound: Bound)
    requires Sorted(ids) && forall x | x in ids :: Admits(bound, x) <==> Less(last, x)
    ensures Skipped(ids, bound) == FirstNewer(ids, last)
    ensures forall i | 0 <= i < |ids| :: Less(last, ids[i]) <==> FirstNewer(ids, last) <= i
  {
    forall i | 0 <= i < |ids|
      ensures Less(last, ids[i]) <==> FirstNewer(ids, last) <= i
      ensures Less(last, ids[i]) <==> Skipped(ids, bound) <= i
    {
      SkippedSplits(ids, Beyond(last), i);
      SkippedSplits(ids, bound, i);
    }
  }

  // ----- What the pages add up to --------------------------------------------------------------

  /** How many of the identifiers count: those that a bound admits. */
  function Live(ids: seq<Id>, low: Bound): nat {
    if ids == [] then 0 else Live(ids[..|ids| - 1], low) + if Admits(low, ids[|ids| - 1]) then 1 else 0
  }

  /** The loop over pages from a start text: what it adds up to, if `fuel` pages are enough for it to end. */
  function PageLoop(ids: seq<Id>, low: Bound, start: string, exclusive: bool, pageSize: nat, fuel: nat)
    : (total: Option<nat>)
    requires pageSize >= 1
    decreases fuel
  {
    if fuel == 0 then None
    else
      var page := Range(ids, start, pageSize);
      if |page| < pageSize then Some(Live(page, low))
      else
        match PageLoop(ids, low, RangeStartAfter(Print(page[|page| - 1]), exclusive, true), exclusive, pageSize, fuel - 1)
        case None => None
        case Some(rest) => Some(Live(page, low) + rest)
  }

  /** Along the loop, no page that the next one overlaps ends with an identifier that counts. */
  ghost predicate Harmless(ids: seq<Id>, low: Bound, start: string, exclusive: bool, pageSize: nat, fuel: nat)
    requires pageSize >= 1
    decreases fuel
  {
    fuel > 0 ==>
      var page := Range(ids, start, pageSize);
      |page| == pageSize ==>
        var last := page[|page| - 1];
        && (exclusive || last.serial + 1 < U64_END || !Admits(low, last))
        && Harmless(ids, low, RangeStartAfter(Print(last), exclusive, true), exclusive, pageSize, fuel - 1)
  }

  /** One page of the loop. */
  lemma LoopUnfolds(ids: seq<Id>, low: Bound, start: string, exclusive: bool, pageSize: nat, fuel: nat)
    requires pageSize >= 1 && fuel > 0
    ensures var page := Range(ids, start, pageSize);
            && |page| <= pageSize
            && (|page| < pageSize ==>
                  && PageLoop(ids, low, start, exclusive, pageSize, fuel) == Some(Live(page, low))
                  && Harmless(ids, low, start, exclusive, pageSize, fuel))
            && (|page| == pageSize ==>
                  var last := page[pageSize - 1];
                  var start' := RangeStartAfter(Print(last), exclusive, true);
                  var rest := PageLoop(ids, low, start', exclusive, pageSize, fuel - 1);
                  && PageLoop(ids, low, start, exclusive, pageSize, fuel)
                     == (if rest.Some? then Some(Live(page, low) + rest.value) else None)
                  && (Harmless(ids, low, start, exclusive, pageSize, fuel)
                      <==> && (exclusive || last.serial + 1 < U64_END || !Admits(low, last))
                           && Harmless(ids, low, start', exclusive, pageSize, fuel - 1)))
  {
    hide Print, RangeStartAfter, ParseBound, Range, Admits, Live;
    RangeIsPage(ids, start, pageSize);
  }

  lemma RangeIsPage(ids: seq<Id>, start: string, pageSize: nat)
    ensures |Range(ids, start, pageSize)| <= pageSize
  {
  }

  lemma NoFuelNoEnd(ids: seq<Id>, low: Bound, start: string, exclusive: bool, pageSize: nat)
    requires pageSize >= 1
    ensures PageLoop(ids, low, start, exclusive, pageSize, 0) == None
  {
  }

  lemma {:induction false} LiveConcat(a: seq<Id>, b: seq<Id>, low: Bound)
    ensures Live(a + b, low) == Live(a, low) + Live(b, low)
  {
    if b == [] {
      assert a + b == a;
    } else {
      var front := b[..|b| - 1];
      assert (a + b)[..|a + b| - 1] == a + front;
      LiveConcat(a, front, low);
    }
  }

  lemma {:induction false} LiveAll(ids: seq<Id>)
    ensures Live(ids, First) == |ids|
  {
    if ids != [] {
      LiveAll(ids[..|ids| - 1]);
    }
  }

  /** Nothing counts up to an identifier exactly when that one does not. */
  lemma {:induction false} LiveUpTo(ids: seq<Id>, low: Bound)
    requires Sorted(ids) && ids != []
    ensures Live(ids, low) == 0 <==> !Admits(low, ids[|ids| - 1])
  {
    var front, last := ids[..|ids| - 1], ids[|ids| - 1];
    if front != [] {
      assert Less(front[|front| - 1], last) by {
        assert Less(ids[|ids| - 2], ids[|ids| - 1]);
      }
      LiveUpTo(front, low);
    }
  }

  lemma SortedSlice(ids: seq<Id>, from: nat, till: nat)
    requires Sorted(ids) && from <= till <= |ids|
    ensures Sorted(ids[from..till])
  {
    forall i, j | 0 <= i < j < till - from
      ensures Less(ids[from..till][i], ids[from..till][j])
    {
      assert Less(ids[from + i], ids[from + j]);
    }
  }

  /** A page and where the next one starts. */
  lemma PageAt(ids: seq<Id>, start: string, exclusive: bool, pageSize: nat)
    requires Sorted(ids) && pageSize >= 1
    ensures var k, page := Skipped(ids, ParseBound(start)), Range(ids, start, pageSize);
            && (k + pageSize > |ids| ==> page == ids[k..] && |page| < pageSize)
            && (k + pageSize <= |ids| ==>
                  && |page| == pageSize && page == ids[k..k + pageSize] && page[pageSize - 1] == ids[k + pageSize - 1]
                  && var next := Skipped(ids, ParseBound(RangeStartAfter(Print(page[pageSize - 1]), exclusive, true)));
                     && next <= k + pageSize
                     && (next == k + pageSize <==> exclusive || ids[k + pageSize - 1].serial + 1 < U64_END))
  {
    hide Print, RangeStartAfter, ParseBound, Sorted;
    var k := Skipped(ids, ParseBound(start));
    if k + pageSize <= |ids| {
      NextPageStarts(ids, k + pageSize - 1, exclusive);
    }
  }

  /** What an overlap of the next page with this one adds. */
  lemma OverlapCounts(ids: seq<Id>, low: Bound, k: nat, end: nat, next: nat)
    requires Sorted(ids) && k < end <= |ids| && next <= end
    ensures Live(ids[k..], low) == Live(ids[k..end], low) + Live(ids[end..], low)
    ensures Live(ids[next..], low) == Live(ids[next..end], low) + Live(ids[end..], low)
    ensures Live(ids[next..end], low) == 0 <==> next == end || !Admits(low, ids[end - 1])
  {
    assert ids[k..] == ids[k..end] + ids[end..] && ids[next..] == ids[next..end] + ids[end..];
    LiveConcat(ids[k..end], ids[end..], low);
    LiveConcat(ids[next..end], ids[end..], low);
    if next < end {
      SortedSlice(ids, next, end);
      LiveUpTo(ids[next..end], low);
    }
  }

  /** However the loop ends, it counts at least what is left, and no more exactly when its overlaps are harmless. */
  lemma {:induction false} LoopCounts(
    ids: seq<Id>, low: Bound, start: string, exclusive: bool, pageSize: nat, fuel: nat)
    requires Sorted(ids) && pageSize >= 1
    requires PageLoop(ids, low, start, exclusive, pageSize, fuel).Some?
    ensures var total := PageLoop(ids, low, start, exclusive, pageSize, fuel).value;
            var left := Live(ids[Skipped(ids, ParseBound(start))..], low);
            && total >= left
            && (total == left <==> Harmless(ids, low, start, exclusive, pageSize, fuel))
    decreases fuel
  {
    hide Print, RangeStartAfter, ParseBound, Sorted, Range, Admits, Live, PageLoop, Harmless;
    NoFuelNoEnd(ids, low, start, exclusive, pageSize);
    LoopUnfolds(ids, low, start, exclusive, pageSize, fuel);
    var k, page := Skipped(ids, ParseBound(start)), Range(ids, start, pageSize);
    PageAt(ids, start, exclusive, pageSize);
    if k + pageSize <= |ids| {
      var start' := RangeStartAfter(Print(page[pageSize - 1]), exclusive, true);
      LoopCounts(ids, low, start', exclusive, pageSize, fuel - 1);
      OverlapCounts(ids, low, k, k + pageSize, Skipped(ids, ParseBound(start')));
    }
  }

  /** Where no full page ends at the top of the sequence range, the loop ends, and nothing is counted twice. */
  lemma {:induction false} LoopEnds(ids: seq<Id>, low: Bound, start: string, exclusive: bool, pageSize: nat, fuel: nat)
    requires Sorted(ids) && pageSize >= 1
    requires exclusive || PagesTurn(ids, Skipped(ids, ParseBound(start)), pageSize)
    requires fuel > |ids| - Skipped(ids, ParseBound(start))
    ensures PageLoop(ids, low, start, exclusive, pageSize, fuel).Some?
    ensures Harmless(ids, low, start, exclusive, pageSize, fuel)
    decreases fuel
  {
    hide Print, RangeStartAfter, ParseBound, Sorted, Range, Admits, Live, PageLoop, Harmless;
    NoFuelNoEnd(ids, low, start, exclusive, pageSize);
    LoopUnfolds(ids, low, start, exclusive, pageSize, fuel);
    var k, page := Skipped(ids, ParseBound(start)), Range(ids, start, pageSize);
    PageAt(ids, start, exclusive, pageSize);
    if k + pageSize <= |ids| {
      LoopEnds(ids, low, RangeStartAfter(Print(page[pageSize - 1]), exclusive, true), exclusive, pageSize, fuel - 1);
    }
  }

  /** If every identifier counts, only the absence of overlaps is harmless. */
  lemma {:induction false} HarmlessTurns(ids: seq<Id>, start: string, exclusive: bool, pageSize: nat, fuel: nat)
    requires Sorted(ids) && pageSize >= 1
    requires PageLoop(ids, First, start, exclusive, pageSize, fuel).Some?
    requires Harmless(ids, First, start, exclusive, pageSize, fuel)
    ensures exclusive || PagesTurn(ids, Skipped(ids, ParseBound(start)), pageSize)
    decreases fuel
  {
    hide Print, RangeStartAfter, ParseBound, Sorted, Range, Live, PageLoop, Harmless;
    NoFuelNoEnd(ids, First, start, exclusive, pageSize);
    LoopUnfolds(ids, First, start, exclusive, pageSize, fuel);
    var k, page := Skipped(ids, ParseBound(start)), Range(ids, start, pageSize);
    PageAt(ids, start, exclusive, pageSize);
    if k + pageSize <= |ids| {
      HarmlessTurns(ids, RangeStartAfter(Print(page[pageSize - 1]), exclusive, true), exclusive, pageSize, fuel - 1);
    }
  }

  /** A whole number of pages. */
  predicate WholePages(n: nat, pageSize: nat)
    requires pageSize >= 1
  {
    n == 0 || (n >= pageSize && WholePages(n - pageSize, pageSize))
  }

  /** A page that ends at the top starts its millisecond again, and one before it goes on in step. */
  lemma TopPageTurns(ids: seq<Id>, start: string, top: nat, pageSize: nat) returns (start': string)
    requires Sorted(ids) && pageSize >= 1 && top < |ids| && ids[top].serial + 1 == U64_END
    requires InStep(ids, start, top, pageSize)
    ensures |Range(ids, start, pageSize)| == pageSize
    ensures start' == RangeStartAfter(Print(Range(ids, start, pageSize)[pageSize - 1]), false, true)
    ensures InStep(ids, start', top, pageSize)
  {
    hide Print, RangeStartAfter, ParseBound, Range;
    var bottom := From(Id(ids[top].ms, 0));
    var first, k := Skipped(ids, bottom), Skipped(ids, ParseBound(start));
    PageAt(ids, start, false, pageSize);
    var end := k + pageSize - 1;
    SkippedSplits(ids, bottom, end);
    start' := RangeStartAfter(Print(ids[end]), false, true);
    if end == top {
      InclusiveStart(ids[top], true);
    } else {
      assert Less(ids[end], ids[top]);
    }
  }

  /** The page starts in the millisecond of `top`, a whole number of pages before its end. */
  ghost predicate InStep(ids: seq<Id>, start: string, top: nat, pageSize: nat)
    requires Sorted(ids) && pageSize >= 1 && top < |ids|
  {
    var first, k := Skipped(ids, From(Id(ids[top].ms, 0))), Skipped(ids, ParseBound(start));
    first <= k <= top && WholePages(top + 1 - first, pageSize) && WholePages(top + 1 - k, pageSize)
  }

  /**
   A millisecond whose entries end at the top of the sequence range and fill a whole number of pages is read again
   without end, once a page starts in step with it.
   */
  lemma {:induction false} TopPageRepeats(
    ids: seq<Id>, low: Bound, start: string, top: nat, pageSize: nat, fuel: nat)
    requires Sorted(ids) && pageSize >= 1 && top < |ids| && ids[top].serial + 1 == U64_END
    requires InStep(ids, start, top, pageSize)
    ensures PageLoop(ids, low, start, false, pageSize, fuel) == None
    decreases fuel
  {
    hide Print, RangeStartAfter, ParseBound, Range, Live, Sorted, InStep, PageLoop, Admits, Skipped, WholePages;
    NoFuelNoEnd(ids, low, start, false, pageSize);
    if fuel > 0 {
      var start' := TopPageTurns(ids, start, top, pageSize);
      LoopUnfolds(ids, low, start, false, pageSize, fuel);
      TopPageRepeats(ids, low, start', top, pageSize, fuel - 1);
    }
  }

  // ----- Waiting entries -----------------------------------------------------------------------

  /** Where the first page starts if the start text admits what was delivered already. */
  lemma StartsTooEarly(ids: seq<Id>, last: Id, bound: Bound)
    requires Sorted(ids) && forall x | x in ids && Less(last, x) :: Admits(bound, x)
    ensures Skipped(ids, bound) <= FirstNewer(ids, last)
    ensures Skipped(ids, bound) == FirstNewer(ids, last) ==> forall x | x in ids :: Admits(bound, x) <==> Less(last, x)
  {
    var k, first := Skipped(ids, bound), FirstNewer(ids, last);
    forall i | 0 <= i < |ids|
      ensures (Admits(bound, ids[i]) <==> k <= i) && (Less(last, ids[i]) <==> first <= i)
    {
      SkippedSplits(ids, bound, i);
      SkippedSplits(ids, Beyond(last), i);
    }
  }

  lemma StartAdmitsNewer(id: Id, exclusive: bool, other: Id)
    requires other != ZERO && Less(id, other)
    ensures Admits(ParseBound(RangeStartAfter(Print(id), exclusive, false)), other)
  {
    if exclusive || id.serial + 1 < U64_END {
      RangeStartAdmits(id, exclusive, false, other);
    } else {
      InclusiveStart(id, false);
    }
  }

  /** What the first page of the count of waiting entries leaves to count. */
  lemma PendingLeft(stream: seq<Id>, lastDelivered: Id, exclusive: bool)
    requires Countable(stream)
    ensures var bound := ParseBound(RangeStartAfter(Print(lastDelivered), exclusive, false));
            && |stream| - Skipped(stream, bound) >= |Newer(stream, lastDelivered)| == |stream| - FirstNewer(stream, lastDelivered)
            && (Skipped(stream, bound) == FirstNewer(stream, lastDelivered) <==> exclusive || StartTurns(stream, lastDelivered))
  {
    hide Print, RangeStartAfter, ParseBound, StartTurns;
    var bound, first := ParseBound(RangeStartAfter(Print(lastDelivered), exclusive, false)), FirstNewer(stream, lastDelivered);
    forall x | x in stream && Less(lastDelivered, x)
      ensures Admits(bound, x)
    {
      StartAdmitsNewer(lastDelivered, exclusive, x);
    }
    StartsTooEarly(stream, lastDelivered, bound);
    FirstPageStarts(stream, lastDelivered, exclusive);
    forall i | 0 <= i < |stream|
      ensures Less(lastDelivered, stream[i]) <==> first <= i
    {
      SkippedSplits(stream, Beyond(lastDelivered), i);
    }
    NewerIsSuffix(stream, lastDelivered, first);
    if exclusive || StartTurns(stream, lastDelivered) {
      FirstNewerSplits(stream, lastDelivered, bound);
    }
  }

  /**
   The count of waiting entries ends with the right number, after however many pages, exactly when the range can start
   exclusively or neither the first start nor the end of a full page lies at the top of the sequence range with more of
   its millisecond behind it. Whenever it ends it counts at least that many.
   */
  lemma PendingCountExactly(stream: seq<Id>, lastDelivered: Id, exclusive: bool, pageSize: nat, fuel: nat)
    requires Countable(stream) && pageSize >= 1
    ensures var start, right := RangeStartAfter(Print(lastDelivered), exclusive, false), |Newer(stream, lastDelivered)|;
            var total := PageLoop(stream, First, start, exclusive, pageSize, fuel);
            var turns := exclusive || (&& StartTurns(stream, lastDelivered)
                                       && PagesTurn(stream, FirstNewer(stream, lastDelivered), pageSize));
            && (total.Some? ==> total.value >= right && (total.value == right <==> turns))
            && (turns && fuel > |stream| ==> total == Some(right))
  {
    hide Print, RangeStartAfter, ParseBound, PageLoop, PagesTurn, StartTurns, Harmless, Newer, Admits;
    var start := RangeStartAfter(Print(lastDelivered), exclusive, false);
    var k, first := Skipped(stream, ParseBound(start)), FirstNewer(stream, lastDelivered);
    PendingLeft(stream, lastDelivered, exclusive);
    LiveAll(stream[k..]);
    if k == first && (exclusive || PagesTurn(stream, first, pageSize)) && fuel > |stream| {
      LoopEnds(stream, First, start, exclusive, pageSize, fuel);
    }
    if PageLoop(stream, First, start, exclusive, pageSize, fuel).Some? {
      LoopCounts(stream, First, start, exclusive, pageSize, fuel);
      if Harmless(stream, First, start, exclusive, pageSize, fuel) {
        HarmlessTurns(stream, start, exclusive, pageSize, fuel);
      } else if k == first && (exclusive || PagesTurn(stream, first, pageSize)) {
        TurningIsHarmless(stream, First, start, exclusive, pageSize, fuel);
      }
    }
  }

  lemma {:induction false} TurningIsHarmless(
    ids: seq<Id>, low: Bound, start: string, exclusive: bool, pageSize: nat, fuel: nat)
    requires Sorted(ids) && pageSize >= 1
    requires exclusive || PagesTurn(ids, Skipped(ids, ParseBound(start)), pageSize)
    ensures Harmless(ids, low, start, exclusive, pageSize, fuel)
    decreases fuel
  {
    hide Print, RangeStartAfter, ParseBound, Sorted, Range, Admits;
    if fuel > 0 {
      var k, page := Skipped(ids, ParseBound(start)), Range(ids, start, pageSize);
      PageAt(ids, start, exclusive, pageSize);
      if k + pageSize <= |ids| {
        TurningIsHarmless(ids, low, RangeStartAfter(Print(page[pageSize - 1]), exclusive, true), exclusive, pageSize, fuel - 1);
      }
    }
  }

  /**
   Entries waiting to be delivered, page by page. Wherever the loop ends its total is what the pages add up to, at least
   the number of entries above the last delivered identifier, and that number exactly when no page starts too early.
   */
  method CountPending(stream: seq<Id>, lastDelivered: Id, exclusive: bool, pageSize: nat, ghost fuel: nat)
    returns (total: nat)
    requires Countable(stream) && pageSize >= 1
    requires PageLoop(stream, First, RangeStartAfter(Print(lastDelivered), exclusive, false), exclusive, pageSize, fuel).Some?
    ensures Some(total) == PageLoop(stream, First, RangeStartAfter(Print(lastDelivered), exclusive, false), exclusive,
                                    pageSize, fuel)
    ensures total >= |Newer(stream, lastDelivered)|
    ensures total == |Newer(stream, lastDelivered)|
            <==> exclusive || (&& StartTurns(stream, lastDelivered)
                               && PagesTurn(stream, FirstNewer(stream, lastDelivered), pageSize))
  {
    hide Print, RangeStartAfter, StartTurns, PagesTurn, Newer, Countable, Live, PageLoop, Harmless, Range, Admits, Less,
         FirstNewer;
    PendingCountExactly(stream, lastDelivered, exclusive, pageSize, fuel);
    total := 0;
    var start := RangeStartAfter(Print(lastDelivered), exclusive, false);
    ghost var sum := PageLoop(stream, First, start, exclusive, pageSize, fuel).value;
    ghost var left := fuel;
    while true
      invariant PageLoop(stream, First, start, exclusive, pageSize, left).Some?
      invariant total + PageLoop(stream, First, start, exclusive, pageSize, left).value == sum
      decreases left
    {
      if left == 0 {
        NoFuelNoEnd(stream, First, start, exclusive, pageSize);
        assert false;
      }
      LoopUnfolds(stream, First, start, exclusive, pageSize, left);
      var reply := Range(stream, start, pageSize);
      LiveAll(reply);
      if reply == [] {
        break;
      }
      total := total + |reply|;
      if |reply| < pageSize {
        break;
      }
      start := RangeStartAfter(Print(reply[|reply| - 1]), exclusive, true);
      left := left - 1;
    }
  }

  // ----- Entries at work -----------------------------------------------------------------------

  /** A claimed entry whose identifier is below everything the stream still holds was trimmed away. */
  predicate IsTombstoned(entry: string, minStreamId: Option<string>) {
    match minStreamId
    case None => true
    case Some(min) => LessText(entry, min)
  }

  /** The smallest identifier in the stream, as text. */
  function MinId(stream: seq<Id>): Option<string> {
    var page := Range(stream, "-", 1);
    if page == [] then None else Some(Print(page[0]))
  }

  /** The claimed identifiers that are not below the start of the stream. */
  ghost function Processable(claimed: seq<Id>, stream: seq<Id>): set<Id> {
    set x | x in claimed && stream != [] && !Less(x, stream[0])
  }

  lemma TombstonedExactly(stream: seq<Id>, x: Id)
    ensures IsTombstoned(Print(x), MinId(stream)) <==> stream == [] || Less(x, stream[0])
  {
    if stream != [] {
      assert Skipped(stream, First) == 0;
      assert MinId(stream) == Some(Print(stream[0]));
      LessTextIsTotalOrder(x, stream[0], x);
    }
  }

  lemma ProcessableGrows(claimed: seq<Id>, stream: seq<Id>, k: nat)
    requires Sorted(claimed) && k < |claimed|
    ensures |Processable(claimed[..k + 1], stream)| ==
            |Processable(claimed[..k], stream)| + if stream == [] || Less(claimed[k], stream[0]) then 0 else 1
  {
    var x := claimed[k];
    assert claimed[..k + 1] == claimed[..k] + [x];
    assert x !in claimed[..k];
    if stream == [] || Less(x, stream[0]) {
      assert Processable(claimed[..k + 1], stream) == Processable(claimed[..k], stream);
    } else {
      assert Processable(claimed[..k + 1], stream) == Processable(claimed[..k], stream) + {x};
    }
  }

  /** The bound that admits what is not below the start of the stream. */
  function Low(stream: seq<Id>): Bound {
    if stream == [] then Unreadable else From(stream[0])
  }

  lemma LowAdmits(stream: seq<Id>, x: Id)
    ensures Admits(Low(stream), x) <==> !(stream == [] || Less(x, stream[0]))
  {
  }

  lemma {:induction false} ProcessableIsLive(claimed: seq<Id>, stream: seq<Id>)
    requires Sorted(claimed)
    ensures |Processable(claimed, stream)| == Live(claimed, Low(stream))
  {
    if claimed == [] {
      assert Processable(claimed, stream) == {};
    } else {
      var k := |claimed| - 1;
      SortedSlice(claimed, 0, k);
      assert claimed[0..k] == claimed[..k] && claimed[..k + 1] == claimed;
      ProcessableIsLive(claimed[..k], stream);
      ProcessableGrows(claimed, stream, k);
    }
  }

  /**
   The count of entries at work is right exactly when no page that the next one overlaps ends with an entry that is still
   in the stream, and otherwise it is too high, if it ends at all.
   */
  lemma InProgressCountExactly(claimed: seq<Id>, stream: seq<Id>, exclusive: bool, pageSize: nat, fuel: nat)
    requires Countable(claimed) && pageSize >= 1
    ensures var total, right := PageLoop(claimed, Low(stream), "-", exclusive, pageSize, fuel), |Processable(claimed, stream)|;
            && (total.Some? ==>
                  && total.value >= right
                  && (total.value == right <==> Harmless(claimed, Low(stream), "-", exclusive, pageSize, fuel)))
            && (exclusive || PagesTurn(claimed, 0, pageSize) ==>
                  && Harmless(claimed, Low(stream), "-", exclusive, pageSize, fuel)
                  && (fuel > |claimed| ==> total == Some(right)))
  {
    assert Skipped(claimed, ParseBound("-")) == 0 && claimed[0..] == claimed;
    hide Print, RangeStartAfter, ParseBound, PageLoop, PagesTurn, Harmless, Processable, Admits, Low, Live;
    ProcessableIsLive(claimed, stream);
    if exclusive || PagesTurn(claimed, 0, pageSize) {
      TurningIsHarmless(claimed, Low(stream), "-", exclusive, pageSize, fuel);
      if fuel > |claimed| {
        LoopEnds(claimed, Low(stream), "-", exclusive, pageSize, fuel);
      }
    }
    if PageLoop(claimed, Low(stream), "-", exclusive, pageSize, fuel).Some? {
      LoopCounts(claimed, Low(stream), "-", exclusive, pageSize, fuel);
    }
  }

  /** Entries claimed and still in the stream, page by page, wherever the loop ends. */
  method CountInProgress(claimed: seq<Id>, stream: seq<Id>, exclusive: bool, pageSize: nat, ghost fuel: nat)
    returns (total: nat)
    requires Countable(claimed) && pageSize >= 1
    requires PageLoop(claimed, Low(stream), "-", exclusive, pageSize, fuel).Some?
    ensures Some(total) == PageLoop(claimed, Low(stream), "-", exclusive, pageSize, fuel)
    ensures total >= |Processable(claimed, stream)|
    ensures total == |Processable(claimed, stream)| <==> Harmless(claimed, Low(stream), "-", exclusive, pageSize, fuel)
    ensures exclusive || PagesTurn(claimed, 0, pageSize) ==> total == |Processable(claimed, stream)|
  {
    hide Print, RangeStartAfter, PagesTurn, Processable, Countable, Harmless, LessText, MinId, Range, PageLoop, Less, Low,
         Admits, IsTombstoned;
    InProgressCountExactly(claimed, stream, exclusive, pageSize, fuel);
    total := 0;
    var start := "-";
    var minId := MinId(stream);
    ghost var low := Low(stream);
    ghost var sum := PageLoop(claimed, low, start, exclusive, pageSize, fuel).value;
    ghost var left := fuel;
    while true
      invariant PageLoop(claimed, low, start, exclusive, pageSize, left).Some?
      invariant total + PageLoop(claimed, low, start, exclusive, pageSize, left).value == sum
      decreases left
    {
      if left == 0 {
        NoFuelNoEnd(claimed, low, start, exclusive, pageSize);
        assert false;
      }
      LoopUnfolds(claimed, low, start, exclusive, pageSize, left);
      var reply := Range(claimed, start, pageSize);
      if reply == [] {
        break;
      }
      ghost var before := total;
      for n := 0 to |reply|
        invariant total == before + Live(reply[..n], low)
      {
        assert reply[..n + 1][..n] == reply[..n];
        TombstonedExactly(stream, reply[n]);
        LowAdmits(stream, reply[n]);
        if !IsTombstoned(Print(reply[n]), minId) {
          total := total + 1;
        }
      }
      assert reply[..|reply|] == reply;
      if |reply| < pageSize {
        break;
      }
      start := RangeStartAfter(Print(reply[|reply| - 1]), exclusive, true);
      left := left - 1;
    }
  }
}
