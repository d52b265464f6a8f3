/** The script that stores the shared autoclaim cursor. */
module Cursor {
  import opened Wrappers
  import opened StreamId

  const DOUBLE_EXACT: int := 0x20_0000_0000_0000

  /** Spacing of the double-precision numbers around `n`. */
  function Spacing(n: nat): (u: nat)
    ensures u >= 1
    ensures n < DOUBLE_EXACT ==> u == 1
  {
    if n < DOUBLE_EXACT then 1 else 2 * Spacing(n / 2)
  }

  /** What the script computes with: the nearest double, and the even neighbour on a tie. */
  function Double(n: nat): nat {
    var u := Spacing(n);
    var low := n / u;
    var rest := n % u;
    if 2 * rest < u || (2 * rest == u && low % 2 == 0) then low * u else (low + 1) * u
  }

  predicate ScriptGreater(a: Id, b: Id) {
    Double(a.ms) > Double(b.ms) || (Double(a.ms) == Double(b.ms) && Double(a.serial) > Double(b.serial))
  }

  /** One invocation: what is stored under the cursor key afterwards. */
  function Write(stored: Option<Id>, cursor: Id): Id {
    if cursor == ZERO then cursor
    else
      match stored
      case None => cursor
      case Some(held) => if ScriptGreater(cursor, held) then cursor else held
  }

  predicate Within(id: Id, bound: nat) {
    id.ms <= bound && id.serial <= bound
  }

  predicate Exact(id: Id) {
    Within(id, DOUBLE_EXACT)
  }

  lemma DoubleIsExact(n: nat)
    requires n <= DOUBLE_EXACT
    ensures Double(n) == n
  {
    if n == DOUBLE_EXACT {
      assert Spacing(DOUBLE_EXACT / 2) == 1;
    }
  }

  lemma ExactComparison(a: Id, b: Id)
    requires Exact(a) && Exact(b)
    ensures ScriptGreater(a, b) <==> Less(b, a)
  {
    DoubleIsExact(a.ms);
    DoubleIsExact(a.serial);
    DoubleIsExact(b.ms);
    DoubleIsExact(b.serial);
  }

  const TOP: Id := Id(DOUBLE_EXACT, 0)
  const ABOVE_TOP: Id := Id(DOUBLE_EXACT + 1, 0)

  lemma NeighboursMeet()
    ensures Double(DOUBLE_EXACT + 1) == Double(DOUBLE_EXACT) == DOUBLE_EXACT
  {
    assert Spacing(DOUBLE_EXACT / 2) == 1;
    assert Spacing(DOUBLE_EXACT) == 2;
    assert (DOUBLE_EXACT + 1) / 2 == DOUBLE_EXACT / 2;
    assert Spacing(DOUBLE_EXACT + 1) == 2;
  }

  /** The script orders all identifiers with components up to a bound correctly exactly when the bound is at most 2^53. */
  lemma ExactUpTo(bound: nat)
    ensures (forall a, b | Within(a, bound) && Within(b, bound) :: ScriptGreater(a, b) <==> Less(b, a))
            <==> bound <= DOUBLE_EXACT
  {
    if bound <= DOUBLE_EXACT {
      forall a, b | Within(a, bound) && Within(b, bound)
        ensures ScriptGreater(a, b) <==> Less(b, a)
      {
        ExactComparison(a, b);
      }
    } else {
      NeighboursMeet();
      assert Within(ABOVE_TOP, bound) && Within(TOP, bound) && Less(TOP, ABOVE_TOP) && !ScriptGreater(ABOVE_TOP, TOP);
    }
  }

  /** Just beyond the bound the script drops an advance, and it also moves the cursor back. */
  lemma InexactComparison(back: Id)
    requires back == Id(DOUBLE_EXACT, 5)
    ensures Less(TOP, ABOVE_TOP) && Write(Some(TOP), ABOVE_TOP) == TOP
    ensures Less(back, ABOVE_TOP) && Write(Some(ABOVE_TOP), back) == back
  {
    NeighboursMeet();
    DoubleIsExact(5);
    DoubleIsExact(0);
  }

  /** Any interleaving of writers is one sequence of invocations. */
  function WriteAll(stored: Option<Id>, writes: seq<Id>): Option<Id>
    decreases |writes|
  {
    if writes == [] then stored
    else Some(Write(WriteAll(stored, writes[..|writes| - 1]), writes[|writes| - 1]))
  }

  /** The writes since the cursor was last sent back to the start, that one included. */
  function SinceReset(writes: seq<Id>): seq<Id>
    decreases |writes|
  {
    if writes == [] then []
    else if writes[|writes| - 1] == ZERO then [ZERO]
    else SinceReset(writes[..|writes| - 1]) + [writes[|writes| - 1]]
  }

  /** The stored cursor is the greatest write since the last reset, so slow writers never move it back in between. */
  lemma {:induction false} StoredIsGreatest(writes: seq<Id>)
    requires forall i | 0 <= i < |writes| :: Exact(writes[i])
    requires writes != []
    ensures WriteAll(None, writes).Some?
    ensures WriteAll(None, writes).value in SinceReset(writes)
    ensures forall x | x in SinceReset(writes) :: !Less(WriteAll(None, writes).value, x)
    decreases |writes|
  {
    var front, last := writes[..|writes| - 1], writes[|writes| - 1];
    assert Exact(last);
    if last != ZERO {
      if front == [] {
        assert WriteAll(None, front) == None;
        assert SinceReset(front) == [];
      } else {
        StoredIsGreatest(front);
        var held := WriteAll(None, front).value;
        SinceResetFrom(front);
        assert Exact(held);
        ExactComparison(last, held);
        assert WriteAll(None, writes) == Some(Write(Some(held), last));
        assert SinceReset(writes) == SinceReset(front) + [last];
      }
    }
  }

  lemma {:induction false} SinceResetFrom(writes: seq<Id>)
    ensures forall x | x in SinceReset(writes) :: x in writes
    decreases |writes|
  {
    if writes != [] {
      SinceResetFrom(writes[..|writes| - 1]);
      assert writes == writes[..|writes| - 1] + [writes[|writes| - 1]];
    }
  }
}
