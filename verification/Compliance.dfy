/** The acknowledgements of a claim are moves of records and queue together: a load, and what it settles. */
module Compliance {
  import opened Wrappers
  import opened StreamId
  import opened Batches
  import Redis
  import WorkQueue
  import Claiming
  import Delivery

  /** Nobody else uses this worker's place. */
  predicate Spares(move: Delivery.Move, worker: nat) {
    match move
    case Load(w, _, _) => w != worker
    case Settle(w) => w != worker
    case _ => true
  }

  lemma {:induction false} FoundKept(s: Delivery.Site, moves: seq<Delivery.Move>, worker: nat)
    requires worker in s.found && forall m | m in moves :: Spares(m, worker)
    ensures var s' := Delivery.MakeAll(s, moves); worker in s'.found && s'.found[worker] == s.found[worker]
    decreases |moves|
  {
    if moves != [] {
      assert moves[0] in moves && forall m | m in moves[1..] :: m in moves;
      MoveKeepsFound(s, moves[0], worker);
      hide Delivery.Make;
      FoundKept(Delivery.Make(s, moves[0]), moves[1..], worker);
    }
  }

  lemma MoveKeepsFound(s: Delivery.Site, move: Delivery.Move, worker: nat)
    requires worker in s.found && Spares(move, worker)
    ensures worker in Delivery.Make(s, move).found && Delivery.Make(s, move).found[worker] == s.found[worker]
  {
  }

  /**
   What a worker does about an entry it has claimed: its load is a Load move wherever the store answers it so, and, with
   anything in between, its acknowledgement is what the Settle move does to the queue.
   */
  lemma AcknowledgementIsMoves(
    s: Delivery.Site, worker: nat, i: nat, load: Load, between: seq<Delivery.Move>, ack: WorkQueue.Action)
    requires i < |s.queue.added| && s.queue.added[i].responseId.Some?
    requires !Less(s.queue.lastDelivered, s.queue.added[i].id)
    requires load == LoadRecord(s.records.db, s.queue.added[i].responseId.value, false)
    requires ack.Acknowledge? && ack.id == s.queue.added[i].id && FateOf(s.queue.added[i], load) == Settled(ack.reason)
    requires forall m | m in between :: Spares(m, worker)
    ensures var loaded := Delivery.Make(s, Delivery.Load(worker, i, false));
            var late := Delivery.MakeAll(loaded, between);
            var after := Delivery.Make(late, Delivery.Settle(worker));
            && loaded.queue == s.queue && loaded.records == s.records
            && after.queue == WorkQueue.Apply(late.queue, ack) && after.records == late.records
  {
    var loaded := Delivery.Make(s, Delivery.Load(worker, i, false));
    FoundKept(loaded, between, worker);
    hide WorkQueue.Apply, Delivery.MakeAll, LoadRecord, FateOf;
  }

  // ----- The acknowledgements of a claim -------------------------------------------------------

  /** An entry that has been delivered. */
  ghost predicate Known(q: WorkQueue.Queue, entry: WorkQueue.StreamEntry) {
    entry in q.added && !Less(q.lastDelivered, entry.id)
  }

  lemma KnownStays(q: WorkQueue.Queue, action: WorkQueue.Action, entry: WorkQueue.StreamEntry)
    requires WorkQueue.Inv(q) && Known(q, entry)
    ensures Known(WorkQueue.Apply(q, action), entry)
  {
    hide WorkQueue.Inv, Less, WorkQueue.Apply;
    WorkQueue.DeliveryGrows(q, action);
    AddedStays(q, action);
    Claiming.DeliveryChain(entry.id, q.lastDelivered, WorkQueue.Apply(q, action).lastDelivered);
    var added, added' := q.added, WorkQueue.Apply(q, action).added;
    var k :| 0 <= k < |added| && added[k] == entry;
    assert added'[k] == entry;
  }

  lemma {:induction false} KnownFrom(
    origin: WorkQueue.Queue, steps: seq<Claiming.Step>, i: nat, t: nat, entry: WorkQueue.StreamEntry)
    requires WorkQueue.Inv(origin) && i <= t <= |steps| && Known(Claiming.RunSteps(origin, steps[..i]), entry)
    ensures Known(Claiming.RunSteps(origin, steps[..t]), entry)
  {
    hide WorkQueue.Inv, WorkQueue.Apply, Known;
    if i < t {
      KnownFrom(origin, steps, i, t - 1, entry);
      InvFrom(origin, steps, t - 1);
      assert steps[..t][..t - 1] == steps[..t - 1];
      if steps[t - 1].Mine? || steps[t - 1].Theirs? {
        KnownStays(Claiming.RunSteps(origin, steps[..t - 1]), steps[t - 1].action, entry);
      }
    }
  }

  lemma {:induction false} InvFrom(origin: WorkQueue.Queue, steps: seq<Claiming.Step>, t: nat)
    requires WorkQueue.Inv(origin) && t <= |steps|
    ensures WorkQueue.Inv(Claiming.RunSteps(origin, steps[..t]))
  {
    hide WorkQueue.Inv, WorkQueue.Apply;
    if t > 0 {
      InvFrom(origin, steps, t - 1);
      assert steps[..t][..t - 1] == steps[..t - 1];
      if steps[t - 1].Mine? || steps[t - 1].Theirs? {
        WorkQueue.ActionKeeps(Claiming.RunSteps(origin, steps[..t - 1]), steps[t - 1].action);
      }
    }
  }

  /** What a scan took was delivered before. */
  lemma TakenIsKnown(
    origin: WorkQueue.Queue, steps: seq<Claiming.Step>, i: nat, request: nat, count: nat,
    entries: seq<WorkQueue.StreamEntry>, k: nat)
    requires WorkQueue.Inv(origin) && Claiming.Took(origin, steps, i, request, count, entries) && k < |entries|
    ensures Known(Claiming.RunSteps(origin, steps[..i]), entries[k])
  {
    hide WorkQueue.Inv, Less, WorkQueue.ScanAt, WorkQueue.Apply, Claiming.RunSteps;
    InvFrom(origin, steps, i);
    var q := Claiming.RunSteps(origin, steps[..i]);
    Claiming.ScanIsDelivered(q, request, count, steps[i].action.idle);
    var ids := WorkQueue.ScanAt(q, q.readers[request].cursor, count, steps[i].action.idle).taken;
    assert ids[k] in ids && WorkQueue.Ids(entries)[k] == ids[k];
    EntryIsThere(WorkQueue.Retained(q), ids[k]);
  }

  lemma {:induction false} EntryIsThere(stream: seq<WorkQueue.StreamEntry>, id: Id)
    requires id in WorkQueue.Ids(stream)
    ensures Claiming.EntryFor(stream, id) in stream
  {
    if stream[0].id != id {
      var i :| 0 <= i < |stream| && WorkQueue.Ids(stream)[i] == id;
      assert WorkQueue.Ids(stream[1..])[i - 1] == id;
      EntryIsThere(stream[1..], id);
    }
  }

  /** What a read returned is delivered with it. */
  lemma FetchedIsKnown(
    origin: WorkQueue.Queue, steps: seq<Claiming.Step>, i: nat, count: nat, entries: seq<WorkQueue.StreamEntry>, k: nat)
    requires WorkQueue.Inv(origin) && Claiming.Fetched(origin, steps, i, count, entries) && k < |entries|
    ensures Known(Claiming.RunSteps(origin, steps[..i + 1]), entries[k])
  {
    hide WorkQueue.Inv, Less, WorkQueue.Deliver, WorkQueue.FirstNew, WorkQueue.EndNew;
    InvFrom(origin, steps, i);
    assert steps[..i + 1][..i] == steps[..i];
    var q := Claiming.RunSteps(origin, steps[..i]);
    Claiming.UndeliveredIsNew(q, count);
    assert WorkQueue.Ids(entries)[k] == entries[k].id;
    AddedStays(q, WorkQueue.ReadGroup(count));
  }

  lemma AddedStays(q: WorkQueue.Queue, action: WorkQueue.Action)
    ensures q.added <= WorkQueue.Apply(q, action).added
  {
  }

  /**
   Every acknowledgement by a claim settles an entry of the claim for what the store held under its key at an earlier
   moment of the claim, when the entry had been delivered.
   */
  lemma ClaimComplies(
    origin: WorkQueue.Queue, start: Claiming.Trail, end: Claiming.Trail, request: nat, options: Claiming.ClaimOptions,
    a: Claiming.Account, p: nat) returns (entry: WorkQueue.StreamEntry, load: Load, t: nat)
    requires WorkQueue.Inv(origin) && Claiming.Claimed(origin, start, end, request, options, a)
    requires |start.steps| <= p < |end.steps| && Claiming.IsAck(end.steps[p])
    ensures entry in a.rescued.entries || entry in a.fetched.entries
    ensures |start.steps| <= t < p && Loaded(origin, end.steps, t, entry, load)
    ensures Claiming.Settles(end.steps[p], entry, load)
  {
    hide WorkQueue.Inv, Claiming.Claimed, Claiming.Took, Claiming.Fetched, Claiming.RunSteps, Known, LoadRecord,
      Claiming.Remaining;
    var h, k, at := Claiming.AcknowledgesOnlyLost(origin, start, end, request, options, a, p);
    entry, load, t := h.entries[k], h.loads[k], at;
    if i: nat :| |start.steps| <= i < t && Claiming.Took(origin, end.steps, i, request, options.count, h.entries) {
      TakenIsKnown(origin, end.steps, i, request, options.count, h.entries, k);
      KnownFrom(origin, end.steps, i, t, entry);
    } else {
      var count := Claiming.Remaining(a.rescued, options);
      var i: nat :| |start.steps| <= i < t && Claiming.Fetched(origin, end.steps, i, count, h.entries);
      FetchedIsKnown(origin, end.steps, i, count, h.entries, k);
      KnownFrom(origin, end.steps, i + 1, t, entry);
    }
  }

  /** At step `t` the store answers a load of this delivered entry so. */
  ghost predicate Loaded(
    origin: WorkQueue.Queue, steps: seq<Claiming.Step>, t: nat, entry: WorkQueue.StreamEntry, load: Load)
  {
    && t < |steps| && steps[t].Stored? && entry.responseId.Some?
    && load == LoadRecord(steps[t].db, entry.responseId.value, false)
    && Known(Claiming.RunSteps(origin, steps[..t]), entry)
  }

  /**
   So load and acknowledgement are moves of one run of records and queue together: from a site as it was at the load,
   the Load move, any moves that lead the queue to where the acknowledgement found it, and the Settle move lead the
   queue to where the acknowledgement left it.
   */
  lemma ClaimIsMoves(
    origin: WorkQueue.Queue, steps: seq<Claiming.Step>, t: nat, p: nat, entry: WorkQueue.StreamEntry, load: Load,
    s: Delivery.Site, worker: nat, i: nat, between: seq<Delivery.Move>)
    requires t < p < |steps| && Loaded(origin, steps, t, entry, load) && Claiming.Settles(steps[p], entry, load)
    requires s.queue == Claiming.RunSteps(origin, steps[..t]) && s.records.db == steps[t].db
    requires i < |s.queue.added| && s.queue.added[i] == entry && forall m | m in between :: Spares(m, worker)
    requires Delivery.MakeAll(Delivery.Make(s, Delivery.Load(worker, i, false)), between).queue
             == Claiming.RunSteps(origin, steps[..p])
    ensures Delivery.Allowed(s, Delivery.Load(worker, i, false))
    ensures Delivery.MakeAll(s, [Delivery.Load(worker, i, false)] + between + [Delivery.Settle(worker)]).queue
            == Claiming.RunSteps(origin, steps[..p + 1])
  {
    hide LoadRecord, FateOf, WorkQueue.Apply, Delivery.Make, Delivery.MakeAll;
    var first, last := Delivery.Load(worker, i, false), Delivery.Settle(worker);
    AcknowledgementIsMoves(s, worker, i, load, between, steps[p].action);
    assert ([first] + between + [last])[1..] == between + [last];
    FirstMove(s, first, between + [last]);
    LastMove(Delivery.Make(s, first), between, last);
    assert [first] + (between + [last]) == [first] + between + [last];
    assert steps[..p + 1][..p] == steps[..p];
  }

  lemma FirstMove(s: Delivery.Site, move: Delivery.Move, moves: seq<Delivery.Move>)
    ensures Delivery.MakeAll(s, [move] + moves) == Delivery.MakeAll(Delivery.Make(s, move), moves)
  {
    assert ([move] + moves)[1..] == moves;
  }

  lemma {:induction false} LastMove(s: Delivery.Site, moves: seq<Delivery.Move>, move: Delivery.Move)
    ensures Delivery.MakeAll(s, moves + [move]) == Delivery.Make(Delivery.MakeAll(s, moves), move)
    decreases |moves|
  {
    hide Delivery.Make;
    if moves == [] {
      assert (moves + [move])[1..] == [];
      assert Delivery.MakeAll(Delivery.Make(s, move), []) == Delivery.Make(s, move);
    } else {
      assert (moves + [move])[1..] == moves[1..] + [move];
      LastMove(Delivery.Make(s, moves[0]), moves[1..], move);
    }
  }
}
