/**
 Records and queue together: jobs that are stored and then published, claimed entries whose records are loaded, and
 acknowledgements. What an acknowledged entry stands for is stated against the log of the records.
 */
module Delivery {
  import opened Wrappers
  import opened StreamId
  import opened Redis
  import opened Invariant
  import opened Batches
  import Protocol
  import Safety
  import Deletion
  import WorkQueue
  import Transitions

  type Records = Protocol.System
  type Queue = WorkQueue.Queue
  type StreamEntry = WorkQueue.StreamEntry

  /** A job that EnqueueBackgroundJob has stored and not yet published; `at` is the length of the log after the store. */
  datatype Posting = Posting(id: string, at: nat)

  /** What a worker found under an entry's key when the log had length `at`. */
  datatype Found = Found(entry: StreamEntry, load: Load, at: nat)

  /** `born` and `proofs` record which store a published entry belongs to, and the load behind an acknowledgement. */
  datatype Site = Site(
    records: Records, queue: Queue, posted: map<nat, Posting>, found: map<nat, Found>,
    born: map<Id, nat>, proofs: map<Id, Found>)

  datatype Move =
    | OnRecords(action: Protocol.Action)
    | Persist(request: nat)
    | Publish(request: nat, x: Id, trim: nat)
    | OnQueue(step: WorkQueue.Action)
    | Load(worker: nat, i: nat, unreachable: bool)
    | Settle(worker: nat)

  predicate Allowed(s: Site, move: Move) {
    match move
    case OnRecords(_) => true
    case Persist(request) =>
      request in s.records.pending && s.records.pending[request].PendingStore? && request !in s.posted
    case Publish(request, x, trim) =>
      request in s.posted && WorkQueue.Enabled(s.queue, WorkQueue.Enqueue(x, Some(s.posted[request].id), trim))
    case OnQueue(action) => !action.Enqueue? && (action.Acknowledge? ==> action.reason.ByRpc?)
    case Load(_, i, _) =>
      && i < |s.queue.added| && s.queue.added[i].responseId.Some?
      && !Less(s.queue.lastDelivered, s.queue.added[i].id)
    case Settle(worker) => worker in s.found && FateOf(s.found[worker].entry, s.found[worker].load).Settled?
  }

  function AckOf(f: Found): WorkQueue.Action
    requires FateOf(f.entry, f.load).Settled?
  {
    WorkQueue.Acknowledge(f.entry.id, FateOf(f.entry, f.load).reason)
  }

  function Make(s: Site, move: Move): Site {
    if !Allowed(s, move) then s
    else
      match move
      case OnRecords(action) => s.(records := Protocol.Apply(s.records, action))
      case Persist(request) =>
        s.(records := Protocol.Apply(s.records, Protocol.FinishPending(request)),
           posted := s.posted[request := Posting(s.records.pending[request].id, |s.records.log| + 1)])
      case Publish(request, x, trim) =>
        s.(queue := WorkQueue.Apply(s.queue, WorkQueue.Enqueue(x, Some(s.posted[request].id), trim)),
           posted := s.posted - {request},
           born := s.born[x := s.posted[request].at])
      case OnQueue(action) => s.(queue := WorkQueue.Apply(s.queue, action))
      case Load(worker, i, unreachable) =>
        var entry := s.queue.added[i];
        s.(found := s.found[worker :=
             Found(entry, LoadRecord(s.records.db, entry.responseId.value, unreachable), |s.records.log|)])
      case Settle(worker) =>
        var f := s.found[worker];
        s.(queue := WorkQueue.Apply(s.queue, AckOf(f)),
           found := s.found - {worker},
           proofs := if f.entry.id in s.queue.claimed then s.proofs[f.entry.id := f] else s.proofs)
  }

  function MakeAll(s: Site, moves: seq<Move>): Site
    decreases |moves|
  {
    if moves == [] then s else MakeAll(Make(s, moves[0]), moves[1..])
  }

  // ----- What every run keeps ------------------------------------------------------------------

  /** The load answered what the first `at` logged modifications had left, or nothing. */
  ghost predicate Truthful(r: Records, added: seq<StreamEntry>, f: Found) {
    && f.entry in added && f.entry.responseId.Some?
    && f.at <= |r.log|
    && (f.load == Err(Transitions.Storage) || f.load == LoadOf(Current(r.origin, r.log[..f.at], f.entry.responseId.value)))
  }

  ghost predicate FoundOk(r: Records, added: seq<StreamEntry>, found: map<nat, Found>, proofs: map<Id, Found>) {
    && (forall w | w in found :: Truthful(r, added, found[w]))
    && (forall x | x in proofs :: Truthful(r, added, proofs[x]) && proofs[x].entry.id == x)
  }

  /** Whatever was acknowledged was acknowledged by the RPC, or for what a load found. */
  ghost predicate SettledOk(settled: map<Id, WorkQueue.Reason>, proofs: map<Id, Found>) {
    forall x | x in settled ::
      settled[x].ByRpc? || (x in proofs && FateOf(proofs[x].entry, proofs[x].load) == Settled(settled[x]))
  }

  ghost predicate StoredAt(r: Records, id: string, at: nat) {
    1 <= at <= |r.log| && r.log[at - 1].id == id && r.log[at - 1].cause.Stored?
  }

  /** A published entry belongs to a store of its record. */
  ghost predicate Sourced(r: Records, added: seq<StreamEntry>, x: Id, at: nat) {
    exists entry | entry in added :: entry.id == x && entry.responseId.Some? && StoredAt(r, entry.responseId.value, at)
  }

  ghost predicate PostedOk(r: Records, posted: map<nat, Posting>) {
    forall p | p in posted :: StoredAt(r, posted[p].id, posted[p].at)
  }

  ghost predicate BornOk(r: Records, added: seq<StreamEntry>, born: map<Id, nat>) {
    forall x | x in born :: Sourced(r, added, x, born[x])
  }

  /** A record is loaded only after it was stored. */
  ghost predicate InOrder(found: map<nat, Found>, proofs: map<Id, Found>, born: map<Id, nat>) {
    && (forall w | w in found && found[w].entry.id in born :: born[found[w].entry.id] <= found[w].at)
    && (forall x | x in proofs && x in born :: born[x] <= proofs[x].at)
  }

  ghost predicate Inv(s: Site) {
    && Safety.Inv(s.records) && WorkQueue.Inv(s.queue)
    && FoundOk(s.records, s.queue.added, s.found, s.proofs)
    && PostedOk(s.records, s.posted) && BornOk(s.records, s.queue.added, s.born)
    && InOrder(s.found, s.proofs, s.born)
    && SettledOk(s.queue.settled, s.proofs)
  }

  ghost predicate Initial(s: Site) {
    && Safety.Initial(s.records) && WorkQueue.Initial(s.queue)
    && s.posted == map[] && s.found == map[] && s.born == map[] && s.proofs == map[]
  }

  lemma InitialInv(s: Site)
    requires Initial(s)
    ensures Inv(s)
  {
    hide Safety.Inv, WorkQueue.Inv;
    Safety.InitialInv(s.records);
    WorkQueue.InitialInv(s.queue);
  }

  /** The log only grows at its end. */
  ghost predicate LogExtends(r: Records, r': Records) {
    r'.origin == r.origin && |r.log| <= |r'.log| && r'.log[..|r.log|] == r.log
  }

  lemma TruthStays(r: Records, r': Records, added: seq<StreamEntry>, added': seq<StreamEntry>, f: Found)
    requires Truthful(r, added, f) && LogExtends(r, r') && added <= added'
    ensures Truthful(r', added', f)
  {
    assert r'.log[..f.at] == r.log[..f.at];
    var i :| 0 <= i < |added| && added[i] == f.entry;
    assert added'[i] == f.entry;
  }

  lemma FoundStays(
    r: Records, r': Records, added: seq<StreamEntry>, added': seq<StreamEntry>, found: map<nat, Found>,
    proofs: map<Id, Found>)
    requires FoundOk(r, added, found, proofs) && LogExtends(r, r') && added <= added'
    ensures FoundOk(r', added', found, proofs)
  {
    hide Truthful, LogExtends;
    forall f | Truthful(r, added, f)
      ensures Truthful(r', added', f)
    {
      TruthStays(r, r', added, added', f);
    }
  }

  lemma StoreStays(r: Records, r': Records, id: string, at: nat)
    requires StoredAt(r, id, at) && LogExtends(r, r')
    ensures StoredAt(r', id, at)
  {
    assert r'.log[at - 1] == r'.log[..|r.log|][at - 1];
  }

  lemma BirthsStay(
    r: Records, r': Records, added: seq<StreamEntry>, added': seq<StreamEntry>, posted: map<nat, Posting>,
    born: map<Id, nat>)
    requires PostedOk(r, posted) && BornOk(r, added, born) && LogExtends(r, r') && added <= added'
    ensures PostedOk(r', posted) && BornOk(r', added', born)
  {
    hide StoredAt, LogExtends;
    forall id, at | StoredAt(r, id, at)
      ensures StoredAt(r', id, at)
    {
      StoreStays(r, r', id, at);
    }
    forall x | x in born
      ensures Sourced(r', added', x, born[x])
    {
      var i :| 0 <= i < |added| && added[i].id == x && added[i].responseId.Some?
               && StoredAt(r, added[i].responseId.value, born[x]);
      assert added'[i] == added[i] && added'[i] in added';
    }
  }

  lemma RecordsExtend(r: Records, action: Protocol.Action)
    requires Safety.Inv(r)
    ensures LogExtends(r, Protocol.Apply(r, action)) && Safety.Inv(Protocol.Apply(r, action))
  {
    hide Safety.Inv, Protocol.Apply;
    Deletion.LogOnlyGrows(r, action);
    Deletion.OriginKept(r, action);
    Safety.ActionKeeps(r, action);
  }

  lemma SameLog(r: Records)
    ensures LogExtends(r, r)
  {
  }

  lemma RecordsKeep(s: Site, action: Protocol.Action)
    requires Inv(s)
    ensures Inv(Make(s, OnRecords(action)))
  {
    hide Safety.Inv, WorkQueue.Inv, Protocol.Apply, FoundOk, InOrder, PostedOk, BornOk, SettledOk, LogExtends;
    RecordsExtend(s.records, action);
    var r' := Protocol.Apply(s.records, action);
    FoundStays(s.records, r', s.queue.added, s.queue.added, s.found, s.proofs);
    BirthsStay(s.records, r', s.queue.added, s.queue.added, s.posted, s.born);
  }

  lemma StoreIsLogged(r: Records, request: nat)
    requires request in r.pending && r.pending[request].PendingStore?
    ensures var r' := Protocol.Apply(r, Protocol.FinishPending(request));
            StoredAt(r', r.pending[request].id, |r.log| + 1)
  {
  }

  lemma PersistKeeps(s: Site, request: nat)
    requires Inv(s) && Allowed(s, Persist(request))
    ensures Inv(Make(s, Persist(request)))
  {
    hide Safety.Inv, WorkQueue.Inv, Protocol.Apply, FoundOk, InOrder, BornOk, SettledOk, LogExtends, StoredAt;
    StoreIsLogged(s.records, request);
    RecordsExtend(s.records, Protocol.FinishPending(request));
    var r' := Protocol.Apply(s.records, Protocol.FinishPending(request));
    FoundStays(s.records, r', s.queue.added, s.queue.added, s.found, s.proofs);
    BirthsStay(s.records, r', s.queue.added, s.queue.added, s.posted, s.born);
  }

  lemma NewIsUnknown(q: Queue, x: Id, entry: StreamEntry)
    requires WorkQueue.Inv(q) && Less(WorkQueue.LastAdded(q), x) && entry in q.added
    ensures entry.id != x
  {
    var i :| 0 <= i < |q.added| && q.added[i] == entry;
    if i < |q.added| - 1 {
      WorkQueue.AddedInOrder(q, i, |q.added| - 1);
    }
  }

  lemma NobodyLookedYet(
    r: Records, added: seq<StreamEntry>, found: map<nat, Found>, proofs: map<Id, Found>, born: map<Id, nat>, x: Id, at: nat)
    requires FoundOk(r, added, found, proofs) && InOrder(found, proofs, born)
    requires forall entry | entry in added :: entry.id != x
    ensures InOrder(found, proofs, born[x := at])
  {
    hide LoadOf, Current;
  }

  lemma BirthOk(r: Records, added: seq<StreamEntry>, born: map<Id, nat>, entry: StreamEntry, at: nat)
    requires BornOk(r, added, born) && entry in added && entry.responseId.Some? && StoredAt(r, entry.responseId.value, at)
    ensures BornOk(r, added, born[entry.id := at])
  {
    hide StoredAt;
    assert Sourced(r, added, entry.id, at);
  }

  lemma EnqueueEffect(q: Queue, x: Id, responseId: Option<string>, trim: nat)
    requires WorkQueue.Inv(q) && WorkQueue.Enabled(q, WorkQueue.Enqueue(x, responseId, trim))
    ensures var q' := WorkQueue.Apply(q, WorkQueue.Enqueue(x, responseId, trim));
            && WorkQueue.Inv(q')
            && q'.added == q.added + [WorkQueue.StreamEntry(x, responseId)] && q'.settled == q.settled
    ensures forall entry | entry in q.added :: entry.id != x
  {
    hide WorkQueue.Inv;
    WorkQueue.ActionKeeps(q, WorkQueue.Enqueue(x, responseId, trim));
    forall entry | entry in q.added
      ensures entry.id != x
    {
      NewIsUnknown(q, x, entry);
    }
  }

  lemma PublishKeeps(s: Site, request: nat, x: Id, trim: nat)
    requires Inv(s) && Allowed(s, Publish(request, x, trim))
    ensures Inv(Make(s, Publish(request, x, trim)))
  {
    hide Safety.Inv, WorkQueue.Inv, WorkQueue.Apply, WorkQueue.Enabled, FoundOk, InOrder, BornOk, SettledOk, StoredAt,
         LogExtends;
    var posting := s.posted[request];
    var entry := WorkQueue.StreamEntry(x, Some(posting.id));
    var added' := s.queue.added + [entry];
    EnqueueEffect(s.queue, x, Some(posting.id), trim);
    SameLog(s.records);
    FoundStays(s.records, s.records, s.queue.added, added', s.found, s.proofs);
    BirthsStay(s.records, s.records, s.queue.added, added', s.posted, s.born);
    NobodyLookedYet(s.records, s.queue.added, s.found, s.proofs, s.born, x, posting.at);
    BirthOk(s.records, added', s.born, entry, posting.at);
  }

  lemma QueueEffect(q: Queue, action: WorkQueue.Action)
    requires WorkQueue.Inv(q) && !action.Enqueue?
    ensures var q' := WorkQueue.Apply(q, action);
            && WorkQueue.Inv(q') && q'.added == q.added
            && forall x | x in q'.settled ::
                 || (x in q.settled && q'.settled[x] == q.settled[x])
                 || (action.Acknowledge? && action.id == x && q'.settled[x] == action.reason && x in q.claimed)
    ensures action.Acknowledge? && action.id !in q.claimed ==> WorkQueue.Apply(q, action) == q
  {
    WorkQueue.ActionKeeps(q, action);
    hide WorkQueue.Inv, WorkQueue.Undelivered, WorkQueue.ScanAt, WorkQueue.Without;
  }

  lemma QueueKeeps(s: Site, action: WorkQueue.Action)
    requires Inv(s) && Allowed(s, OnQueue(action))
    ensures Inv(Make(s, OnQueue(action)))
  {
    hide Safety.Inv, WorkQueue.Inv, WorkQueue.Apply, FoundOk, InOrder, PostedOk, BornOk;
    QueueEffect(s.queue, action);
  }

  lemma LoadTells(r: Records, id: string, unreachable: bool)
    requires Safety.Inv(r)
    ensures var load := LoadRecord(r.db, id, unreachable);
            load == Err(Transitions.Storage) || load == LoadOf(Current(r.origin, r.log[..|r.log|], id))
  {
    assert r.log[..|r.log|] == r.log;
    assert Current(r.origin, r.log, id) == Lookup(r.db, id);
    hide Safety.Inv, Current, LoadOf;
  }

  lemma FoundMore(
    r: Records, added: seq<StreamEntry>, found: map<nat, Found>, proofs: map<Id, Found>, born: map<Id, nat>,
    worker: nat, f: Found)
    requires FoundOk(r, added, found, proofs) && InOrder(found, proofs, born) && BornOk(r, added, born)
    requires Truthful(r, added, f) && f.at == |r.log|
    ensures FoundOk(r, added, found[worker := f], proofs) && InOrder(found[worker := f], proofs, born)
  {
    hide Truthful;
  }

  lemma LoadKeeps(s: Site, worker: nat, i: nat, unreachable: bool)
    requires Inv(s) && Allowed(s, Load(worker, i, unreachable))
    ensures Inv(Make(s, Load(worker, i, unreachable)))
  {
    hide Safety.Inv, WorkQueue.Inv, Current, LoadOf, LoadRecord, PostedOk, SettledOk, FoundOk, InOrder, BornOk;
    var entry := s.queue.added[i];
    LoadTells(s.records, entry.responseId.value, unreachable);
    var f := Found(entry, LoadRecord(s.records.db, entry.responseId.value, unreachable), |s.records.log|);
    FoundMore(s.records, s.queue.added, s.found, s.proofs, s.born, worker, f);
  }

  lemma ProofMade(
    r: Records, added: seq<StreamEntry>, found: map<nat, Found>, proofs: map<Id, Found>, born: map<Id, nat>, worker: nat)
    requires FoundOk(r, added, found, proofs) && InOrder(found, proofs, born) && worker in found
    ensures var f := found[worker];
            && FoundOk(r, added, found - {worker}, proofs) && InOrder(found - {worker}, proofs, born)
            && FoundOk(r, added, found - {worker}, proofs[f.entry.id := f])
            && InOrder(found - {worker}, proofs[f.entry.id := f], born)
  {
    hide Truthful;
  }

  lemma SettledMore(q: Queue, q': Queue, proofs: map<Id, Found>, f: Found, action: WorkQueue.Action)
    requires SettledOk(q.settled, proofs) && FateOf(f.entry, f.load).Settled? && action == AckOf(f)
    requires forall x | x in q'.settled ::
               || (x in q.settled && q'.settled[x] == q.settled[x] && (x == f.entry.id ==> x !in q.claimed))
               || (action.id == x && q'.settled[x] == action.reason)
    requires f.entry.id in q.claimed
    ensures SettledOk(q'.settled, proofs[f.entry.id := f])
  {
    hide FateOf;
  }

  lemma ClaimedIsUnsettled(q: Queue, x: Id)
    requires WorkQueue.Inv(q) && x in q.claimed
    ensures x !in q.settled
  {
  }

  lemma SettleKeeps(s: Site, worker: nat)
    requires Inv(s) && Allowed(s, Settle(worker))
    ensures Inv(Make(s, Settle(worker)))
  {
    hide Safety.Inv, WorkQueue.Inv, WorkQueue.Apply, PostedOk, BornOk, SettledOk, FoundOk, InOrder, FateOf;
    var f := s.found[worker];
    QueueEffect(s.queue, AckOf(f));
    ProofMade(s.records, s.queue.added, s.found, s.proofs, s.born, worker);
    if f.entry.id in s.queue.claimed {
      ClaimedIsUnsettled(s.queue, f.entry.id);
      SettledMore(s.queue, WorkQueue.Apply(s.queue, AckOf(f)), s.proofs, f, AckOf(f));
    }
  }

  lemma MoveKeeps(s: Site, move: Move)
    requires Inv(s)
    ensures Inv(Make(s, move))
  {
    hide Inv;
    if Allowed(s, move) {
      match move
      case OnRecords(action) => RecordsKeep(s, action);
      case Persist(request) => PersistKeeps(s, request);
      case Publish(request, x, trim) => PublishKeeps(s, request, x, trim);
      case OnQueue(action) => QueueKeeps(s, action);
      case Load(worker, i, unreachable) => LoadKeeps(s, worker, i, unreachable);
      case Settle(worker) => SettleKeeps(s, worker);
    }
  }

  lemma {:induction false} MovesKeep(s: Site, moves: seq<Move>)
    requires Inv(s)
    ensures Inv(MakeAll(s, moves))
    decreases |moves|
  {
    hide Inv, Make;
    if moves != [] {
      MoveKeeps(s, moves[0]);
      MovesKeep(Make(s, moves[0]), moves[1..]);
    }
  }

  // ----- Theorems ------------------------------------------------------------------------------

  ghost predicate Reachable(s: Site) {
    exists s0, moves :: Initial(s0) && s == MakeAll(s0, moves)
  }

  lemma ReachableInv(s: Site)
    requires Reachable(s)
    ensures Inv(s)
  {
    hide Inv;
    var s0, moves :| Initial(s0) && s == MakeAll(s0, moves);
    InitialInv(s0);
    MovesKeep(s0, moves);
  }

  /** The record was missing, or its bytes corrupt, after the first `at` logged modifications. */
  ghost predicate LostAt(r: Records, id: string, at: nat, reason: WorkQueue.Reason) {
    && at <= |r.log|
    && var stored := Current(r.origin, r.log[..at], id);
       || (reason.RecordMissing? && stored.None?)
       || (reason.RecordCorrupt? && stored.Some? && stored.value.raw.Corrupt?)
  }

  /** What the proof of an acknowledgement proves. */
  lemma ProofTells(r: Records, added: seq<StreamEntry>, f: Found, reason: WorkQueue.Reason)
    requires Truthful(r, added, f) && FateOf(f.entry, f.load) == Settled(reason)
    ensures LostAt(r, f.entry.responseId.value, f.at, reason) && !reason.ByRpc?
  {
    hide Current;
  }

  lemma SameEntry(q: Queue, entry: StreamEntry, i: nat)
    requires WorkQueue.Inv(q) && entry in q.added && i < |q.added| && q.added[i].id == entry.id
    ensures q.added[i] == entry
  {
    forall a: nat, b: nat | a < b < |q.added|
      ensures q.added[a].id != q.added[b].id
    {
      WorkQueue.AddedInOrder(q, a, b);
    }
  }

  /** A claim acknowledged the entry, for what it had found when it loaded the record of it. */
  ghost predicate AcknowledgedAsLost(s: Site, entry: StreamEntry, reason: WorkQueue.Reason) {
    && entry.id in s.proofs && entry.responseId.Some?
    && var f := s.proofs[entry.id];
       && f.entry == entry && FateOf(f.entry, f.load) == Settled(reason)
       && LostAt(s.records, entry.responseId.value, f.at, reason)
       && (entry.id in s.born ==> s.born[entry.id] <= f.at)
  }

  /**
   At least once: an entry that was delivered and is still in the stream is claimed, and so within reach of a scan,
   unless it was acknowledged by the RPC, or by a claim whose load of its record found it missing or corrupt. Missing
   or corrupt it was at the moment of that load, which for a published entry came after the store of its record.
   */
  lemma AtLeastOnce(s: Site, i: nat)
    requires Reachable(s) && s.queue.trimmed <= i < |s.queue.added|
    requires !Less(s.queue.lastDelivered, s.queue.added[i].id)
    ensures var entry := s.queue.added[i];
            || entry.id in s.queue.claimed
            || (&& entry.id in s.queue.settled
                && var reason := s.queue.settled[entry.id];
                   reason.ByRpc? || AcknowledgedAsLost(s, entry, reason))
  {
    ReachableInv(s);
    var x := s.queue.added[i].id;
    if x !in s.queue.claimed {
      assert x in s.queue.settled by {
        DeliveredIsAccounted(s.queue, i);
      }
      if !s.queue.settled[x].ByRpc? {
        var f := s.proofs[x];
        SameEntry(s.queue, f.entry, i);
        ProofTells(s.records, s.queue.added, f, s.queue.settled[x]);
      }
    }
  }

  /**
   A claimed entry stops being claimed in one move only by the RPC, by a worker whose load found its record missing or
   corrupt, or by a scan once the stream has dropped it.
   */
  lemma LeavesOnlyForReason(s: Site, move: Move, x: Id)
    requires Inv(s) && x in s.queue.claimed && x !in Make(s, move).queue.claimed
    ensures || move == OnQueue(WorkQueue.Acknowledge(x, WorkQueue.ByRpc))
            || (&& move.Settle? && move.worker in s.found
                && var f := s.found[move.worker];
                   && f.entry.id == x && FateOf(f.entry, f.load).Settled?
                   && LostAt(s.records, f.entry.responseId.value, f.at, FateOf(f.entry, f.load).reason))
            || (move.OnQueue? && move.step.Autoclaim? && x !in WorkQueue.Ids(WorkQueue.Retained(s.queue)))
  {
    assert Allowed(s, move);
    if move.Settle? {
      var f := s.found[move.worker];
      ProofTells(s.records, s.queue.added, f, FateOf(f.entry, f.load).reason);
      LeavesByStep(s.queue, AckOf(f), x);
    } else if move.OnQueue? {
      LeavesByStep(s.queue, move.step, x);
    }
    hide Safety.Inv, WorkQueue.Inv, WorkQueue.Apply, Protocol.Apply, LostAt, Truthful;
  }

  lemma LeavesByStep(q: Queue, step: WorkQueue.Action, x: Id)
    requires WorkQueue.Inv(q) && x in q.claimed && x !in WorkQueue.Apply(q, step).claimed
    ensures || (step.Acknowledge? && step.id == x)
            || (step.Autoclaim? && x !in WorkQueue.Ids(WorkQueue.Retained(q)))
  {
  }

  lemma DeliveredIsAccounted(q: Queue, i: nat)
    requires WorkQueue.Inv(q) && q.trimmed <= i < |q.added| && !Less(q.lastDelivered, q.added[i].id)
    ensures q.added[i].id in q.claimed || q.added[i].id in q.settled
  {
  }

  lemma EventKinds(r: Records, k: nat)
    requires LogOk(r.defaultTtl, r.origin, r.log) && k < |r.log|
    ensures r.log[k].after.None? ==> r.log[k].cause.Deleted? || r.log[k].cause.Expired?
    ensures r.log[k].after.Some? ==> r.log[k].after.value.raw.Record?
  {
    assert EventOk(r.defaultTtl, r.log[k]);
  }

  predicate RemovedAt(r: Records, id: string, k: nat) {
    k < |r.log| && r.log[k].id == id && (r.log[k].cause.Deleted? || r.log[k].cause.Expired?)
  }

  lemma CurrentStep(r: Records, id: string, k: nat)
    requires k < |r.log|
    ensures Current(r.origin, r.log[..k + 1], id) ==
            if r.log[k].id == id then r.log[k].after else Current(r.origin, r.log[..k], id)
  {
    assert r.log[..k + 1][..k] == r.log[..k];
  }

  /** From a stored record to a missing one leads a deletion or an expiry, and nothing leads to corrupt bytes. */
  lemma {:induction false} GoneBetween(r: Records, id: string, from: nat, till: nat)
    requires LogOk(r.defaultTtl, r.origin, r.log) && from <= till <= |r.log|
    requires var stored := Current(r.origin, r.log[..from], id); stored.Some? && stored.value.raw.Record?
    ensures var stored := Current(r.origin, r.log[..till], id);
            && (stored.Some? ==> stored.value.raw.Record?)
            && (stored.None? ==> exists k | from <= k < till :: RemovedAt(r, id, k))
    decreases till
  {
    hide LogOk, Current;
    if from < till {
      GoneBetween(r, id, from, till - 1);
      EventKinds(r, till - 1);
      CurrentStep(r, id, till - 1);
      assert r.log[till - 1].id == id && r.log[till - 1].after.None? ==> RemovedAt(r, id, till - 1);
    }
  }

  lemma StoredIsThere(r: Records, id: string, at: nat)
    requires LogOk(r.defaultTtl, r.origin, r.log) && StoredAt(r, id, at)
    ensures var stored := Current(r.origin, r.log[..at], id); stored.Some? && stored.value.raw.Record?
  {
    EventKinds(r, at - 1);
    CurrentStep(r, id, at - 1);
    StoredLeaves(r, at - 1);
  }

  lemma StoredLeaves(r: Records, k: nat)
    requires LogOk(r.defaultTtl, r.origin, r.log) && k < |r.log| && r.log[k].cause.Stored?
    ensures r.log[k].after.Some?
  {
    assert EventOk(r.defaultTtl, r.log[k]);
  }

  /**
   EnqueueBackgroundJob stores before it publishes. So an entry of it that a claim acknowledged was acknowledged because
   its record had been deleted or had expired after that store, and never because of corrupt bytes.
   */
  lemma LostJobWasRemoved(s: Site, x: Id) returns (entry: StreamEntry, k: nat)
    requires Reachable(s) && x in s.born && x in s.queue.settled && !s.queue.settled[x].ByRpc?
    ensures s.queue.settled[x].RecordMissing?
    ensures entry in s.queue.added && entry.id == x && entry.responseId.Some?
    ensures StoredAt(s.records, entry.responseId.value, s.born[x])
    ensures s.born[x] <= k && RemovedAt(s.records, entry.responseId.value, k)
  {
    ReachableInv(s);
    assert Sourced(s.records, s.queue.added, x, s.born[x]);
    var i :| 0 <= i < |s.queue.added| && s.queue.added[i].id == x && s.queue.added[i].responseId.Some?
             && StoredAt(s.records, s.queue.added[i].responseId.value, s.born[x]);
    entry := s.queue.added[i];
    var f := s.proofs[x];
    SameEntry(s.queue, f.entry, i);
    ProofTells(s.records, s.queue.added, f, s.queue.settled[x]);
    hide Inv;
    LogIsOk(s);
    StoredIsThere(s.records, entry.responseId.value, s.born[x]);
    GoneBetween(s.records, entry.responseId.value, s.born[x], f.at);
    k :| s.born[x] <= k < f.at && RemovedAt(s.records, entry.responseId.value, k);
  }

  lemma LogIsOk(s: Site)
    requires Inv(s)
    ensures LogOk(s.records.defaultTtl, s.records.origin, s.records.log)
  {
  }
}
