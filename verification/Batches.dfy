/** What becomes of claimed entries once their records are loaded: the batch they make, and the acknowledgements. */
module Batches {
  import opened Wrappers
  import opened StreamId
  import opened WorkQueue
  import Paging
  import Model
  import Redis
  import Transitions

  type StoreError = Transitions.StoreError

  // ----- Loading a record ----------------------------------------------------------------------

  type Load = Result<Option<Model.StoredResponse>, StoreError>

  /** What a load answers about what is stored under its key. */
  function LoadOf(stored: Option<Redis.Entry>): Load {
    match stored
    case None => Ok(None)
    case Some(Entry(Record(r), _)) => Ok(Some(r))
    case Some(Entry(Corrupt, _)) => Err(Transitions.Serialization)
  }

  function LoadRecord(db: Redis.Db, id: string, unreachable: bool): (load: Load)
    ensures load == Err(Transitions.Storage) <==> unreachable
    ensures load == Ok(None) <==> !unreachable && id !in db.entries
    ensures load == Err(Transitions.Serialization) <==> !unreachable && id in db.entries && db.entries[id].raw.Corrupt?
    ensures forall record ::
              load == Ok(Some(record)) <==> !unreachable && id in db.entries && db.entries[id].raw == Redis.Record(record)
  {
    if unreachable then Err(Transitions.Storage) else LoadOf(Redis.Lookup(db, id))
  }

  // ----- What becomes of an entry --------------------------------------------------------------

  datatype BackgroundJob = BackgroundJob(
    streamId: Id, responseId: string, record: Model.StoredResponse, autoclaimed: bool, idleMs: Option<nat>)

  datatype PendingJob = PendingJob(streamId: Id, responseId: string, autoclaimed: bool, idleMs: Option<nat>)

  datatype Batch = Batch(jobs: seq<BackgroundJob>, pendingStreamIds: seq<Id>, pendingJobs: seq<PendingJob>)

  const EMPTY: Batch := Batch([], [], [])

  datatype Fate = Hydrated(record: Model.StoredResponse) | Deferred | Settled(reason: Reason) | Skipped

  function FateOf(entry: StreamEntry, load: Load): Fate {
    if entry.responseId.None? then Skipped
    else
      match load
      case Ok(Some(record)) => Hydrated(record)
      case Ok(None) => Settled(RecordMissing)
      case Err(Serialization) => Settled(RecordCorrupt)
      case Err(_) => Deferred
  }

  function Concat(a: Batch, b: Batch): Batch {
    Batch(a.jobs + b.jobs, a.pendingStreamIds + b.pendingStreamIds, a.pendingJobs + b.pendingJobs)
  }

  function Single(entry: StreamEntry, load: Load, autoclaimed: bool, idleMs: Option<nat>): Batch {
    match FateOf(entry, load)
    case Hydrated(record) =>
      Batch([BackgroundJob(entry.id, entry.responseId.value, record, autoclaimed, idleMs)], [], [])
    case Deferred =>
      Batch([], [entry.id], [PendingJob(entry.id, entry.responseId.value, autoclaimed, idleMs)])
    case _ => EMPTY
  }

  /** The batch made of the entries whose loads are known. */
  function BatchOf(entries: seq<StreamEntry>, loads: seq<Load>, autoclaimed: bool, idleMs: Option<nat>): Batch
    requires |entries| == |loads|
  {
    if entries == [] then EMPTY
    else
      var k := |entries| - 1;
      Concat(BatchOf(entries[..k], loads[..k], autoclaimed, idleMs), Single(entries[k], loads[k], autoclaimed, idleMs))
  }

  function JobIds(b: Batch): (ids: seq<Id>)
    ensures |ids| == |b.jobs|
  {
    seq(|b.jobs|, i requires 0 <= i < |b.jobs| => b.jobs[i].streamId)
  }

  function PendingIds(b: Batch): (ids: seq<Id>)
    ensures |ids| == |b.pendingJobs|
  {
    seq(|b.pendingJobs|, i requires 0 <= i < |b.pendingJobs| => b.pendingJobs[i].streamId)
  }

  function Size(b: Batch): nat {
    |b.jobs| + |b.pendingJobs|
  }

  function IdsOf(b: Batch): seq<Id> {
    JobIds(b) + PendingIds(b)
  }

  ghost predicate NoDuplicates(ids: seq<Id>) {
    forall i, j | 0 <= i < j < |ids| :: ids[i] != ids[j]
  }

  /** Distinct entries, and the legacy list of pending identifiers mirrors the pending jobs. */
  ghost predicate Sound(b: Batch) {
    NoDuplicates(IdsOf(b)) && b.pendingStreamIds == PendingIds(b)
  }

  lemma ConcatIds(a: Batch, b: Batch)
    ensures JobIds(Concat(a, b)) == JobIds(a) + JobIds(b)
    ensures PendingIds(Concat(a, b)) == PendingIds(a) + PendingIds(b)
    ensures forall x :: x in IdsOf(Concat(a, b)) <==> x in IdsOf(a) || x in IdsOf(b)
  {
    assert JobIds(Concat(a, b)) == JobIds(a) + JobIds(b);
    assert PendingIds(Concat(a, b)) == PendingIds(a) + PendingIds(b);
  }

  lemma Shuffle(a: seq<Id>, b: seq<Id>, c: seq<Id>, d: seq<Id>)
    requires NoDuplicates(a + b) && NoDuplicates(c + d)
    requires forall x | x in a + b :: x !in c + d
    ensures NoDuplicates((a + c) + (b + d))
  {
    var s := (a + c) + (b + d);
    forall i, j | 0 <= i < j < |s|
      ensures s[i] != s[j]
    {
      if i < |a| {
        assert s[i] == (a + b)[i] && (a + b)[i] in a + b;
        if |a| <= j < |a| + |c| {
          assert s[j] == (c + d)[j - |a|];
        } else if |a| + |c| <= j < |a| + |c| + |b| {
          assert s[j] == (a + b)[j - |c|];
        } else if |a| + |c| + |b| <= j {
          assert s[j] == (c + d)[j - |a| - |b|];
        } else {
          assert s[j] == (a + b)[j];
        }
      } else if i < |a| + |c| {
        assert s[i] == (c + d)[i - |a|] && (c + d)[i - |a|] in c + d;
        if j < |a| + |c| {
          assert s[j] == (c + d)[j - |a|];
        } else if j < |a| + |c| + |b| {
          assert s[j] == (a + b)[j - |c|] && (a + b)[j - |c|] in a + b;
        } else {
          assert s[j] == (c + d)[j - |a| - |b|];
        }
      } else if i < |a| + |c| + |b| {
        assert s[i] == (a + b)[i - |c|] && (a + b)[i - |c|] in a + b;
        if j < |a| + |c| + |b| {
          assert s[j] == (a + b)[j - |c|];
        } else {
          assert s[j] == (c + d)[j - |a| - |b|];
        }
      } else {
        assert s[i] == (c + d)[i - |a| - |b|] && s[j] == (c + d)[j - |a| - |b|];
      }
    }
  }

  lemma SoundConcat(a: Batch, b: Batch)
    requires Sound(a) && Sound(b)
    requires forall x | x in IdsOf(a) :: x !in IdsOf(b)
    ensures Sound(Concat(a, b)) && Size(Concat(a, b)) == Size(a) + Size(b)
  {
    ConcatIds(a, b);
    Shuffle(JobIds(a), PendingIds(a), JobIds(b), PendingIds(b));
  }

  /** A batch over entries in stream order is sound, no larger than the entries, and of their identifiers. */
  lemma {:induction false} BatchOfIsSound(
    entries: seq<StreamEntry>, loads: seq<Load>, autoclaimed: bool, idleMs: Option<nat>)
    requires |entries| == |loads| && Paging.Sorted(Ids(entries))
    ensures var b := BatchOf(entries, loads, autoclaimed, idleMs);
            Sound(b) && Size(b) <= |entries| && forall x | x in IdsOf(b) :: x in Ids(entries)
  {
    if entries != [] {
      var k := |entries| - 1;
      var front := BatchOf(entries[..k], loads[..k], autoclaimed, idleMs);
      var single := Single(entries[k], loads[k], autoclaimed, idleMs);
      FrontBelow(entries);
      SingleIsSound(entries[k], loads[k], autoclaimed, idleMs);
      BatchOfIsSound(entries[..k], loads[..k], autoclaimed, idleMs);
      hide Sound, IdsOf, Size, Concat, Single, Paging.Sorted, Less;
      SoundConcat(front, single);
      ConcatIds(front, single);
    }
  }

  lemma SingleIsSound(entry: StreamEntry, load: Load, autoclaimed: bool, idleMs: Option<nat>)
    ensures var b := Single(entry, load, autoclaimed, idleMs);
            Sound(b) && Size(b) <= 1 && forall x | x in IdsOf(b) :: x == entry.id
  {
  }

  /** The entries before the last one are in order, and none of them has its identifier. */
  lemma FrontBelow(entries: seq<StreamEntry>)
    requires entries != [] && Paging.Sorted(Ids(entries))
    ensures var k := |entries| - 1;
            && Paging.Sorted(Ids(entries[..k]))
            && entries[k].id !in Ids(entries[..k])
            && Ids(entries) == Ids(entries[..k]) + [entries[k].id]
  {
    var k := |entries| - 1;
    forall i, j | 0 <= i < j < k
      ensures Less(Ids(entries[..k])[i], Ids(entries[..k])[j])
    {
      assert Less(Ids(entries)[i], Ids(entries)[j]);
    }
    forall i | 0 <= i < k
      ensures Ids(entries[..k])[i] != entries[k].id
    {
      assert Less(Ids(entries)[i], Ids(entries)[k]);
    }
  }

  // ----- The four classes ----------------------------------------------------------------------

  /** The entries that met a certain fate, in order. */
  function Select(entries: seq<StreamEntry>, loads: seq<Load>, keep: Fate -> bool): seq<Id>
    requires |entries| == |loads|
  {
    if entries == [] then []
    else
      var k := |entries| - 1;
      Select(entries[..k], loads[..k], keep) + if keep(FateOf(entries[k], loads[k])) then [entries[k].id] else []
  }

  /**
   Every entry is hydrated, deferred, settled or skipped; the jobs of the batch are the hydrated ones and its pending
   jobs the deferred ones, in order.
   */
  lemma {:induction false} FourClasses(
    entries: seq<StreamEntry>, loads: seq<Load>, autoclaimed: bool, idleMs: Option<nat>)
    requires |entries| == |loads|
    ensures var b := BatchOf(entries, loads, autoclaimed, idleMs);
            && JobIds(b) == Select(entries, loads, (f: Fate) => f.Hydrated?)
            && PendingIds(b) == Select(entries, loads, (f: Fate) => f.Deferred?)
            && |entries| == |b.jobs| + |b.pendingJobs|
                            + |Select(entries, loads, (f: Fate) => f.Settled?)|
                            + |Select(entries, loads, (f: Fate) => f.Skipped?)|
  {
    if entries != [] {
      var k := |entries| - 1;
      FourClasses(entries[..k], loads[..k], autoclaimed, idleMs);
      ConcatIds(BatchOf(entries[..k], loads[..k], autoclaimed, idleMs), Single(entries[k], loads[k], autoclaimed, idleMs));
    }
  }

  /** Each job is one of the entries, with the record that was loaded for it. */
  lemma {:induction false} JobsAreLoaded(
    entries: seq<StreamEntry>, loads: seq<Load>, autoclaimed: bool, idleMs: Option<nat>, i: nat) returns (k: nat)
    requires |entries| == |loads| && i < |BatchOf(entries, loads, autoclaimed, idleMs).jobs|
    ensures k < |entries| && entries[k].responseId.Some? && loads[k].Ok? && loads[k].value.Some?
    ensures BatchOf(entries, loads, autoclaimed, idleMs).jobs[i]
            == BackgroundJob(entries[k].id, entries[k].responseId.value, loads[k].value.value, autoclaimed, idleMs)
  {
    var last := |entries| - 1;
    if i < |BatchOf(entries[..last], loads[..last], autoclaimed, idleMs).jobs| {
      k := JobsAreLoaded(entries[..last], loads[..last], autoclaimed, idleMs, i);
    } else {
      k := last;
    }
  }

  // ----- What a batch holds, by the loads alone ------------------------------------------------

  predicate Loaded(entry: StreamEntry, load: Load) {
    entry.responseId.Some? && load.Ok? && load.value.Some?
  }

  predicate Unread(entry: StreamEntry, load: Load) {
    entry.responseId.Some? && load == Err(Transitions.Storage)
  }

  /** The entries whose load found a record, in order. */
  ghost function LoadedAt(entries: seq<StreamEntry>, loads: seq<Load>): (at: seq<nat>)
    requires |entries| == |loads|
    ensures forall i | 0 <= i < |at| :: at[i] < |entries| && Loaded(entries[at[i]], loads[at[i]])
    ensures forall i, j | 0 <= i < j < |at| :: at[i] < at[j]
    ensures forall k | 0 <= k < |entries| && Loaded(entries[k], loads[k]) :: k in at
  {
    if entries == [] then []
    else
      var k := |entries| - 1;
      LoadedAt(entries[..k], loads[..k]) + if Loaded(entries[k], loads[k]) then [k] else []
  }

  /** The entries whose load the store did not answer, in order. */
  ghost function UnreadAt(entries: seq<StreamEntry>, loads: seq<Load>): (at: seq<nat>)
    requires |entries| == |loads|
    ensures forall i | 0 <= i < |at| :: at[i] < |entries| && Unread(entries[at[i]], loads[at[i]])
    ensures forall i, j | 0 <= i < j < |at| :: at[i] < at[j]
    ensures forall k | 0 <= k < |entries| && Unread(entries[k], loads[k]) :: k in at
  {
    if entries == [] then []
    else
      var k := |entries| - 1;
      UnreadAt(entries[..k], loads[..k]) + if Unread(entries[k], loads[k]) then [k] else []
  }

  /** The record turned out missing or corrupt. */
  predicate Lost(entry: StreamEntry, load: Load) {
    entry.responseId.Some? && (load == Ok(None) || load == Err(Transitions.Serialization))
  }

  ghost function LostAt(entries: seq<StreamEntry>, loads: seq<Load>): (at: seq<nat>)
    requires |entries| == |loads|
    ensures forall i | 0 <= i < |at| :: at[i] < |entries| && Lost(entries[at[i]], loads[at[i]])
    ensures forall i, j | 0 <= i < j < |at| :: at[i] < at[j]
    ensures forall k | 0 <= k < |entries| && Lost(entries[k], loads[k]) :: k in at
  {
    if entries == [] then []
    else
      var k := |entries| - 1;
      LostAt(entries[..k], loads[..k]) + if Lost(entries[k], loads[k]) then [k] else []
  }

  /** How many entries are handed on. */
  ghost function Kept(entries: seq<StreamEntry>, loads: seq<Load>): nat
    requires |entries| == |loads|
  {
    |LoadedAt(entries, loads)| + |UnreadAt(entries, loads)|
  }

  /** The job of an entry that was loaded, with the record loaded for it. */
  ghost predicate JobAt(
    job: BackgroundJob, entries: seq<StreamEntry>, loads: seq<Load>, autoclaimed: bool, idleMs: Option<nat>, k: nat)
  {
    && k < |entries| == |loads| && Loaded(entries[k], loads[k])
    && job == BackgroundJob(entries[k].id, entries[k].responseId.value, loads[k].value.value, autoclaimed, idleMs)
  }

  ghost predicate PendingAt(
    job: PendingJob, entries: seq<StreamEntry>, loads: seq<Load>, autoclaimed: bool, idleMs: Option<nat>, k: nat)
  {
    && k < |entries| == |loads| && Unread(entries[k], loads[k])
    && job == PendingJob(entries[k].id, entries[k].responseId.value, autoclaimed, idleMs)
  }

  /** One job for each entry that was loaded, in their order. */
  ghost predicate HoldsJobs(
    jobs: seq<BackgroundJob>, entries: seq<StreamEntry>, loads: seq<Load>, autoclaimed: bool, idleMs: Option<nat>)
    requires |entries| == |loads|
  {
    var at := LoadedAt(entries, loads);
    |jobs| == |at| && forall i | 0 <= i < |jobs| :: JobAt(jobs[i], entries, loads, autoclaimed, idleMs, at[i])
  }

  /** One pending job for each entry the store did not answer for, in their order. */
  ghost predicate HoldsPending(
    jobs: seq<PendingJob>, entries: seq<StreamEntry>, loads: seq<Load>, autoclaimed: bool, idleMs: Option<nat>)
    requires |entries| == |loads|
  {
    var at := UnreadAt(entries, loads);
    |jobs| == |at| && forall i | 0 <= i < |jobs| :: PendingAt(jobs[i], entries, loads, autoclaimed, idleMs, at[i])
  }

  /** The errors a load can answer with. */
  predicate Plain(load: Load) {
    load.Err? ==> load.error.Storage? || load.error.Serialization?
  }

  lemma SingleHolds(entry: StreamEntry, load: Load, autoclaimed: bool, idleMs: Option<nat>)
    requires Plain(load)
    ensures var b := Single(entry, load, autoclaimed, idleMs);
            && b.jobs == (if Loaded(entry, load)
                          then [BackgroundJob(entry.id, entry.responseId.value, load.value.value, autoclaimed, idleMs)]
                          else [])
            && b.pendingJobs == (if Unread(entry, load)
                                 then [PendingJob(entry.id, entry.responseId.value, autoclaimed, idleMs)]
                                 else [])
  {
  }

  lemma JobsGrow(
    jobs: seq<BackgroundJob>, at: seq<nat>, entries: seq<StreamEntry>, loads: seq<Load>, autoclaimed: bool,
    idleMs: Option<nat>, k: nat)
    requires k < |entries| == |loads| && |jobs| == |at|
    requires forall i | 0 <= i < |jobs| :: JobAt(jobs[i], entries[..k], loads[..k], autoclaimed, idleMs, at[i])
    ensures var last := Loaded(entries[k], loads[k]);
            var jobs' := jobs + (
              if last
              then [BackgroundJob(entries[k].id, entries[k].responseId.value, loads[k].value.value, autoclaimed, idleMs)]
              else []);
            var at' := at + if last then [k] else [];
            && |jobs'| == |at'|
            && forall i | 0 <= i < |jobs'| :: JobAt(jobs'[i], entries, loads, autoclaimed, idleMs, at'[i])
  {
    forall i | 0 <= i < |jobs|
      ensures JobAt(jobs[i], entries, loads, autoclaimed, idleMs, at[i])
    {
      assert JobAt(jobs[i], entries[..k], loads[..k], autoclaimed, idleMs, at[i]);
    }
  }

  lemma {:induction false} JobsHold(
    entries: seq<StreamEntry>, loads: seq<Load>, autoclaimed: bool, idleMs: Option<nat>)
    requires |entries| == |loads| && forall load | load in loads :: Plain(load)
    ensures HoldsJobs(BatchOf(entries, loads, autoclaimed, idleMs).jobs, entries, loads, autoclaimed, idleMs)
  {
    hide Single, Plain, Loaded, JobAt;
    if entries != [] {
      var k := |entries| - 1;
      JobsHold(entries[..k], loads[..k], autoclaimed, idleMs);
      SingleHolds(entries[k], loads[k], autoclaimed, idleMs);
      JobsGrow(BatchOf(entries[..k], loads[..k], autoclaimed, idleMs).jobs, LoadedAt(entries[..k], loads[..k]),
               entries, loads, autoclaimed, idleMs, k);
    }
  }

  lemma PendingGrow(
    jobs: seq<PendingJob>, at: seq<nat>, entries: seq<StreamEntry>, loads: seq<Load>, autoclaimed: bool,
    idleMs: Option<nat>, k: nat)
    requires k < |entries| == |loads| && |jobs| == |at|
    requires forall i | 0 <= i < |jobs| :: PendingAt(jobs[i], entries[..k], loads[..k], autoclaimed, idleMs, at[i])
    ensures var last := Unread(entries[k], loads[k]);
            var jobs' := jobs + (
              if last then [PendingJob(entries[k].id, entries[k].responseId.value, autoclaimed, idleMs)] else []);
            var at' := at + if last then [k] else [];
            && |jobs'| == |at'|
            && forall i | 0 <= i < |jobs'| :: PendingAt(jobs'[i], entries, loads, autoclaimed, idleMs, at'[i])
  {
    forall i | 0 <= i < |jobs|
      ensures PendingAt(jobs[i], entries, loads, autoclaimed, idleMs, at[i])
    {
      assert PendingAt(jobs[i], entries[..k], loads[..k], autoclaimed, idleMs, at[i]);
    }
  }

  lemma {:induction false} PendingHold(
    entries: seq<StreamEntry>, loads: seq<Load>, autoclaimed: bool, idleMs: Option<nat>)
    requires |entries| == |loads| && forall load | load in loads :: Plain(load)
    ensures HoldsPending(BatchOf(entries, loads, autoclaimed, idleMs).pendingJobs, entries, loads, autoclaimed, idleMs)
  {
    hide Single, Plain, Unread, PendingAt;
    if entries != [] {
      var k := |entries| - 1;
      PendingHold(entries[..k], loads[..k], autoclaimed, idleMs);
      SingleHolds(entries[k], loads[k], autoclaimed, idleMs);
      PendingGrow(BatchOf(entries[..k], loads[..k], autoclaimed, idleMs).pendingJobs, UnreadAt(entries[..k], loads[..k]),
               entries, loads, autoclaimed, idleMs, k);
    }
  }

  /** The jobs of a batch are exactly the entries that were loaded, its pending jobs exactly those not answered for. */
  lemma BatchHolds(entries: seq<StreamEntry>, loads: seq<Load>, autoclaimed: bool, idleMs: Option<nat>)
    requires |entries| == |loads| && forall load | load in loads :: Plain(load)
    ensures var b := BatchOf(entries, loads, autoclaimed, idleMs);
            && HoldsJobs(b.jobs, entries, loads, autoclaimed, idleMs)
            && HoldsPending(b.pendingJobs, entries, loads, autoclaimed, idleMs)
            && Size(b) == Kept(entries, loads)
  {
    JobsHold(entries, loads, autoclaimed, idleMs);
    PendingHold(entries, loads, autoclaimed, idleMs);
  }

  /** So a load that found a record leads to its job, and nothing else does. */
  lemma JobsMembers(
    jobs: seq<BackgroundJob>, entries: seq<StreamEntry>, loads: seq<Load>, autoclaimed: bool, idleMs: Option<nat>,
    job: BackgroundJob)
    requires |entries| == |loads| && HoldsJobs(jobs, entries, loads, autoclaimed, idleMs)
    ensures job in jobs <==> exists k: nat :: JobAt(job, entries, loads, autoclaimed, idleMs, k)
  {
    var at := LoadedAt(entries, loads);
    if job in jobs {
      var i :| 0 <= i < |jobs| && jobs[i] == job;
      assert JobAt(job, entries, loads, autoclaimed, idleMs, at[i]);
    }
    if k: nat :| JobAt(job, entries, loads, autoclaimed, idleMs, k) {
      var i :| 0 <= i < |at| && at[i] == k;
      assert JobAt(jobs[i], entries, loads, autoclaimed, idleMs, k);
    }
  }

  /** And an unanswered load leads to its pending job, and nothing else does. */
  lemma PendingMembers(
    jobs: seq<PendingJob>, entries: seq<StreamEntry>, loads: seq<Load>, autoclaimed: bool, idleMs: Option<nat>,
    job: PendingJob)
    requires |entries| == |loads| && HoldsPending(jobs, entries, loads, autoclaimed, idleMs)
    ensures job in jobs <==> exists k: nat :: PendingAt(job, entries, loads, autoclaimed, idleMs, k)
  {
    var at := UnreadAt(entries, loads);
    if job in jobs {
      var i :| 0 <= i < |jobs| && jobs[i] == job;
      assert PendingAt(job, entries, loads, autoclaimed, idleMs, at[i]);
    }
    if k: nat :| PendingAt(job, entries, loads, autoclaimed, idleMs, k) {
      var i :| 0 <= i < |at| && at[i] == k;
      assert PendingAt(jobs[i], entries, loads, autoclaimed, idleMs, k);
    }
  }

  /** Rescued jobs carry the idle time they were rescued for; new ones carry none. */
  ghost predicate FlagsOk(b: Batch, minIdleMs: nat) {
    && (forall i | 0 <= i < |b.jobs| ::
          b.jobs[i].idleMs == if b.jobs[i].autoclaimed then Some(minIdleMs) else None)
    && (forall i | 0 <= i < |b.pendingJobs| ::
          b.pendingJobs[i].idleMs == if b.pendingJobs[i].autoclaimed then Some(minIdleMs) else None)
  }

  lemma {:induction false} BatchFlags(entries: seq<StreamEntry>, loads: seq<Load>, autoclaimed: bool, minIdleMs: nat)
    requires |entries| == |loads|
    ensures FlagsOk(BatchOf(entries, loads, autoclaimed, if autoclaimed then Some(minIdleMs) else None), minIdleMs)
  {
    if entries != [] {
      BatchFlags(entries[..|entries| - 1], loads[..|entries| - 1], autoclaimed, minIdleMs);
    }
  }

  ghost predicate AllDelivered(lastDelivered: Id, ids: seq<Id>) {
    forall x | x in ids :: !Less(lastDelivered, x)
  }

  ghost predicate NoneDelivered(lastDelivered: Id, ids: seq<Id>) {
    forall x | x in ids :: Less(lastDelivered, x)
  }

  lemma DeliveredStays(before: Id, after: Id, ids: seq<Id>)
    requires AllDelivered(before, ids) && !Less(after, before)
    ensures AllDelivered(after, ids)
  {
  }

  lemma AmongIds(before: Id, after: Id, b: Batch, ids: seq<Id>)
    requires forall x | x in IdsOf(b) :: x in ids
    requires NoneDelivered(before, ids) && AllDelivered(after, ids)
    ensures NoneDelivered(before, IdsOf(b)) && AllDelivered(after, IdsOf(b))
  {
  }

  /** The rescued half was delivered before the new half was read, so they share no entry. */
  lemma HalvesJoin(a: Batch, b: Batch, between: Id, after: Id, minIdleMs: nat)
    requires Sound(a) && Sound(b) && FlagsOk(a, minIdleMs) && FlagsOk(b, minIdleMs)
    requires AllDelivered(between, IdsOf(a)) && NoneDelivered(between, IdsOf(b))
    requires AllDelivered(after, IdsOf(a)) && AllDelivered(after, IdsOf(b))
    ensures var joined := Concat(a, b);
            && Sound(joined) && Size(joined) == Size(a) + Size(b)
            && FlagsOk(joined, minIdleMs) && AllDelivered(after, IdsOf(joined))
  {
    SoundConcat(a, b);
    ConcatIds(a, b);
  }

  lemma BatchGrows(
    entries: seq<StreamEntry>, loads: seq<Load>, entry: StreamEntry, load: Load, autoclaimed: bool, idleMs: Option<nat>)
    requires |entries| == |loads|
    ensures BatchOf(entries + [entry], loads + [load], autoclaimed, idleMs)
            == Concat(BatchOf(entries, loads, autoclaimed, idleMs), Single(entry, load, autoclaimed, idleMs))
  {
    assert (entries + [entry])[..|entries|] == entries && (loads + [load])[..|entries|] == loads;
  }
}
