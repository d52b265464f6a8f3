/**
 Claiming a batch of jobs: rescue idle entries, fill up with new ones, load their records. Between any two commands
 other clients may do anything to the queue, and any command may fail, before or after it took effect.
 */
module Claiming {
  import opened Wrappers
  import opened StreamId
  import opened WorkQueue
  import opened Batches
  import Paging
  import Redis
  import Transitions

  const LOAD_RETRY_ATTEMPTS: nat := 3
  const MAX_CLAIM_COUNT: nat := 100

  // ----- Steps of this client and of others ----------------------------------------------------

  /** What happened, in order: actions on the queue, what others left in the record store, and this client's loads. */
  datatype Step = Mine(action: Action) | Theirs(action: Action) | Stored(db: Redis.Db) | Loads(id: string, load: Load)

  function RunSteps(q: Queue, steps: seq<Step>): Queue
    decreases |steps|
  {
    if steps == [] then q
    else
      var before := RunSteps(q, steps[..|steps| - 1]);
      match steps[|steps| - 1]
      case Stored(_) => before
      case Loads(_, _) => before
      case Mine(action) => Apply(before, action)
      case Theirs(action) => Apply(before, action)
  }

  /** An action of another client leaves this request's copy of the cursor alone. */
  predicate Foreign(action: Action, request: nat) {
    match action
    case ReadCursor(r) => r != request
    case Autoclaim(r, _, _) => r != request
    case WriteCursor(r) => r != request
    case _ => true
  }

  /** What this client did to the queue, in order. */
  function Own(steps: seq<Step>): seq<Action> {
    if steps == [] then []
    else
      var last := steps[|steps| - 1];
      Own(steps[..|steps| - 1]) + if last.Mine? then [last.action] else []
  }

  /** What this client asked of the queue; of a scan and a read also whether an answer came. */
  datatype Ask =
    | AskScan(answered: bool)
    | AskRead(count: nat, answered: bool)
    | AskAcknowledge(id: Id, reason: Reason)
    | AskCursor(answered: bool)
    | AskStoreCursor(answered: bool)

  /** The acknowledgements asked for, in order of the entries. */
  function AsksOf(entries: seq<StreamEntry>, loads: seq<Load>): seq<Ask>
    requires |entries| == |loads|
  {
    if entries == [] then []
    else
      var k := |entries| - 1;
      AsksOf(entries[..k], loads[..k]) + AskOf(entries[k], loads[k])
  }

  function AskOf(entry: StreamEntry, load: Load): seq<Ask> {
    match FateOf(entry, load)
    case Settled(reason) => [AskAcknowledge(entry.id, reason)]
    case _ => []
  }

  ghost predicate AskAt(ask: Ask, entries: seq<StreamEntry>, loads: seq<Load>, k: nat) {
    && k < |entries| == |loads| && Lost(entries[k], loads[k])
    && ask == AskAcknowledge(entries[k].id, if loads[k] == Ok(None) then RecordMissing else RecordCorrupt)
  }

  /** One acknowledgement asked for by each entry whose record is missing or corrupt, in their order, and no other. */
  ghost predicate HoldsAsks(asks: seq<Ask>, entries: seq<StreamEntry>, loads: seq<Load>)
    requires |entries| == |loads|
  {
    var at := LostAt(entries, loads);
    |asks| == |at| && forall i | 0 <= i < |asks| :: AskAt(asks[i], entries, loads, at[i])
  }

  lemma AsksHoldGrow(asks: seq<Ask>, at: seq<nat>, entries: seq<StreamEntry>, loads: seq<Load>, k: nat)
    requires k < |entries| == |loads| && |asks| == |at|
    requires forall i | 0 <= i < |asks| :: AskAt(asks[i], entries[..k], loads[..k], at[i])
    ensures var asks', at' := asks + AskOf(entries[k], loads[k]), at + if Lost(entries[k], loads[k]) then [k] else [];
            |asks'| == |at'| && forall i | 0 <= i < |asks'| :: AskAt(asks'[i], entries, loads, at'[i])
  {
    forall i | 0 <= i < |asks|
      ensures AskAt(asks[i], entries, loads, at[i])
    {
      assert AskAt(asks[i], entries[..k], loads[..k], at[i]);
    }
  }

  lemma {:induction false} AsksHold(entries: seq<StreamEntry>, loads: seq<Load>)
    requires |entries| == |loads|
    ensures HoldsAsks(AsksOf(entries, loads), entries, loads)
  {
    hide AskOf, Lost, AskAt;
    if entries != [] {
      var k := |entries| - 1;
      AsksHold(entries[..k], loads[..k]);
      AsksHoldGrow(AsksOf(entries[..k], loads[..k]), LostAt(entries[..k], loads[..k]), entries, loads, k);
    }
  }

  lemma AsksGrow(entries: seq<StreamEntry>, loads: seq<Load>, entry: StreamEntry, load: Load)
    requires |entries| == |loads|
    ensures AsksOf(entries + [entry], loads + [load]) == AsksOf(entries, loads) + AskOf(entry, load)
  {
    assert (entries + [entry])[..|entries|] == entries && (loads + [load])[..|entries|] == loads;
  }

  /** The acknowledgement of an entry whose record turned out missing or corrupt; it may not have been carried out. */
  predicate AckOf(acks: seq<Action>, entry: StreamEntry, load: Load) {
    || acks == []
    || (FateOf(entry, load).Settled? && acks == [WorkQueue.Action.Acknowledge(entry.id, FateOf(entry, load).reason)])
  }

  /** Acknowledgements of such entries, in their order, each at most once. */
  predicate Acks(acks: seq<Action>, entries: seq<StreamEntry>, loads: seq<Load>)
    requires |entries| == |loads|
    decreases |entries|
  {
    if entries == [] then acks == []
    else
      var k := |entries| - 1;
      exists n | 0 <= n <= |acks| :: Acks(acks[..n], entries[..k], loads[..k]) && AckOf(acks[n..], entries[k], loads[k])
  }

  lemma AcksGrow(
    acks: seq<Action>, entries: seq<StreamEntry>, loads: seq<Load>, more: seq<Action>, entry: StreamEntry, load: Load)
    requires |entries| == |loads| && Acks(acks, entries, loads) && AckOf(more, entry, load)
    ensures Acks(acks + more, entries + [entry], loads + [load])
  {
    var n := |acks|;
    assert (entries + [entry])[..|entries|] == entries && (loads + [load])[..|entries|] == loads;
    assert (acks + more)[..n] == acks && (acks + more)[n..] == more;
  }

  /** What dealing with one entry adds to the batch and to what was asked for, by its load alone. */
  ghost predicate Becomes(
    entry: StreamEntry, load: Load, autoclaimed: bool, idleMs: Option<nat>, batch: Batch, batch': Batch,
    asked: seq<Ask>, asked': seq<Ask>)
  {
    && batch'.jobs == batch.jobs + (
         if Loaded(entry, load)
         then [BackgroundJob(entry.id, entry.responseId.value, load.value.value, autoclaimed, idleMs)] else [])
    && batch'.pendingJobs == batch.pendingJobs + (
         if Unread(entry, load) then [PendingJob(entry.id, entry.responseId.value, autoclaimed, idleMs)] else [])
    && batch'.pendingStreamIds == batch.pendingStreamIds + (if Unread(entry, load) then [entry.id] else [])
    && asked' == asked + (
         if Lost(entry, load)
         then [AskAcknowledge(entry.id, if load == Ok(None) then RecordMissing else RecordCorrupt)] else [])
  }

  lemma EntryBecomes(
    entry: StreamEntry, load: Load, autoclaimed: bool, idleMs: Option<nat>, batch: Batch, asked: seq<Ask>)
    requires Plain(load)
    ensures Becomes(entry, load, autoclaimed, idleMs, batch, Concat(batch, Single(entry, load, autoclaimed, idleMs)),
                    asked, asked + AskOf(entry, load))
  {
  }

  lemma NoRecordNamed(entry: StreamEntry, load: Load, autoclaimed: bool, idleMs: Option<nat>, batch: Batch)
    requires entry.responseId.None?
    ensures Concat(batch, Single(entry, load, autoclaimed, idleMs)) == batch
    ensures AskOf(entry, load) == [] && AckOf([], entry, load)
  {
  }

  /** The cases of one entry. */
  lemma EntryCases(entry: StreamEntry, load: Load, autoclaimed: bool, idleMs: Option<nat>, batch: Batch)
    requires entry.responseId.Some? && Plain(load)
    ensures AckOf([], entry, load)
    ensures var batch', id := Concat(batch, Single(entry, load, autoclaimed, idleMs)), entry.responseId.value;
            match load
            case Ok(Some(record)) =>
              && AskOf(entry, load) == []
              && batch' == batch.(jobs := batch.jobs + [BackgroundJob(entry.id, id, record, autoclaimed, idleMs)])
            case Err(Storage) =>
              && AskOf(entry, load) == []
              && batch' == batch.(pendingStreamIds := batch.pendingStreamIds + [entry.id],
                                  pendingJobs := batch.pendingJobs + [PendingJob(entry.id, id, autoclaimed, idleMs)])
            case _ =>
              var reason := if load == Ok(None) then RecordMissing else RecordCorrupt;
              && AskOf(entry, load) == [AskAcknowledge(entry.id, reason)]
              && AckOf([WorkQueue.Action.Acknowledge(entry.id, reason)], entry, load)
              && Settles(Mine(WorkQueue.Action.Acknowledge(entry.id, reason)), entry, load)
              && batch' == batch
  {
  }

  // ----- Honest loads --------------------------------------------------------------------------

  /** A load at step `t + 1` got an answer, and that is what the record store held at the moment before. */
  ghost predicate SeenAt(steps: seq<Step>, t: nat, id: string, load: Load) {
    && t + 1 < |steps| && steps[t].Stored? && steps[t + 1] == Loads(id, load)
    && load == LoadRecord(steps[t].db, id, false)
  }

  ghost predicate Seen(steps: seq<Step>, from: nat, id: string, load: Load) {
    exists t: nat | from <= t :: SeenAt(steps, t, id, load)
  }

  predicate FailedAt(steps: seq<Step>, t: nat, id: string) {
    t < |steps| && steps[t] == Loads(id, Err(Transitions.Storage))
  }

  /** Three loads got no answer. */
  ghost predicate Exhausted(steps: seq<Step>, from: nat, id: string) {
    exists first: nat, second: nat, third: nat | from <= first < second < third ::
      FailedAt(steps, first, id) && FailedAt(steps, second, id) && FailedAt(steps, third, id)
  }

  ghost predicate Honest(steps: seq<Step>, from: nat, entry: StreamEntry, load: Load) {
    entry.responseId.Some? ==>
      if load == Err(Transitions.Storage) then Exhausted(steps, from, entry.responseId.value)
      else Seen(steps, from, entry.responseId.value, load)
  }

  ghost predicate AllHonest(steps: seq<Step>, from: nat, entries: seq<StreamEntry>, loads: seq<Load>) {
    |entries| == |loads| && forall k | 0 <= k < |entries| :: Honest(steps, from, entries[k], loads[k])
  }

  lemma SeenStays(before: seq<Step>, after: seq<Step>, from: nat, later: nat, id: string, load: Load)
    requires before <= after && from <= later && Seen(before, later, id, load)
    ensures Seen(after, from, id, load)
  {
    var t: nat :| later <= t && SeenAt(before, t, id, load);
    assert after[t] == before[t] && after[t + 1] == before[t + 1];
    assert SeenAt(after, t, id, load);
  }

  lemma ExhaustedStays(before: seq<Step>, after: seq<Step>, from: nat, later: nat, id: string)
    requires before <= after && from <= later && Exhausted(before, later, id)
    ensures Exhausted(after, from, id)
  {
    var a: nat, b: nat, c: nat :|
      later <= a < b < c && FailedAt(before, a, id) && FailedAt(before, b, id) && FailedAt(before, c, id);
    assert FailedAt(after, a, id) && FailedAt(after, b, id) && FailedAt(after, c, id);
  }

  lemma HonestStays(before: seq<Step>, after: seq<Step>, from: nat, later: nat, entry: StreamEntry, load: Load)
    requires before <= after && from <= later && Honest(before, later, entry, load)
    ensures Honest(after, from, entry, load)
  {
    if entry.responseId.Some? {
      if load == Err(Transitions.Storage) {
        ExhaustedStays(before, after, from, later, entry.responseId.value);
      } else {
        SeenStays(before, after, from, later, entry.responseId.value, load);
      }
    }
  }

  lemma AllHonestStays(
    before: seq<Step>, after: seq<Step>, from: nat, later: nat, entries: seq<StreamEntry>, loads: seq<Load>)
    requires before <= after && from <= later && AllHonest(before, later, entries, loads)
    ensures AllHonest(after, from, entries, loads)
  {
    forall k | 0 <= k < |entries|
      ensures Honest(after, from, entries[k], loads[k])
    {
      HonestStays(before, after, from, later, entries[k], loads[k]);
    }
  }

  /** These are all the loads since `from`, in order, with their answers. */
  ghost predicate LoadedBy(steps: seq<Step>, from: nat, id: string, tries: seq<Load>, at: seq<nat>) {
    && |at| == |tries|
    && (forall i | 0 <= i < |at| :: from <= at[i] < |steps| && steps[at[i]] == Loads(id, tries[i]))
    && (forall i, j | 0 <= i < j < |at| :: at[i] < at[j])
    && (forall p | from <= p < |steps| && steps[p].Loads? :: p in at)
  }

  lemma NothingLoaded(steps: seq<Step>, id: string)
    ensures LoadedBy(steps, |steps|, id, [], []) && Quiet(steps, |steps|)
  {
  }

  lemma LoadedByGrows(
    before: seq<Step>, after: seq<Step>, from: nat, id: string, tries: seq<Load>, at: seq<nat>, load: Load)
    requires LoadedBy(before, from, id, tries, at) && from <= |before| < |after| && before <= after
    requires OthersOnly(after[..|after| - 1], |before|) && after[|after| - 1] == Loads(id, load)
    ensures LoadedBy(after, from, id, tries + [load], at + [|after| - 1])
  {
    var at' := at + [|after| - 1];
    assert forall p | 0 <= p < |after| - 1 :: after[..|after| - 1][p] == after[p];
    forall p | from <= p < |before| && after[p].Loads?
      ensures p in at'
    {
      assert before[p] == after[p];
    }
  }

  lemma LoadIsQuiet(before: seq<Step>, after: seq<Step>, from: nat)
    requires Quiet(before, from) && from <= |before| < |after| && before <= after
    requires OthersOnly(after[..|after| - 1], |before|) && after[|after| - 1].Loads?
    ensures Quiet(after, from)
  {
    assert forall p | 0 <= p < |after| - 1 :: after[..|after| - 1][p] == after[p];
    assert forall p | 0 <= p < |before| :: before[p] == after[p];
  }

  lemma ThreeFailed(steps: seq<Step>, from: nat, id: string, tries: seq<Load>, at: seq<nat>)
    requires LoadedBy(steps, from, id, tries, at) && |tries| == 3
    requires forall i | 0 <= i < 3 :: tries[i] == Err(Transitions.Storage)
    ensures Exhausted(steps, from, id)
  {
    assert FailedAt(steps, at[0], id) && FailedAt(steps, at[1], id) && FailedAt(steps, at[2], id);
  }

  lemma SeenNow(steps: seq<Step>, from: nat, id: string, load: Load)
    requires |steps| >= from + 2 && SeenAt(steps, |steps| - 2, id, load)
    ensures Seen(steps, from, id, load)
  {
  }

  // ----- Acknowledgements and the loads before them --------------------------------------------

  /** Half of a batch: the entries, what loading them answered, and the acknowledgements; loading began at `since`. */
  datatype Half = Half(since: nat, entries: seq<StreamEntry>, loads: seq<Load>, acks: seq<Action>)

  const NO_HALF: Half := Half(0, [], [], [])

  predicate IsAck(step: Step) {
    step.Mine? && step.action.Acknowledge?
  }

  predicate OthersOnly(steps: seq<Step>, from: nat) {
    forall p | from <= p < |steps| :: steps[p].Theirs? || steps[p].Stored?
  }

  predicate Quiet(steps: seq<Step>, from: nat) {
    forall p | from <= p < |steps| :: !IsAck(steps[p])
  }

  predicate Settles(step: Step, entry: StreamEntry, load: Load) {
    FateOf(entry, load).Settled? && step == Mine(WorkQueue.Action.Acknowledge(entry.id, FateOf(entry, load).reason))
  }

  /** The acknowledgement at `p` settles one of the entries, for what its load had seen before. */
  ghost predicate CalledFor(steps: seq<Step>, p: nat, h: Half)
    requires p < |steps|
  {
    exists k: nat | k < |h.entries| == |h.loads| ::
      && Settles(steps[p], h.entries[k], h.loads[k])
      && Seen(steps[..p], h.since, h.entries[k].responseId.value, h.loads[k])
  }

  ghost predicate AllCalledFor(steps: seq<Step>, from: nat, h: Half) {
    forall p: nat | from <= p < |steps| && IsAck(steps[p]) :: CalledFor(steps, p, h)
  }

  lemma QuietIsCalledFor(steps: seq<Step>, from: nat, h: Half)
    requires Quiet(steps, from)
    ensures AllCalledFor(steps, from, h)
  {
  }

  lemma CalledForStays(before: seq<Step>, after: seq<Step>, p: nat, h: Half)
    requires p < |before| && before <= after && CalledFor(before, p, h)
    ensures CalledFor(after, p, h)
  {
    assert after[..p] == before[..p];
  }

  /** Nothing is acknowledged at first, and after that only what the half calls for. */
  lemma CalledForAfter(before: seq<Step>, after: seq<Step>, from: nat, h: Half)
    requires before <= after && Quiet(before, from) && AllCalledFor(after, |before|, h)
    ensures AllCalledFor(after, from, h)
  {
    assert forall p | 0 <= p < |before| :: after[p] == before[p];
  }

  /** One acknowledgement behind a load. */
  lemma SettlingIsCalledFor(before: seq<Step>, after: seq<Step>, from: nat, entry: StreamEntry, load: Load)
    requires before <= after && Quiet(before, from) && entry.responseId.Some?
    requires Seen(before, from, entry.responseId.value, load)
    requires forall p | |before| <= p < |after| && IsAck(after[p]) :: Settles(after[p], entry, load)
    ensures AllCalledFor(after, from, Half(from, [entry], [load], []))
  {
    var h := Half(from, [entry], [load], []);
    assert forall p | 0 <= p < |before| :: after[p] == before[p];
    forall p: nat | |before| <= p < |after| && IsAck(after[p])
      ensures CalledFor(after, p, h)
    {
      SeenStays(before, after[..p], from, from, entry.responseId.value, load);
      assert Settles(after[p], h.entries[0], h.loads[0]);
    }
  }

  /** One more entry. */
  lemma CalledForGrows(
    before: seq<Step>, after: seq<Step>, from: nat, entries: seq<StreamEntry>, loads: seq<Load>, acks: seq<Action>,
    entry: StreamEntry, load: Load, acks': seq<Action>)
    requires before <= after && from <= |before| && |entries| == |loads|
    requires AllCalledFor(before, from, Half(from, entries, loads, acks))
    requires AllCalledFor(after, |before|, Half(|before|, [entry], [load], []))
    ensures AllCalledFor(after, from, Half(from, entries + [entry], loads + [load], acks'))
  {
    hide Seen;
    var h, one := Half(from, entries, loads, acks), Half(|before|, [entry], [load], []);
    var h' := Half(from, entries + [entry], loads + [load], acks');
    forall p: nat | from <= p < |after| && IsAck(after[p])
      ensures CalledFor(after, p, h')
    {
      if p < |before| {
        assert before[p] == after[p] && after[..p] == before[..p];
        assert CalledFor(before, p, h);
        var k: nat :| k < |entries| && Settles(before[p], entries[k], loads[k])
                      && Seen(before[..p], from, entries[k].responseId.value, loads[k]);
        assert h'.entries[k] == entries[k] && h'.loads[k] == loads[k];
      } else {
        assert CalledFor(after, p, one);
        SeenStays(after[..p], after[..p], from, |before|, entry.responseId.value, load);
        assert h'.entries[|entries|] == entry && h'.loads[|entries|] == load;
      }
    }
  }

  /** The first entries have been dealt with, and this is what came of them. */
  ghost predicate Handled(
    entries: seq<StreamEntry>, loads: seq<Load>, autoclaimed: bool, idleMs: Option<nat>, batch: Batch,
    start: Trail, now: Trail, acks: seq<Action>)
  {
    && AllHonest(now.steps, |start.steps|, entries, loads)
    && AllCalledFor(now.steps, |start.steps|, Half(|start.steps|, entries, loads, acks))
    && batch == BatchOf(entries, loads, autoclaimed, idleMs)
    && now.asked == start.asked + AsksOf(entries, loads)
    && now.own == start.own + acks && Acks(acks, entries, loads)
  }

  lemma HandledNothing(autoclaimed: bool, idleMs: Option<nat>, start: Trail)
    ensures Handled([], [], autoclaimed, idleMs, EMPTY, start, start, [])
  {
  }

  lemma HandledMeans(
    entries: seq<StreamEntry>, loads: seq<Load>, autoclaimed: bool, idleMs: Option<nat>, batch: Batch,
    start: Trail, now: Trail, acks: seq<Action>)
    requires Handled(entries, loads, autoclaimed, idleMs, batch, start, now, acks)
    ensures AllHonest(now.steps, |start.steps|, entries, loads)
    ensures AllCalledFor(now.steps, |start.steps|, Half(|start.steps|, entries, loads, acks))
    ensures batch == BatchOf(entries, loads, autoclaimed, idleMs)
    ensures now.asked == start.asked + AsksOf(entries, loads)
    ensures now.own == start.own + acks && Acks(acks, entries, loads)
  {
  }

  lemma HandledGrows(
    entries: seq<StreamEntry>, loads: seq<Load>, autoclaimed: bool, idleMs: Option<nat>, batch: Batch,
    start: Trail, now: Trail, acks: seq<Action>, entry: StreamEntry, load: Load, batch': Batch, now': Trail,
    more: seq<Action>)
    requires Handled(entries, loads, autoclaimed, idleMs, batch, start, now, acks)
    requires Extends(now, now') && Extends(start, now)
    requires batch' == Concat(batch, Single(entry, load, autoclaimed, idleMs))
    requires now'.asked == now.asked + AskOf(entry, load)
    requires now'.own == now.own + more && AckOf(more, entry, load)
    requires Honest(now'.steps, |now.steps|, entry, load)
    requires AllCalledFor(now'.steps, |now.steps|, Half(|now.steps|, [entry], [load], []))
    ensures Handled(entries + [entry], loads + [load], autoclaimed, idleMs, batch', start, now', acks + more)
  {
    hide Honest, BatchOf, AsksOf, AskOf, Single, Acks, AckOf, AllCalledFor;
    BatchGrows(entries, loads, entry, load, autoclaimed, idleMs);
    AsksGrow(entries, loads, entry, load);
    AcksGrow(acks, entries, loads, more, entry, load);
    AllHonestStays(now.steps, now'.steps, |start.steps|, |start.steps|, entries, loads);
    HonestStays(now'.steps, now'.steps, |start.steps|, |now.steps|, entry, load);
    CalledForGrows(now.steps, now'.steps, |start.steps|, entries, loads, acks, entry, load, acks + more);
  }

  /** How one command fares. */
  datatype Fault = Fine | ReplyLost | NotDone

  lemma ActionGrows(q: Queue, action: Action, request: nat)
    requires Inv(q) && request in q.readers && Foreign(action, request)
    ensures !Less(Apply(q, action).lastDelivered, q.lastDelivered)
    ensures request in Apply(q, action).readers && Apply(q, action).readers[request] == q.readers[request]
  {
    DeliveryGrows(q, action);
  }

  /** A scan takes entries in order, all of them delivered before. */
  lemma {:induction false} TakenInOrder(
    claimed: seq<Id>, k: nat, attempts: nat, count: nat, idle: set<Id>, stream: seq<Id>)
    requires Paging.Sorted(claimed) && k <= |claimed|
    ensures Paging.Sorted(ScanFrom(claimed, k, attempts, count, idle, stream).taken)
    decreases attempts
  {
    if attempts != 0 && count != 0 && k < |claimed| {
      if claimed[k] !in stream {
        TakenInOrder(claimed, k + 1, attempts - 1, count - 1, idle, stream);
      } else if claimed[k] !in idle {
        TakenInOrder(claimed, k + 1, attempts - 1, count, idle, stream);
      } else {
        TakenInOrder(claimed, k + 1, attempts - 1, count - 1, idle, stream);
        var rest := ScanFrom(claimed, k + 1, attempts - 1, count - 1, idle, stream);
        forall x | x in rest.taken
          ensures Less(claimed[k], x)
        {
          var i :| 0 <= i < rest.stop - (k + 1) && claimed[k + 1..rest.stop][i] == x;
          assert Less(claimed[k], claimed[k + 1 + i]);
        }
        SortedConcat([claimed[k]], rest.taken);
      }
    }
  }

  /** The stream entry with a given identifier. */
  function EntryFor(stream: seq<StreamEntry>, id: Id): (entry: StreamEntry)
    requires id in Ids(stream)
    ensures entry.id == id
  {
    if stream[0].id == id then stream[0]
    else
      assert id in Ids(stream[1..]) by {
        var i :| 0 <= i < |stream| && Ids(stream)[i] == id;
        assert Ids(stream[1..])[i - 1] == id;
      }
      EntryFor(stream[1..], id)
  }

  function EntriesFor(stream: seq<StreamEntry>, ids: seq<Id>): (entries: seq<StreamEntry>)
    requires forall x | x in ids :: x in Ids(stream)
    ensures Ids(entries) == ids
  {
    seq(|ids|, i requires 0 <= i < |ids| =>
      assert ids[i] in ids;
      EntryFor(stream, ids[i]))
  }

  lemma ScanIsDelivered(q: Queue, request: nat, count: nat, idle: set<Id>)
    requires Inv(q) && request in q.readers
    ensures var taken := ScanAt(q, q.readers[request].cursor, count, idle).taken;
            && Paging.Sorted(taken)
            && AllDelivered(q.lastDelivered, taken)
            && |taken| <= count
            && forall x | x in taken :: x in Ids(Retained(q))
  {
    hide Less, StreamOk, SettledOk, Accounted;
    var cursor := q.readers[request].cursor;
    var from := Paging.Skipped(q.claimed, From(cursor));
    TakenInOrder(q.claimed, from, 10 * count, count, idle, Ids(Retained(q)));
    var scan := ScanAt(q, cursor, count, idle);
    forall x | x in scan.taken
      ensures x in q.claimed
    {
      var i :| 0 <= i < scan.stop - from && q.claimed[from..scan.stop][i] == x;
      assert q.claimed[from + i] == x;
    }
  }

  lemma UndeliveredIsNew(q: Queue, count: nat)
    requires Inv(q)
    ensures var ids := Ids(Undelivered(q, count));
            && Paging.Sorted(ids)
            && NoneDelivered(q.lastDelivered, ids)
            && AllDelivered(Apply(q, WorkQueue.Action.ReadGroup(count)).lastDelivered, ids)
  {
    hide Less, Paging.Sorted, StreamOk, ClaimedOk, SettledOk, Accounted, FirstNew, EndNew;
    var lo, hi := FirstNew(q), EndNew(q, count);
    FirstNewSplits(q);
    SliceSorted(q, lo, hi);
    if lo < hi {
      assert Delivers(q, Deliver(q, count), lo, hi);
      forall x | x in Ids(Undelivered(q, count))
        ensures Less(q.lastDelivered, x) && !Less(Deliver(q, count).lastDelivered, x)
      {
        SliceMember(q, Deliver(q, count), lo, hi, x);
      }
    }
  }

  datatype ClaimOptions = ClaimOptions(count: nat, autoclaimMinIdleMs: nat)

  /** Step `i` was this request's XAUTOCLAIM, and it took these entries. */
  ghost predicate Took(origin: Queue, steps: seq<Step>, i: nat, request: nat, count: nat, entries: seq<StreamEntry>) {
    && i < |steps|
    && steps[i].Mine? && steps[i].action.Autoclaim?
    && steps[i].action.request == request && steps[i].action.count == count
    && var q := RunSteps(origin, steps[..i]);
       && q.trimmed <= |q.added| && request in q.readers
       && entries == EntriesFor(Retained(q), ScanAt(q, q.readers[request].cursor, count, steps[i].action.idle).taken)
  }

  /** Step `i` was this request's XREADGROUP for up to `count` entries, and it read these. */
  ghost predicate Fetched(origin: Queue, steps: seq<Step>, i: nat, count: nat, entries: seq<StreamEntry>) {
    && i < |steps|
    && steps[i] == Mine(WorkQueue.Action.ReadGroup(count))
    && var q := RunSteps(origin, steps[..i]);
       q.trimmed <= |q.added| && entries == Undelivered(q, count)
  }

  ghost predicate TookBetween(
    origin: Queue, steps: seq<Step>, from: nat, until: nat, request: nat, count: nat, entries: seq<StreamEntry>)
  {
    exists i: nat | from <= i < until :: Took(origin, steps, i, request, count, entries)
  }

  ghost predicate FetchedBetween(
    origin: Queue, steps: seq<Step>, from: nat, until: nat, count: nat, entries: seq<StreamEntry>)
  {
    exists i: nat | from <= i < until :: Fetched(origin, steps, i, count, entries)
  }

  lemma TookStays(
    origin: Queue, before: seq<Step>, after: seq<Step>, from: nat, later: nat, until: nat, request: nat, count: nat,
    entries: seq<StreamEntry>)
    requires before <= after && from <= later && TookBetween(origin, before, later, until, request, count, entries)
    ensures TookBetween(origin, after, from, until, request, count, entries)
  {
    var i: nat :| later <= i < until && Took(origin, before, i, request, count, entries);
    assert after[..i] == before[..i];
    assert Took(origin, after, i, request, count, entries);
  }

  lemma FetchedNow(origin: Queue, before: seq<Step>, after: seq<Step>, q: Queue, count: nat)
    requires q == RunSteps(origin, before) && after == before + [Mine(WorkQueue.Action.ReadGroup(count))]
    requires q.trimmed <= |q.added|
    ensures FetchedBetween(origin, after, |before|, |after|, count, Undelivered(q, count))
  {
    assert after[..|before|] == before;
    assert Fetched(origin, after, |before|, count, Undelivered(q, count));
  }

  lemma TookNow(
    origin: Queue, before: seq<Step>, after: seq<Step>, q: Queue, request: nat, count: nat, idle: set<Id>,
    entries: seq<StreamEntry>)
    requires q == RunSteps(origin, before)
    requires after == before + [Mine(WorkQueue.Action.Autoclaim(request, count, idle))]
    requires q.trimmed <= |q.added| && request in q.readers
    requires entries == EntriesFor(Retained(q), ScanAt(q, q.readers[request].cursor, count, idle).taken)
    ensures TookBetween(origin, after, |before|, |after|, request, count, entries)
  {
    assert after[..|before|] == before;
    assert Took(origin, after, |before|, request, count, entries);
  }

  lemma FetchedStays(
    origin: Queue, before: seq<Step>, after: seq<Step>, from: nat, later: nat, until: nat, count: nat,
    entries: seq<StreamEntry>)
    requires before <= after && from <= later && FetchedBetween(origin, before, later, until, count, entries)
    ensures FetchedBetween(origin, after, from, until, count, entries)
  {
    var i: nat :| later <= i < until && Fetched(origin, before, i, count, entries);
    assert after[..i] == before[..i];
    assert Fetched(origin, after, i, count, entries);
  }

  // ----- What a claim is accounted for by ------------------------------------------------------

  /** The record of one client's work: what happened, what it asked for, and what it did to the queue. */
  datatype Trail = Trail(steps: seq<Step>, asked: seq<Ask>, own: seq<Action>)

  ghost predicate Extends(before: Trail, after: Trail) {
    before.steps <= after.steps
  }

  /** A scan or a read: not asked for, or asked for, with what it did to the queue, which without an answer is unknown. */
  datatype Errand = Unasked | Asked(answered: bool, acts: seq<Action>)

  function ActsOf(e: Errand): seq<Action> {
    match e case Unasked => [] case Asked(_, acts) => acts
  }

  /** What a claim worked with. */
  datatype Account = Account(scan: Errand, rescued: Half, read: Errand, fetched: Half)

  ghost predicate Balanced(a: Account) {
    |a.rescued.entries| == |a.rescued.loads| && |a.fetched.entries| == |a.fetched.loads|
  }

  ghost function RescuedBatch(h: Half, options: ClaimOptions): Batch
    requires |h.entries| == |h.loads|
  {
    BatchOf(h.entries, h.loads, true, Some(options.autoclaimMinIdleMs))
  }

  ghost function FetchedBatch(h: Half): Batch
    requires |h.entries| == |h.loads|
  {
    BatchOf(h.entries, h.loads, false, None)
  }

  ghost predicate Wanted(options: ClaimOptions) {
    options.autoclaimMinIdleMs > 0 && options.count > 0
  }

  /** What is left to read, once the rescued half is known. */
  ghost function Remaining(h: Half, options: ClaimOptions): nat
    requires |h.entries| == |h.loads|
  {
    if Size(RescuedBatch(h, options)) <= options.count then options.count - Size(RescuedBatch(h, options)) else 0
  }

  /** The answer that the account of a claim amounts to. */
  ghost function Outcome(a: Account, options: ClaimOptions): Result<Batch, StoreError>
    requires Balanced(a)
  {
    var first := RescuedBatch(a.rescued, options);
    if a.scan.Asked? && !a.scan.answered then Err(Transitions.Storage)
    else if a.read.Unasked? then Ok(first)
    else if a.read.answered then Ok(Concat(first, FetchedBatch(a.fetched)))
    else if Size(first) > 0 then Ok(first)
    else Err(Transitions.Storage)
  }

  // ----- What an answer holds, by the loads alone ----------------------------------------------

  ghost predicate Holds(b: Batch, h: Half, autoclaimed: bool, idleMs: Option<nat>) {
    && |h.entries| == |h.loads|
    && HoldsJobs(b.jobs, h.entries, h.loads, autoclaimed, idleMs)
    && HoldsPending(b.pendingJobs, h.entries, h.loads, autoclaimed, idleMs)
    && Size(b) == Kept(h.entries, h.loads)
  }

  /** The jobs and pending jobs of the rescued half, then those of the fetched half, and nothing else. */
  ghost predicate Joins(b: Batch, a: Account, minIdleMs: nat)
    requires Balanced(a)
  {
    var rescued, fetched := a.rescued, a.fetched;
    var n, m := |LoadedAt(rescued.entries, rescued.loads)|, |UnreadAt(rescued.entries, rescued.loads)|;
    && n <= |b.jobs| && m <= |b.pendingJobs|
    && HoldsJobs(b.jobs[..n], rescued.entries, rescued.loads, true, Some(minIdleMs))
    && HoldsJobs(b.jobs[n..], fetched.entries, fetched.loads, false, None)
    && HoldsPending(b.pendingJobs[..m], rescued.entries, rescued.loads, true, Some(minIdleMs))
    && HoldsPending(b.pendingJobs[m..], fetched.entries, fetched.loads, false, None)
  }

  /**
   The answer of a claim: an error when the scan failed, or when the read failed and nothing was rescued, and otherwise
   everything that was rescued and read. The read is for what the rescued half leaves of the count, if anything.
   */
  ghost predicate Answers(r: Result<Batch, StoreError>, options: ClaimOptions, a: Account) {
    && Balanced(a)
    && var kept := Kept(a.rescued.entries, a.rescued.loads);
       && (a.scan.Asked? <==> options.autoclaimMinIdleMs > 0 && options.count > 0)
       && (a.read.Asked? <==> (a.scan.Asked? ==> a.scan.answered) && kept < options.count)
       && (a.read.Asked? ==> Remaining(a.rescued, options) == options.count - kept)
       && (a.read.Asked? && !a.read.answered ==> a.fetched == NO_HALF)
       && (r.Err? <==>
             (a.scan.Asked? && !a.scan.answered) || (a.read.Asked? && !a.read.answered && kept == 0))
       && (r.Err? ==> r.error.Storage?)
       && (r.Ok? ==> Joins(r.value, a, options.autoclaimMinIdleMs))
  }

  lemma NothingHeld(autoclaimed: bool, idleMs: Option<nat>)
    ensures Holds(EMPTY, NO_HALF, autoclaimed, idleMs)
  {
  }

  lemma HeldJoins(first: Batch, second: Batch, a: Account, minIdleMs: nat)
    requires Holds(first, a.rescued, true, Some(minIdleMs)) && Holds(second, a.fetched, false, None)
    ensures Balanced(a) && Joins(Concat(first, second), a, minIdleMs)
  {
    hide JobAt, PendingAt, LoadedAt, UnreadAt;
    var b := Concat(first, second);
    assert b.jobs[..|first.jobs|] == first.jobs && b.jobs[|first.jobs|..] == second.jobs;
    assert b.pendingJobs[..|first.pendingJobs|] == first.pendingJobs;
    assert b.pendingJobs[|first.pendingJobs|..] == second.pendingJobs;
  }

  /** A claim that hands out only its rescued half. */
  lemma FirstHalfJoins(first: Batch, a: Account, minIdleMs: nat)
    requires Holds(first, a.rescued, true, Some(minIdleMs)) && a.fetched == NO_HALF
    ensures Balanced(a) && Joins(first, a, minIdleMs)
  {
    NothingHeld(false, None);
    HeldJoins(first, EMPTY, a, minIdleMs);
    assert Concat(first, EMPTY) == first;
  }

  predicate OneScan(acts: seq<Action>, request: nat, count: nat) {
    |acts| == 1 && acts[0].Autoclaim? && acts[0].request == request && acts[0].count == count
  }

  /** The scan: asked for exactly when rescuing is wanted, at most one; the rescued entries, loaded after, are what it took. */
  ghost predicate ScanDone(
    origin: Queue, steps: seq<Step>, from: nat, request: nat, options: ClaimOptions, scan: Errand, h: Half)
  {
    && (scan.Asked? <==> Wanted(options))
    && (ActsOf(scan) == [] || OneScan(ActsOf(scan), request, options.count))
    && (if scan.Asked? && scan.answered
        then ActsOf(scan) != [] && TookBetween(origin, steps, from, h.since, request, options.count, h.entries)
        else h == NO_HALF)
  }

  /** The read: asked for exactly when something is left to read, at most one; the fetched entries, loaded after, are what it read. */
  ghost predicate ReadDone(
    origin: Queue, steps: seq<Step>, from: nat, count: nat, wanted: bool, read: Errand, h: Half)
  {
    && (read.Asked? <==> wanted)
    && (ActsOf(read) == [] || ActsOf(read) == [WorkQueue.Action.ReadGroup(count)])
    && (if read.Asked? && read.answered
        then ActsOf(read) != [] && FetchedBetween(origin, steps, from, h.since, count, h.entries)
        else h == NO_HALF)
  }

  ghost predicate HalfDone(steps: seq<Step>, h: Half) {
    AllHonest(steps, h.since, h.entries, h.loads) && Acks(h.acks, h.entries, h.loads)
  }

  function ScanAsks(scan: Errand): seq<Ask> {
    match scan case Unasked => [] case Asked(answered, _) => [AskScan(answered)]
  }

  function ReadAsks(read: Errand, count: nat): seq<Ask> {
    match read case Unasked => [] case Asked(answered, _) => [AskRead(count, answered)]
  }

  /** The first half of a claim, from asking for the scan to the last acknowledgement. */
  ghost predicate RescueDone(
    origin: Queue, start: Trail, end: Trail, request: nat, options: ClaimOptions, scan: Errand, h: Half)
  {
    && HalfDone(end.steps, h) && AllCalledFor(end.steps, |start.steps|, h)
    && ScanDone(origin, end.steps, |start.steps|, request, options, scan, h)
    && end.own == start.own + (ActsOf(scan) + h.acks)
    && end.asked == start.asked + (ScanAsks(scan) + AsksOf(h.entries, h.loads))
  }

  ghost predicate FillDone(origin: Queue, start: Trail, end: Trail, count: nat, wanted: bool, read: Errand, h: Half) {
    && HalfDone(end.steps, h) && AllCalledFor(end.steps, |start.steps|, h)
    && ReadDone(origin, end.steps, |start.steps|, count, wanted, read, h)
    && end.own == start.own + (ActsOf(read) + h.acks)
    && end.asked == start.asked + (ReadAsks(read, count) + AsksOf(h.entries, h.loads))
  }

  /**
   A claim, whatever it answers: one scan if rescuing is wanted, one read for exactly the rest unless the scan failed,
   and in between and after nothing but the acknowledgements of entries whose records had been seen missing or corrupt.
   */
  ghost predicate Claimed(origin: Queue, start: Trail, end: Trail, request: nat, options: ClaimOptions, a: Account) {
    && Balanced(a)
    && HalfDone(end.steps, a.rescued) && HalfDone(end.steps, a.fetched)
    && (forall p: nat | |start.steps| <= p < |end.steps| && IsAck(end.steps[p]) ::
          CalledFor(end.steps, p, a.rescued) || CalledFor(end.steps, p, a.fetched))
    && ScanDone(origin, end.steps, |start.steps|, request, options, a.scan, a.rescued)
    && var count := Remaining(a.rescued, options);
       && ReadDone(origin, end.steps, |start.steps|, count, (a.scan.Asked? ==> a.scan.answered) && count > 0, a.read, a.fetched)
       && end.own == start.own + (ActsOf(a.scan) + a.rescued.acks) + (ActsOf(a.read) + a.fetched.acks)
       && end.asked == start.asked + (ScanAsks(a.scan) + AsksOf(a.rescued.entries, a.rescued.loads))
                       + (ReadAsks(a.read, count) + AsksOf(a.fetched.entries, a.fetched.loads))
  }

  /** A batch that can be handed out. */
  ghost predicate Good(batch: Batch, options: ClaimOptions, last: Id) {
    && Sound(batch) && Size(batch) <= options.count
    && FlagsOk(batch, options.autoclaimMinIdleMs) && AllDelivered(last, IdsOf(batch))
  }

  lemma HalfStays(before: seq<Step>, after: seq<Step>, h: Half)
    requires before <= after && HalfDone(before, h)
    ensures HalfDone(after, h)
  {
    AllHonestStays(before, after, h.since, h.since, h.entries, h.loads);
  }

  lemma ScanStays(
    origin: Queue, before: seq<Step>, after: seq<Step>, from: nat, later: nat, request: nat, options: ClaimOptions,
    scan: Errand, h: Half)
    requires before <= after && from <= later && ScanDone(origin, before, later, request, options, scan, h)
    ensures ScanDone(origin, after, from, request, options, scan, h)
  {
    if scan.Asked? && scan.answered {
      TookStays(origin, before, after, from, later, h.since, request, options.count, h.entries);
    }
  }

  lemma ReadStays(
    origin: Queue, before: seq<Step>, after: seq<Step>, from: nat, later: nat, count: nat, wanted: bool, read: Errand,
    h: Half)
    requires before <= after && from <= later && ReadDone(origin, before, later, count, wanted, read, h)
    ensures ReadDone(origin, after, from, count, wanted, read, h)
  {
    if read.Asked? && read.answered {
      FetchedStays(origin, before, after, from, later, h.since, count, h.entries);
    }
  }

  /** A claim that ends with its first half. */
  lemma RescueIsClaim(
    origin: Queue, start: Trail, end: Trail, request: nat, options: ClaimOptions, scan: Errand, h: Half)
    requires RescueDone(origin, start, end, request, options, scan, h)
    requires (scan.Asked? && !scan.answered) || Remaining(h, options) == 0
    ensures Claimed(origin, start, end, request, options, Account(scan, h, Unasked, NO_HALF))
  {
    hide ScanDone, AllHonest, Acks, CalledFor;
    HalfBalanced(end.steps, h);
    NothingDone(end.steps);
    assert end.own == start.own + (ActsOf(scan) + h.acks) + (ActsOf(Unasked) + NO_HALF.acks);
    assert end.asked == start.asked + (ScanAsks(scan) + AsksOf(h.entries, h.loads))
                        + (ReadAsks(Unasked, Remaining(h, options)) + AsksOf(NO_HALF.entries, NO_HALF.loads));
  }

  lemma NothingDone(steps: seq<Step>)
    ensures HalfDone(steps, NO_HALF) && AsksOf(NO_HALF.entries, NO_HALF.loads) == []
  {
  }

  /** A claim of both halves. */
  lemma BothAreClaim(
    origin: Queue, start: Trail, middle: Trail, end: Trail, request: nat, options: ClaimOptions, a: Account)
    requires Extends(start, middle) && Extends(middle, end)
    requires RescueDone(origin, start, middle, request, options, a.scan, a.rescued)
    requires (a.scan.Asked? ==> a.scan.answered) && Remaining(a.rescued, options) > 0
    requires FillDone(origin, middle, end, Remaining(a.rescued, options), true, a.read, a.fetched)
    ensures Claimed(origin, start, end, request, options, a)
  {
    hide ScanDone, ReadDone, HalfDone, AsksOf, Remaining, CalledFor;
    assert Balanced(a) by {
      HalfBalanced(middle.steps, a.rescued);
      HalfBalanced(end.steps, a.fetched);
    }
    HalfStays(middle.steps, end.steps, a.rescued);
    forall p: nat | |start.steps| <= p < |end.steps| && IsAck(end.steps[p])
      ensures CalledFor(end.steps, p, a.rescued) || CalledFor(end.steps, p, a.fetched)
    {
      if p < |middle.steps| {
        assert middle.steps[p] == end.steps[p];
        CalledForStays(middle.steps, end.steps, p, a.rescued);
      }
    }
    ScanStays(origin, middle.steps, end.steps, |start.steps|, |start.steps|, request, options, a.scan, a.rescued);
    ReadStays(origin, end.steps, end.steps, |start.steps|, |middle.steps|, Remaining(a.rescued, options), true, a.read, a.fetched);
  }

  lemma HalfBalanced(steps: seq<Step>, h: Half)
    requires HalfDone(steps, h)
    ensures |h.entries| == |h.loads|
  {
  }

  /**
   Who acknowledged what: before every acknowledgement by a claim is a load of one of its entries that found the
   record missing or corrupt, and before that the scan or read that took the entry.
   */
  lemma AcknowledgesOnlyLost(
    origin: Queue, start: Trail, end: Trail, request: nat, options: ClaimOptions, a: Account, p: nat)
    returns (h: Half, k: nat, t: nat)
    requires Claimed(origin, start, end, request, options, a)
    requires |start.steps| <= p < |end.steps| && IsAck(end.steps[p])
    ensures Balanced(a)
    ensures || (h == a.rescued && TookBetween(origin, end.steps, |start.steps|, t, request, options.count, h.entries))
            || (h == a.fetched && FetchedBetween(origin, end.steps, |start.steps|, t, Remaining(a.rescued, options), h.entries))
    ensures k < |h.entries| == |h.loads| && h.entries[k].responseId.Some? && end.steps[p].action.id == h.entries[k].id
    ensures |start.steps| <= t && t + 1 < p && end.steps[t].Stored?
    ensures end.steps[t + 1] == Loads(h.entries[k].responseId.value, h.loads[k])
    ensures h.loads[k] == LoadRecord(end.steps[t].db, h.entries[k].responseId.value, false)
    ensures || (end.steps[p].action.reason == RecordMissing && h.loads[k] == Ok(None))
            || (end.steps[p].action.reason == RecordCorrupt && h.loads[k] == Err(Transitions.Serialization))
  {
    hide HalfDone, AsksOf, Remaining, Took, Fetched, LoadRecord;
    h := if CalledFor(end.steps, p, a.rescued) then a.rescued else a.fetched;
    k :| k < |h.entries| == |h.loads| && Settles(end.steps[p], h.entries[k], h.loads[k])
         && Seen(end.steps[..p], h.since, h.entries[k].responseId.value, h.loads[k]);
    t :| h.since <= t && SeenAt(end.steps[..p], t, h.entries[k].responseId.value, h.loads[k]);
    assert end.steps[..p][t] == end.steps[t] && end.steps[..p][t + 1] == end.steps[t + 1];
  }

  /**
   The queue as one client uses it. `steps` is everything that happened to it since `origin` and what the record store
   held meanwhile, `asked` what this client asked for, and `own` what it did to the queue.
   */
  class BackgroundQueue {
    const fares: nat -> Fault     // how each command of this client fares
    var sent: nat
    var q: Queue
    var db: Redis.Db
    ghost var origin: Queue
    ghost var steps: seq<Step>
    ghost var asked: seq<Ask>
    ghost var own: seq<Action>

    constructor (q: Queue, db: Redis.Db, fares: nat -> Fault)
      requires Inv(q)
      ensures Valid() && this.q == q && this.db == db && origin == q && steps == [] && asked == []
      ensures this.fares == fares && sent == 0
    {
      this.fares := fares;
      sent := 0;
      this.q := q;
      this.db := db;
      origin := q;
      steps := [];
      asked := [];
      own := [];
    }

    ghost function Now(): Trail
      reads this
    {
      Trail(steps, asked, own)
    }

    ghost predicate Valid()
      reads this
    {
      && Inv(q) && q == RunSteps(origin, steps)
      && own == Own(steps)
    }

    /** From the old state to the new one, nothing that happened was forgotten and no delivery was taken back. */
    twostate predicate Later(request: nat)
      reads this
    {
      && origin == old(origin)
      && Extends(old(Now()), Now())
      && !Less(q.lastDelivered, old(q.lastDelivered))
      && (request in old(q.readers) ==> request in q.readers)
    }

    method Do(request: nat, action: Action, mine: bool)
      requires Valid() && request in q.readers
      requires Foreign(action, request) || (mine && action.Autoclaim?)
      modifies this`q, this`steps, this`own
      ensures Valid() && Later(request)
      ensures q == Apply(old(q), action)
      ensures steps == old(steps) + [if mine then Mine(action) else Theirs(action)]
      ensures own == if mine then old(own) + [action] else old(own)
      ensures Foreign(action, request) ==> q.readers[request] == old(q.readers[request])
    {
      ActionKeeps(q, action);
      DeliveryGrows(q, action);
      ghost var before := steps;
      if Foreign(action, request) {
        ActionGrows(q, action, request);
      }
      q := Apply(q, action);
      steps := steps + [if mine then Mine(action) else Theirs(action)];
      assert steps[..|steps| - 1] == before;
      own := Own(steps);
    }

    /** Other clients do whatever they like, to the queue and to the records. */
    method Others(request: nat)
      requires Valid() && request in q.readers
      modifies this`q, this`steps, this`own, this`db
      ensures Valid() && Later(request) && own == old(own)
      ensures q.readers[request] == old(q.readers[request])
      ensures |steps| > |old(steps)| && steps[|steps| - 1] == Stored(db) && OthersOnly(steps, |old(steps)|)
    {
      hide Inv, RunSteps, Own, Apply, Less;
      var actions: seq<Action> :| forall a | a in actions :: Foreign(a, request);
      LessIsNotReflexive(q.lastDelivered);
      for n := 0 to |actions|
        invariant Valid() && Later(request) && own == old(own)
        invariant request in q.readers && q.readers[request] == old(q.readers[request])
        invariant OthersOnly(steps, |old(steps)|)
      {
        ghost var between := q.lastDelivered;
        Do(request, actions[n], false);
        DeliveryChain(old(q.lastDelivered), between, q.lastDelivered);
      }
      db := *;
      NothingTaken(origin, steps, Stored(db));
      steps := steps + [Stored(db)];
    }

    /** XACK. Zero acknowledged entries is an error to the caller. */
    method Acknowledge(request: nat, id: Id, reason: Reason) returns (r: Result<(), StoreError>, ghost acks: seq<Action>)
      requires Valid() && request in q.readers
      modifies this
      ensures Valid() && Later(request)
      ensures q.readers[request] == old(q.readers[request])
      ensures asked == old(asked) + [AskAcknowledge(id, reason)]
      ensures own == old(own) + acks && (acks == [] || acks == [WorkQueue.Action.Acknowledge(id, reason)])
      ensures forall p | |old(steps)| <= p < |steps| && IsAck(steps[p]) ::
                steps[p] == Mine(WorkQueue.Action.Acknowledge(id, reason))
      ensures sent == old(sent) + 1
      ensures acks == [] <==> fares(old(sent)).NotDone?
      ensures acks != [] ==> |steps| > |old(steps)| && steps[|steps| - 1] == Mine(WorkQueue.Action.Acknowledge(id, reason))
      ensures acks != [] ==> id !in q.claimed
      ensures fares(old(sent)).Fine? ==>
                r == if id in RunSteps(origin, steps[..|steps| - 1]).claimed then Ok(()) else Err(Transitions.InvalidArgument)
      ensures !fares(old(sent)).Fine? ==> r == Err(Transitions.Storage)
      ensures r.Ok? ==> id in q.settled && q.settled[id] == reason
    {
      hide Inv, RunSteps, Own, Less, Apply;
      acks := [];
      asked := asked + [AskAcknowledge(id, reason)];
      Others(request);
      var fault := Fares();
      if fault.NotDone? {
        return Err(Transitions.Storage), [];
      }
      var q0 := q;
      ghost var before := steps;
      Do(request, WorkQueue.Action.Acknowledge(id, reason), true);
      AcknowledgeEffect(q0, id, reason);
      DeliveryChain(old(q.lastDelivered), q0.lastDelivered, q.lastDelivered);
      acks := [WorkQueue.Action.Acknowledge(id, reason)];
      assert steps[..|steps| - 1] == before;
      if fault.ReplyLost? {
        return Err(Transitions.Storage), acks;
      }
      r := if id in q0.claimed then Ok(()) else Err(Transitions.InvalidArgument);
    }

    /** How the next command fares. */
    method Fares() returns (fault: Fault)
      modifies this`sent
      ensures fault == fares(old(sent)) && sent == old(sent) + 1
    {
      fault := fares(sent);
      sent := sent + 1;
    }

    /** One load of a record. */
    method LoadOnce(request: nat, responseId: string) returns (load: Load)
      requires Valid() && request in q.readers
      modifies this`sent, this`q, this`steps, this`own, this`db
      ensures Valid() && Later(request) && own == old(own) && sent == old(sent) + 1
      ensures q.readers[request] == old(q.readers[request])
      ensures |steps| >= |old(steps)| + 2 && OthersOnly(steps[..|steps| - 1], |old(steps)|)
      ensures load == Err(Transitions.Storage) <==> !fares(old(sent)).Fine?
      ensures load != Err(Transitions.Storage) ==> SeenAt(steps, |steps| - 2, responseId, load)
      ensures Plain(load)
      ensures steps[|steps| - 1] == Loads(responseId, load)
    {
      hide Inv, RunSteps, Own, Less;
      Others(request);
      var fault := Fares();
      load := LoadRecord(db, responseId, !fault.Fine?);
      NothingTaken(origin, steps, Loads(responseId, load));
      ghost var before := steps;
      steps := steps + [Loads(responseId, load)];
      assert steps[..|steps| - 1] == before;
    }

    /**
     Storage errors are retried; any other answer is final, and is what the store held at that moment. `at` are the
     steps at which the record was loaded.
     */
    method LoadWithRetries(request: nat, responseId: string)
      returns (load: Load, ghost tries: seq<Load>, ghost at: seq<nat>)
      requires Valid() && request in q.readers
      modifies this`sent, this`q, this`steps, this`own, this`db
      ensures Valid() && Later(request) && own == old(own) && sent == old(sent) + |tries|
      ensures q.readers[request] == old(q.readers[request])
      ensures 1 <= |tries| <= 3 && load == tries[|tries| - 1]
      ensures forall i | 0 <= i < |tries| - 1 :: tries[i] == Err(Transitions.Storage)
      ensures load == Err(Transitions.Storage) ==> |tries| == 3
      ensures forall i | 0 <= i < |tries| :: tries[i] == Err(Transitions.Storage) <==> !fares(old(sent) + i).Fine?
      ensures LoadedBy(steps, |old(steps)|, responseId, tries, at)
      ensures Plain(load)
      ensures load == Err(Transitions.Storage) ==> Exhausted(steps, |old(steps)|, responseId)
      ensures load != Err(Transitions.Storage) ==> Seen(steps, |old(steps)|, responseId, load)
      ensures Quiet(steps, |old(steps)|)
    {
      hide Inv, RunSteps, Own, Less, LoadedBy, Seen, SeenAt, Exhausted, Quiet, OthersOnly;
      tries, at := [], [];
      NothingLoaded(steps, responseId);
      load := Err(Transitions.Storage);
      LessIsNotReflexive(q.lastDelivered);
      for attempt := 0 to LOAD_RETRY_ATTEMPTS
        invariant Valid() && Later(request) && own == old(own) && sent == old(sent) + attempt
        invariant request in q.readers && q.readers[request] == old(q.readers[request])
        invariant |tries| == attempt && load == Err(Transitions.Storage) && Quiet(steps, |old(steps)|)
        invariant forall i | 0 <= i < |tries| :: tries[i] == Err(Transitions.Storage) && !fares(old(sent) + i).Fine?
        invariant LoadedBy(steps, |old(steps)|, responseId, tries, at)
      {
        ghost var between, before := q.lastDelivered, steps;
        load := LoadOnce(request, responseId);
        DeliveryChain(old(q.lastDelivered), between, q.lastDelivered);
        LoadedByGrows(before, steps, |old(steps)|, responseId, tries, at, load);
        LoadIsQuiet(before, steps, |old(steps)|);
        tries, at := tries + [load], at + [|steps| - 1];
        if load != Err(Transitions.Storage) {
          SeenNow(steps, |old(steps)|, responseId, load);
          return;
        }
      }
      ThreeFailed(steps, |old(steps)|, responseId, tries, at);
    }

    /** One entry: load its record, and keep it, defer it, acknowledge it or skip it. */
    method JobFromEntry(request: nat, entry: StreamEntry, autoclaimed: bool, idleMs: Option<nat>, batch: Batch)
      returns (r: Batch, ghost load: Load, ghost acks: seq<Action>)
      requires Valid() && request in q.readers
      modifies this
      ensures Valid() && Later(request)
      ensures q.readers[request] == old(q.readers[request])
      ensures r == Concat(batch, Single(entry, load, autoclaimed, idleMs)) && asked == old(asked) + AskOf(entry, load)
      ensures Becomes(entry, load, autoclaimed, idleMs, batch, r, old(asked), asked)
      ensures Plain(load)
      ensures Honest(steps, |old(steps)|, entry, load)
      ensures AllCalledFor(steps, |old(steps)|, Half(|old(steps)|, [entry], [load], []))
      ensures own == old(own) + acks && AckOf(acks, entry, load)
    {
      hide Inv, RunSteps, Own, Less, Becomes, Seen, Exhausted, Quiet, AllCalledFor, AskOf, AckOf, Settles, FateOf;
      r := batch;
      load := Ok(None);
      acks := [];
      LessIsNotReflexive(q.lastDelivered);
      QuietIsCalledFor(steps, |steps|, Half(|old(steps)|, [entry], [load], []));
      if entry.responseId.None? {
        EntryBecomes(entry, load, autoclaimed, idleMs, batch, asked);
        NoRecordNamed(entry, load, autoclaimed, idleMs, batch);
        return;
      }
      var id := entry.responseId.value;
      ghost var tries, at;
      var reply;
      reply, tries, at := LoadWithRetries(request, id);
      load := reply;
      EntryBecomes(entry, load, autoclaimed, idleMs, batch, asked);
      EntryCases(entry, load, autoclaimed, idleMs, batch);
      hide Single, Concat;
      ghost var loaded, between := steps, q.lastDelivered;
      assert Honest(loaded, |old(steps)|, entry, load);
      QuietIsCalledFor(loaded, |old(steps)|, Half(|old(steps)|, [entry], [load], []));
      match reply
      case Ok(Some(record)) =>
        r := batch.(jobs := batch.jobs + [BackgroundJob(entry.id, id, record, autoclaimed, idleMs)]);
      case Ok(None) =>
        var answer;
        answer, acks := Acknowledge(request, entry.id, RecordMissing);
        DeliveryChain(old(q.lastDelivered), between, q.lastDelivered);
        HonestStays(loaded, steps, |old(steps)|, |old(steps)|, entry, load);
        SettlingIsCalledFor(loaded, steps, |old(steps)|, entry, load);
      case Err(Serialization) =>
        var answer;
        answer, acks := Acknowledge(request, entry.id, RecordCorrupt);
        DeliveryChain(old(q.lastDelivered), between, q.lastDelivered);
        HonestStays(loaded, steps, |old(steps)|, |old(steps)|, entry, load);
        SettlingIsCalledFor(loaded, steps, |old(steps)|, entry, load);
      case Err(_) =>
        r := batch.(pendingStreamIds := batch.pendingStreamIds + [entry.id],
                    pendingJobs := batch.pendingJobs + [PendingJob(entry.id, id, autoclaimed, idleMs)]);
    }

    /** Sorting claimed entries into jobs, pending jobs, acknowledged and skipped ones; it never fails. */
    method JobsFromStreamIds(request: nat, entries: seq<StreamEntry>, autoclaimed: bool, minIdleMs: Option<nat>)
      returns (r: Result<Batch, StoreError>, ghost loads: seq<Load>, ghost acks: seq<Action>)
      requires Valid() && request in q.readers
      modifies this
      ensures Valid() && Later(request)
      ensures q.readers[request] == old(q.readers[request])
      ensures HalfDone(steps, Half(|old(steps)|, entries, loads, acks))
      ensures AllCalledFor(steps, |old(steps)|, Half(|old(steps)|, entries, loads, acks))
      ensures r == Ok(BatchOf(entries, loads, autoclaimed, if autoclaimed then minIdleMs else None))
      ensures HoldsJobs(r.value.jobs, entries, loads, autoclaimed, if autoclaimed then minIdleMs else None)
      ensures HoldsPending(r.value.pendingJobs, entries, loads, autoclaimed, if autoclaimed then minIdleMs else None)
      ensures Size(r.value) == Kept(entries, loads) && HoldsAsks(AsksOf(entries, loads), entries, loads)
      ensures asked == old(asked) + AsksOf(entries, loads)
      ensures own == old(own) + acks
    {
      hide Handled, Valid, Less, AckOf, AskOf, Honest, Single, Concat, BatchOf, AsksOf, Acks, AllHonest, AllCalledFor,
        HoldsJobs, HoldsPending, HoldsAsks, Kept, Loaded, Unread, Lost, Plain;
      var idleMs := if autoclaimed then minIdleMs else None;
      var batch := EMPTY;
      loads, acks := [], [];
      ghost var start := Now();
      HandledNothing(autoclaimed, idleMs, start);
      assert entries[..0] == [];
      LessIsNotReflexive(q.lastDelivered);
      for n := 0 to |entries|
        invariant Valid() && Later(request)
        invariant request in q.readers && q.readers[request] == old(q.readers[request])
        invariant Handled(entries[..n], loads, autoclaimed, idleMs, batch, start, Now(), acks)
        invariant forall load | load in loads :: Plain(load)
      {
        ghost var done, before, earlier, between := loads, batch, Now(), q.lastDelivered;
        ghost var load, more;
        batch, load, more := JobFromEntry(request, entries[n], autoclaimed, idleMs, batch);
        DeliveryChain(old(q.lastDelivered), between, q.lastDelivered);
        assert entries[..n + 1] == entries[..n] + [entries[n]];
        HandledGrows(entries[..n], done, autoclaimed, idleMs, before, start, earlier, acks, entries[n], load, batch,
                     Now(), more);
        loads, acks := done + [load], acks + more;
      }
      assert entries[..|entries|] == entries;
      r := Ok(batch);
      HandledMeans(entries, loads, autoclaimed, idleMs, batch, start, Now(), acks);
      BatchHolds(entries, loads, autoclaimed, idleMs);
      AsksHold(entries, loads);
    }

    method Autoclaim(request: nat, options: ClaimOptions) returns (r: Result<seq<StreamEntry>, StoreError>, ghost scan: Errand)
      requires Valid() && request in q.readers && Wanted(options)
      modifies this
      ensures Valid() && Later(request)
      ensures scan == Asked(r.Ok?, ActsOf(scan)) && asked == old(asked) + ScanAsks(scan)
      ensures own == old(own) + ActsOf(scan)
      ensures ActsOf(scan) == [] || OneScan(ActsOf(scan), request, options.count)
      ensures r.Ok? ==> ActsOf(scan) != []
      ensures r.Ok? ==> TookBetween(origin, steps, |old(steps)|, |steps|, request, options.count, r.value)
      ensures Quiet(steps, |old(steps)|)
      ensures r.Ok? ==> |r.value| <= options.count && Paging.Sorted(Ids(r.value))
      ensures r.Ok? ==> AllDelivered(q.lastDelivered, Ids(r.value))
      ensures sent == old(sent) + 1 && (r.Ok? <==> fares(old(sent)).Fine?)
      ensures ActsOf(scan) == [] <==> fares(old(sent)).NotDone?
      ensures r.Err? ==> r.error.Storage?
    {
      hide Inv, RunSteps, Own, Paging.Sorted, TookBetween, AllDelivered, Less;
      Others(request);
      var fault := Fares();
      if fault.NotDone? {
        scan := Asked(false, []);
        asked := asked + [AskScan(false)];
        return Err(Transitions.Storage), scan;
      }
      var entries;
      ghost var acts, later, between := [], |steps|, q.lastDelivered;
      entries, acts := Scan(request, options);
      TookStays(origin, steps, steps, |old(steps)|, later, |steps|, request, options.count, entries);
      DeliveryChain(old(q.lastDelivered), between, q.lastDelivered);
      scan := Asked(!fault.ReplyLost?, acts);
      asked := asked + [AskScan(!fault.ReplyLost?)];
      r := if fault.ReplyLost? then Err(Transitions.Storage) else Ok(entries);
    }

    /** XAUTOCLAIM itself; which entries it finds idle is up to the queue. */
    method Scan(request: nat, options: ClaimOptions) returns (entries: seq<StreamEntry>, ghost acts: seq<Action>)
      requires Valid() && request in q.readers && Wanted(options)
      modifies this`q, this`steps, this`own
      ensures Valid() && Later(request) && own == old(own) + acts && OneScan(acts, request, options.count)
      ensures TookBetween(origin, steps, |old(steps)|, |steps|, request, options.count, entries)
      ensures Quiet(steps, |old(steps)|)
      ensures |entries| <= options.count && Paging.Sorted(Ids(entries)) && AllDelivered(q.lastDelivered, Ids(entries))
    {
      hide Apply, Rescue, ScanAt, Inv, RunSteps, Own, Paging.Sorted, Retained, Less;
      var idle: set<Id> := *;
      InvTrims(q);
      ScanIsDelivered(q, request, options.count, idle);
      entries := EntriesFor(Retained(q), ScanAt(q, q.readers[request].cursor, options.count, idle).taken);
      assert |Ids(entries)| == |entries|;
      ghost var before, q0 := steps, q;
      Do(request, WorkQueue.Action.Autoclaim(request, options.count, idle), true);
      DeliveredStays(q0.lastDelivered, q.lastDelivered, Ids(entries));
      TookNow(origin, before, steps, q0, request, options.count, idle, entries);
      acts := [WorkQueue.Action.Autoclaim(request, options.count, idle)];
    }

    method ReadGroup(request: nat, count: nat) returns (r: Result<seq<StreamEntry>, StoreError>, ghost read: Errand)
      requires Valid() && request in q.readers && count > 0
      modifies this
      ensures Valid() && Later(request)
      ensures read == Asked(r.Ok?, ActsOf(read)) && asked == old(asked) + ReadAsks(read, count)
      ensures own == old(own) + ActsOf(read) && (ActsOf(read) == [] || ActsOf(read) == [WorkQueue.Action.ReadGroup(count)])
      ensures r.Ok? ==> ActsOf(read) != []
      ensures r.Ok? ==> FetchedBetween(origin, steps, |old(steps)|, |steps|, count, r.value)
      ensures Quiet(steps, |old(steps)|)
      ensures r.Ok? ==> |r.value| <= count && Paging.Sorted(Ids(r.value))
      ensures r.Ok? ==> NoneDelivered(old(q.lastDelivered), Ids(r.value)) && AllDelivered(q.lastDelivered, Ids(r.value))
      ensures sent == old(sent) + 1 && (r.Ok? <==> fares(old(sent)).Fine?)
      ensures ActsOf(read) == [] <==> fares(old(sent)).NotDone?
      ensures r.Err? ==> r.error.Storage?
    {
      hide Inv, RunSteps, Own, Paging.Sorted, FetchedBetween, AllDelivered, NoneDelivered, Less;
      Others(request);
      var fault := Fares();
      if fault.NotDone? {
        read := Asked(false, []);
        asked := asked + [AskRead(count, false)];
        return Err(Transitions.Storage), read;
      }
      var entries;
      ghost var later, between := |steps|, q.lastDelivered;
      entries := Fetch(request, count);
      DeliveryChain(old(q.lastDelivered), between, q.lastDelivered);
      NoneDeliveredBefore(old(q.lastDelivered), between, Ids(entries));
      FetchedStays(origin, steps, steps, |old(steps)|, later, |steps|, count, entries);
      read := Asked(!fault.ReplyLost?, [WorkQueue.Action.ReadGroup(count)]);
      asked := asked + [AskRead(count, !fault.ReplyLost?)];
      r := if fault.ReplyLost? then Err(Transitions.Storage) else Ok(entries);
    }

    /** XREADGROUP itself. */
    method Fetch(request: nat, count: nat) returns (entries: seq<StreamEntry>)
      requires Valid() && request in q.readers
      modifies this`q, this`steps, this`own
      ensures Valid() && Later(request) && own == old(own) + [WorkQueue.Action.ReadGroup(count)]
      ensures FetchedBetween(origin, steps, |old(steps)|, |steps|, count, entries)
      ensures Quiet(steps, |old(steps)|)
      ensures |entries| <= count && Paging.Sorted(Ids(entries))
      ensures NoneDelivered(old(q.lastDelivered), Ids(entries)) && AllDelivered(q.lastDelivered, Ids(entries))
    {
      hide Apply, Deliver, Undelivered, Ids, Inv, RunSteps, Own, Less;
      InvTrims(q);
      entries := Undelivered(q, count);
      UndeliveredIsNew(q, count);
      ghost var before, q0 := steps, q;
      Do(request, WorkQueue.Action.ReadGroup(count), true);
      FetchedNow(origin, before, steps, q0, count);
    }

    /** Loading the records of one half of the batch. */
    method Hydrate(request: nat, entries: seq<StreamEntry>, autoclaimed: bool, options: ClaimOptions)
      returns (b: Batch, ghost h: Half)
      requires Valid() && request in q.readers && Paging.Sorted(Ids(entries))
      modifies this
      ensures Valid() && Later(request)
      ensures h.entries == entries && h.since == |old(steps)|
      ensures HalfDone(steps, h) && AllCalledFor(steps, |old(steps)|, h)
      ensures b == if autoclaimed then RescuedBatch(h, options) else FetchedBatch(h)
      ensures asked == old(asked) + AsksOf(h.entries, h.loads) && own == old(own) + h.acks
      ensures Holds(b, h, autoclaimed, if autoclaimed then Some(options.autoclaimMinIdleMs) else None)
      ensures Sound(b) && Size(b) <= |entries| && FlagsOk(b, options.autoclaimMinIdleMs)
      ensures forall x | x in IdsOf(b) :: x in Ids(entries)
    {
      var r;
      ghost var loads, acks;
      r, loads, acks := JobsFromStreamIds(request, entries, autoclaimed, Some(options.autoclaimMinIdleMs));
      b, h := r.value, Half(|old(steps)|, entries, loads, acks);
      BatchOfIsSound(entries, loads, autoclaimed, if autoclaimed then Some(options.autoclaimMinIdleMs) else None);
      BatchFlags(entries, loads, autoclaimed, options.autoclaimMinIdleMs);
    }

    /** The first half of a batch: rescued entries, if rescuing was asked for. */
    method RescueJobs(request: nat, options: ClaimOptions)
      returns (r: Result<Batch, StoreError>, ghost scan: Errand, ghost h: Half)
      requires Valid() && request in q.readers
      modifies this
      ensures Valid() && Later(request)
      ensures RescueDone(origin, old(Now()), Now(), request, options, scan, h)
      ensures scan.Asked? <==> options.autoclaimMinIdleMs > 0 && options.count > 0
      ensures r == if scan.Asked? && !scan.answered then Err(Transitions.Storage) else Ok(RescuedBatch(h, options))
      ensures Holds(RescuedBatch(h, options), h, true, Some(options.autoclaimMinIdleMs))
      ensures r.Ok? ==> Good(r.value, options, q.lastDelivered)
    {
      hide RunSteps, Inv, Own, BatchOf, AsksOf, Sound, Size, AllHonest, Acks, TookBetween, AllCalledFor, Quiet,
        FlagsOk, IdsOf, Less, Holds;
      h := NO_HALF;
      NothingDone(steps);
      QuietIsCalledFor(steps, |steps|, h);
      NothingIsGood(options, q.lastDelivered);
      NothingHeld(true, Some(options.autoclaimMinIdleMs));
      LessIsNotReflexive(q.lastDelivered);
      if options.autoclaimMinIdleMs == 0 || options.count == 0 {
        scan := Unasked;
        return Ok(EMPTY), scan, h;
      }
      var taken;
      taken, scan := Autoclaim(request, options);
      NothingDone(steps);
      QuietIsCalledFor(steps, |old(steps)|, h);
      if taken.Err? {
        return Err(taken.error), scan, h;
      }
      ghost var middle, between := Now(), q.lastDelivered;
      var batch;
      batch, h := Hydrate(request, taken.value, true, options);
      DeliveryChain(old(q.lastDelivered), between, q.lastDelivered);
      DeliveredStays(between, q.lastDelivered, Ids(taken.value));
      TookStays(origin, middle.steps, steps, |old(steps)|, |old(steps)|, h.since, request, options.count, taken.value);
      CalledForAfter(middle.steps, steps, |old(steps)|, h);
      r := Ok(batch);
    }

    /** The second half of a batch: new entries, up to what is still wanted. */
    method ReadJobs(request: nat, count: nat, options: ClaimOptions)
      returns (r: Result<Batch, StoreError>, ghost read: Errand, ghost h: Half)
      requires Valid() && request in q.readers && 0 < count
      modifies this
      ensures Valid() && Later(request)
      ensures FillDone(origin, old(Now()), Now(), count, true, read, h)
      ensures r == if read.answered then Ok(FetchedBatch(h)) else Err(Transitions.Storage)
      ensures if r.Ok? then Holds(r.value, h, false, None) else h == NO_HALF
      ensures r.Ok? ==> Good(r.value, options.(count := count), q.lastDelivered)
      ensures r.Ok? ==> NoneDelivered(old(q.lastDelivered), IdsOf(r.value))
    {
      hide RunSteps, Inv, Own, BatchOf, AsksOf, Sound, Size, AllHonest, Acks, FetchedBetween, AllCalledFor, Quiet,
        FlagsOk, IdsOf, Less, Holds;
      h := NO_HALF;
      var taken;
      taken, read := ReadGroup(request, count);
      NothingDone(steps);
      QuietIsCalledFor(steps, |old(steps)|, h);
      if taken.Err? {
        return Err(taken.error), read, h;
      }
      ghost var middle, between := Now(), q.lastDelivered;
      var batch;
      batch, h := Hydrate(request, taken.value, false, options);
      DeliveryChain(old(q.lastDelivered), between, q.lastDelivered);
      DeliveredStays(between, q.lastDelivered, Ids(taken.value));
      AmongIds(old(q.lastDelivered), q.lastDelivered, batch, Ids(taken.value));
      FetchedStays(origin, middle.steps, steps, |old(steps)|, |old(steps)|, h.since, count, taken.value);
      CalledForAfter(middle.steps, steps, |old(steps)|, h);
      r := Ok(batch);
    }

    /**
     One batch: rescued entries first, then new ones up to `count`. A failed fill-up still returns what was rescued.
     The request's copy of the cursor moves on to where the rescue stopped.
     */
    method ClaimJobs(request: nat, options: ClaimOptions) returns (r: Result<Batch, StoreError>, ghost a: Account)
      requires Valid() && request in q.readers
      modifies this
      ensures Valid() && Later(request)
      ensures Claimed(origin, old(Now()), Now(), request, options, a)
      ensures Balanced(a) && r == Outcome(a, options) && Answers(r, options, a)
      ensures r.Ok? ==> Good(r.value, options, q.lastDelivered)
    {
      hide RunSteps, Inv, Own, Claimed, RescueDone, FillDone, Good, BatchOf, Concat, Less, Joins, HoldsJobs, HoldsPending,
        Kept;
      ghost var start := Now();
      ghost var scan, h;
      r, scan, h := RescueJobs(request, options);
      RescueBalanced(origin, start, Now(), request, options, scan, h);
      a := Account(scan, h, Unasked, NO_HALF);
      if r.Err? {
        RescueIsClaim(origin, start, Now(), request, options, scan, h);
        return;
      }
      var result := r.value;
      FirstHalfJoins(result, a, options.autoclaimMinIdleMs);
      GoodSize(result, options, q.lastDelivered);
      ghost var middle, between := Now(), q.lastDelivered;
      var claimed := |result.jobs| + |result.pendingJobs|;
      var remaining := if claimed <= options.count then options.count - claimed else 0;
      if remaining == 0 {
        RescueIsClaim(origin, start, Now(), request, options, scan, h);
        return;
      }
      var batch;
      ghost var read, fetched;
      batch, read, fetched := ReadJobs(request, remaining, options);
      DeliveryChain(old(q.lastDelivered), between, q.lastDelivered);
      a := Account(scan, h, read, fetched);
      FillBalanced(origin, middle, Now(), remaining, true, read, fetched);
      BothAreClaim(origin, start, middle, Now(), request, options, a);
      GoodStays(result, options, between, q.lastDelivered);
      if batch.Err? {
        FirstHalfJoins(result, a, options.autoclaimMinIdleMs);
        r := if claimed == 0 then Err(batch.error) else Ok(result);
        return;
      }
      GoodHalves(result, batch.value, options, between, q.lastDelivered);
      HeldJoins(result, batch.value, a, options.autoclaimMinIdleMs);
      r := Ok(Concat(result, batch.value));
    }

    /** Reading the shared cursor opens the request's own copy of it. */
    method GetAutoclaimCursor(request: nat) returns (ok: bool)
      requires Valid() && request !in q.readers
      modifies this
      ensures Valid() && Later(request) && asked == old(asked) + [AskCursor(ok)]
      ensures !ok ==> q == old(q) && steps == old(steps) && own == old(own)
      ensures ok ==> q == Apply(old(q), ReadCursor(request)) && request in q.readers
      ensures ok ==> own == old(own) + [ReadCursor(request)]
      ensures ok ==> q.readers[request].cursor == if old(q.cursor).Some? then old(q.cursor).value else ZERO
      ensures sent == old(sent) + 1 && (ok <==> fares(old(sent)).Fine?)
    {
      hide Inv, Apply, Less, RunSteps, Own;
      LessIsNotReflexive(q.lastDelivered);
      var fault := Fares();
      ok := fault.Fine?;
      asked := asked + [AskCursor(ok)];
      if ok {
        ReadOpens(q, request);
        StepTaken(origin, steps, Mine(ReadCursor(request)));
        q := Apply(q, ReadCursor(request));
        steps := steps + [Mine(ReadCursor(request))];
        own := own + [ReadCursor(request)];
      }
    }

    /** Writing the request's copy back through the script. A failure is only logged. */
    method SetAutoclaimCursor(request: nat) returns (ok: bool)
      requires Valid() && request in q.readers
      modifies this
      ensures Valid() && origin == old(origin) && Extends(old(Now()), Now())
      ensures !Less(q.lastDelivered, old(q.lastDelivered)) && asked == old(asked) + [AskStoreCursor(ok)]
      ensures own == old(own) || own == old(own) + [WriteCursor(request)]
      ensures own == old(own) <==> fares(old(sent)).NotDone?
      ensures sent == old(sent) + 1 && (ok <==> fares(old(sent)).Fine?)
    {
      hide Less, Inv, RunSteps, Own;
      Others(request);
      var fault := Fares();
      if !fault.NotDone? {
        ghost var between := q.lastDelivered;
        WriteCopy(request);
        DeliveryChain(old(q.lastDelivered), between, q.lastDelivered);
      }
      ok := fault.Fine?;
      asked := asked + [AskStoreCursor(ok)];
    }

    method WriteCopy(request: nat)
      requires Valid()
      modifies this`q, this`steps, this`own
      ensures Valid() && q == Apply(old(q), WriteCursor(request)) && origin == old(origin)
      ensures steps == old(steps) + [Mine(WriteCursor(request))] && own == old(own) + [WriteCursor(request)]
      ensures !Less(q.lastDelivered, old(q.lastDelivered))
    {
      ActionKeeps(q, WriteCursor(request));
      DeliveryGrows(q, WriteCursor(request));
      ghost var before := steps;
      q := Apply(q, WriteCursor(request));
      steps := steps + [Mine(WriteCursor(request))];
      assert steps[..|steps| - 1] == before;
      own := Own(steps);
    }

    /**
     The ClaimBackgroundJobs request: the cursor is read before the batch is claimed, and written back only when a
     batch was claimed. `begun` and `done` are where the claim itself begins and ends.
     */
    method ClaimBackgroundJobs(request: nat, wanted: nat, autoclaimMinIdleMs: nat)
      returns (r: Result<Batch, StoreError>, ghost a: Account, ghost begun: Trail, ghost done: Trail)
      requires Valid() && request !in q.readers
      modifies this
      ensures Valid() && origin == old(origin)
      ensures Extends(old(Now()), begun) && Extends(begun, done) && Extends(done, Now())
      ensures begun.asked == old(asked) + [AskCursor(begun.own != old(own))]
      ensures begun.own == old(own) ==> asked == begun.asked && own == old(own) && r == Err(Transitions.Storage)
      ensures begun.own != old(own) ==>
                && begun.own == old(own) + [ReadCursor(request)]
                && var options := ClaimOptions(Clamped(wanted), autoclaimMinIdleMs);
                   && Claimed(origin, begun, done, request, options, a)
                   && Balanced(a) && r == Outcome(a, options) && Answers(r, options, a)
                   && (r.Err? ==> own == done.own && asked == done.asked)
                   && (r.Ok? ==>
                         && Good(r.value, options, q.lastDelivered)
                         && (asked == done.asked + [AskStoreCursor(true)] || asked == done.asked + [AskStoreCursor(false)])
                         && (own == done.own + [WriteCursor(request)]
                             || (own == done.own && asked == done.asked + [AskStoreCursor(false)])))
    {
      hide Inv, RunSteps, Own, Less, Claimed, Good, Outcome, Answers, Apply;
      a := Account(Unasked, NO_HALF, Unasked, NO_HALF);
      begun, done := Now(), Now();
      var options := ClaimOptions(Clamped(wanted), autoclaimMinIdleMs);
      var ok := GetAutoclaimCursor(request);
      if !ok {
        begun, done := Now(), Now();
        return Err(Transitions.Storage), a, begun, done;
      }
      begun := Now();
      r, a := ClaimJobs(request, options);
      done := Now();
      if r.Err? {
        return;
      }
      ghost var between := q.lastDelivered;
      var _ := SetAutoclaimCursor(request);
      GoodStays(r.value, options, between, q.lastDelivered);
    }
  }

  /** How many entries a request gets at most: what it wants, but at least one and at most a hundred. */
  function Clamped(wanted: nat): (count: nat)
    ensures wanted == 0 ==> count == 1
    ensures 1 <= wanted <= MAX_CLAIM_COUNT ==> count == wanted
    ensures wanted > MAX_CLAIM_COUNT ==> count == MAX_CLAIM_COUNT
  {
    var atLeastOne := if wanted >= 1 then wanted else 1;
    if atLeastOne <= MAX_CLAIM_COUNT then atLeastOne else MAX_CLAIM_COUNT
  }

  /** A batch that is handed out never exceeds the clamped count, and no entry appears in it twice. */
  lemma BatchWithinLimit(batch: Batch, wanted: nat, minIdleMs: nat, last: Id)
    requires Good(batch, ClaimOptions(Clamped(wanted), minIdleMs), last)
    ensures |batch.jobs| + |batch.pendingJobs| <= MAX_CLAIM_COUNT
    ensures |batch.jobs| + |batch.pendingJobs| <= if wanted >= 1 then wanted else 1
    ensures NoDuplicates(JobIds(batch) + PendingIds(batch)) && batch.pendingStreamIds == PendingIds(batch)
    ensures forall i | 0 <= i < |batch.jobs| ::
              batch.jobs[i].idleMs == if batch.jobs[i].autoclaimed then Some(minIdleMs) else None
  {
  }

  lemma ReadOpens(q: Queue, request: nat)
    requires Inv(q) && request !in q.readers
    ensures var q' := Apply(q, ReadCursor(request));
            && Inv(q') && request in q'.readers && !Less(q'.lastDelivered, q.lastDelivered)
            && q'.readers[request].cursor == if q.cursor.Some? then q.cursor.value else ZERO
  {
    ActionKeeps(q, ReadCursor(request));
    DeliveryGrows(q, ReadCursor(request));
  }

  lemma NothingTaken(origin: Queue, steps: seq<Step>, step: Step)
    requires step.Stored? || step.Loads?
    ensures RunSteps(origin, steps + [step]) == RunSteps(origin, steps)
    ensures Own(steps + [step]) == Own(steps)
  {
    assert (steps + [step])[..|steps|] == steps;
  }

  lemma StepTaken(origin: Queue, steps: seq<Step>, step: Step)
    requires step.Mine? || step.Theirs?
    ensures RunSteps(origin, steps + [step]) == Apply(RunSteps(origin, steps), step.action)
    ensures Own(steps + [step]) == Own(steps) + if step.Mine? then [step.action] else []
  {
    assert (steps + [step])[..|steps|] == steps;
  }

  lemma AcknowledgeEffect(q: Queue, id: Id, reason: Reason)
    requires Inv(q)
    ensures var q' := Apply(q, WorkQueue.Action.Acknowledge(id, reason));
            && id !in q'.claimed
            && (id in q.claimed ==> id in q'.settled && q'.settled[id] == reason)
  {
  }

  lemma LessIsNotReflexive(id: Id)
    ensures !Less(id, id)
  {
  }

  lemma DeliveryChain(first: Id, second: Id, third: Id)
    requires !Less(second, first) && !Less(third, second)
    ensures !Less(third, first)
  {
  }

  lemma NoneDeliveredBefore(earlier: Id, later: Id, ids: seq<Id>)
    requires NoneDelivered(later, ids) && !Less(later, earlier)
    ensures NoneDelivered(earlier, ids)
  {
  }

  lemma NothingIsGood(options: ClaimOptions, last: Id)
    ensures Good(EMPTY, options, last) && BatchOf([], [], true, Some(options.autoclaimMinIdleMs)) == EMPTY
  {
  }

  lemma GoodSize(batch: Batch, options: ClaimOptions, last: Id)
    requires Good(batch, options, last)
    ensures Size(batch) <= options.count
  {
  }

  lemma GoodStays(batch: Batch, options: ClaimOptions, before: Id, after: Id)
    requires Good(batch, options, before) && !Less(after, before)
    ensures Good(batch, options, after)
  {
    DeliveredStays(before, after, IdsOf(batch));
  }

  lemma GoodHalves(first: Batch, second: Batch, options: ClaimOptions, between: Id, last: Id)
    requires Good(first, options, between) && !Less(last, between) && Size(first) <= options.count
    requires Good(second, options.(count := options.count - Size(first)), last) && NoneDelivered(between, IdsOf(second))
    ensures Good(Concat(first, second), options, last)
  {
    hide Sound, FlagsOk, AllDelivered, NoneDelivered, Size, Concat, Less, IdsOf;
    DeliveredStays(between, last, IdsOf(first));
    HalvesJoin(first, second, between, last, options.autoclaimMinIdleMs);
  }

  lemma RescueBalanced(
    origin: Queue, start: Trail, end: Trail, request: nat, options: ClaimOptions, scan: Errand, h: Half)
    requires RescueDone(origin, start, end, request, options, scan, h)
    ensures |h.entries| == |h.loads| && |NO_HALF.entries| == |NO_HALF.loads|
  {
  }

  lemma FillBalanced(origin: Queue, start: Trail, end: Trail, count: nat, wanted: bool, read: Errand, h: Half)
    requires FillDone(origin, start, end, count, wanted, read, h)
    ensures |h.entries| == |h.loads| && (wanted ==> read.Asked?)
  {
  }
}
