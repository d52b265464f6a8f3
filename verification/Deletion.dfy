/** What a delete guarantees, and what a reconcile cannot overwrite. */
module Deletion {
  import opened Wrappers
  import opened Model
  import opened Transitions
  import opened Redis
  import opened Protocol
  import opened Invariant
  import opened Safety
  import opened Lifecycle
  import Json

  /** Absent, or a tombstone. */
  ghost predicate GoneEntry(entry: Option<Entry>) {
    match entry
    case None => true
    case Some(Entry(Record(r), _)) => Json.GetText(r.response, "status") == Some("deleted")
    case Some(Entry(Corrupt, _)) => false
  }

  ghost predicate Gone(db: Db, id: string) {
    GoneEntry(Lookup(db, id))
  }

  /** Nothing but a plain write brings a record back, and no transition commits on what is gone. */
  lemma EventKeepsGone(defaultTtl: nat, e: Event)
    requires EventOk(defaultTtl, e) && GoneEntry(e.before) && !e.cause.Stored?
    ensures GoneEntry(e.after) && !e.cause.Committed?
  {
    if e.cause.Committed? {
      var t := e.cause.writer;
      TombstoneStopsTransitions(t.read, e.id, t.op, t.read);
      assert false;
    }
  }

  lemma OutputLogs(s: System, action: Action, command: Command, out: Outcome)
    requires Outputs(s.defaultTtl, s.db, command, out) && Apply(s, action).log == s.log + out.events
    ensures var s' := Apply(s, action);
            || s'.log == s.log
            || (|s'.log| == |s.log| + 1 && s'.log[..|s.log|] == s.log && s'.log[|s.log|].cause.Committed?)
  {
    hide Apply;
  }

  lemma StepAppends(s: System, server: nat, fate: Fate)
    requires Enabled(s, Step(server, fate))
    ensures Apply(s, Step(server, fate)).log
            == s.log + Issue(s.db, s.servers[server].conn, CommandOf(s.servers[server].attempt.value), fate).events
  {
    hide Issue, React, Protocol.Settle;
  }

  /** Commands at one connection log at most one commit. */
  lemma CommandLogs(s: System, action: Action)
    requires Inv(s) && Enabled(s, action)
    requires action.Step? || action.Arrive? || action.ArriveLate?
    ensures var s' := Apply(s, action);
            || s'.log == s.log
            || (|s'.log| == |s.log| + 1 && s'.log[..|s.log|] == s.log && s'.log[|s.log|].cause.Committed?)
  {
    hide LogMatches, AnswersOk, LogTimed, ConnOk, AttemptOk, Issue, Execute, Outputs;
    match action
    case Step(server, fate) =>
      var conn, a := s.servers[server].conn, s.servers[server].attempt.value;
      assert ServerOk(s, s.servers[server]);
      IssueSafe(s.db, s.defaultTtl, conn, a, fate);
      StepAppends(s, server, fate);
      OutputLogs(s, action, CommandOf(a), Issue(s.db, conn, CommandOf(a), fate));
    case Arrive(server) =>
      var conn := s.servers[server].conn;
      assert ServerOk(s, s.servers[server]) && ConnFrom(s, conn);
      ArrivalSafe(s, conn);
      OutputLogs(s, action, conn.inflight.value, Arrival(s.db, conn));
    case ArriveLate(zombie) =>
      var conn := s.zombies[zombie];
      ArrivalSafe(s, conn);
      OutputLogs(s, action, conn.inflight.value, Arrival(s.db, conn));
  }

  /** Every action logs at most one modification, and only the write of a store request is a plain one. */
  lemma ActionLogs(s: System, action: Action)
    requires Inv(s)
    ensures var s' := Apply(s, action);
            || s'.log == s.log
            || (&& |s'.log| == |s.log| + 1
                && s'.log[..|s.log|] == s.log
                && (s'.log[|s.log|].cause.Stored? ==>
                      && action.FinishPending?
                      && action.request in s.pending
                      && s.pending[action.request].PendingStore?
                      && s.pending[action.request].id == s'.log[|s.log|].id))
  {
    hide Inv, Execute, React;
    if Enabled(s, action) && (action.Step? || action.Arrive? || action.ArriveLate?) {
      CommandLogs(s, action);
    }
  }

  /** The logged modification is exactly what happened to the keys. */
  lemma ActionEffect(s: System, action: Action, id: string)
    requires Inv(s)
    ensures var s' := Apply(s, action);
            && s'.origin == s.origin && s'.defaultTtl == s.defaultTtl
            && |s'.log| <= |s.log| + 1
            && (s'.log == s.log ==> Lookup(s'.db, id) == Lookup(s.db, id))
            && (s'.log != s.log ==>
                  && |s'.log| == |s.log| + 1
                  && var e := s'.log[|s.log|];
                     && EventOk(s.defaultTtl, e)
                     && e.before == Lookup(s.db, e.id)
                     && Lookup(s'.db, id) == if e.id == id then e.after else Lookup(s.db, id))
  {
    hide Apply, DbOk, ServersOk, HoldersOk, ZombiesOk, CallsOk, TicketsFromCalls, LogTimed, AnswersOk, EventOk;
    ActionLogs(s, action);
    ActionKeeps(s, action);
    OriginKept(s, action);
    var s' := Apply(s, action);
    assert Current(s.origin, s.log, id) == Lookup(s.db, id);
    assert Current(s'.origin, s'.log, id) == Lookup(s'.db, id);
    if s'.log != s.log {
      var e := s'.log[|s.log|];
      assert s'.log == s.log + [e];
      assert EventOk(s'.defaultTtl, e);
      assert e.before == Current(s.origin, s.log, e.id);
    }
  }

  lemma StepKeepsOrigin(s: System, server: nat, fate: Fate)
    requires Enabled(s, Step(server, fate))
    ensures var s' := StepServer(s, server, fate); s'.origin == s.origin && s'.defaultTtl == s.defaultTtl
  {
    hide Issue, React, Protocol.Settle;
  }

  lemma ConnectionKeepsOrigin(s: System, action: Action)
    requires Enabled(s, action)
    requires action.Abandon? || action.Lose? || action.Arrive? || action.ArriveLate? || action.Reset? || action.Acquire?
    ensures Apply(s, action).origin == s.origin && Apply(s, action).defaultTtl == s.defaultTtl
  {
    hide Execute, Dangling;
  }

  lemma OriginKept(s: System, action: Action)
    ensures Apply(s, action).origin == s.origin && Apply(s, action).defaultTtl == s.defaultTtl
  {
    hide StepServer, AbandonAttempt, LoseLink, Arrived, ArrivedLate, Reconnected, TakeLock, DeletePlan, Reloaded, Put,
         Remove, Change;
    if Enabled(s, action) {
      match action
      case Step(server, fate) => StepKeepsOrigin(s, server, fate);
      case Abandon(_, _) => ConnectionKeepsOrigin(s, action);
      case Lose(_) => ConnectionKeepsOrigin(s, action);
      case Arrive(_) => ConnectionKeepsOrigin(s, action);
      case ArriveLate(_) => ConnectionKeepsOrigin(s, action);
      case Reset(_, _) => ConnectionKeepsOrigin(s, action);
      case Acquire(_) => ConnectionKeepsOrigin(s, action);
      case _ =>
    }
  }

  /** The write of a store, update or enqueue of the record. */
  ghost predicate StoreLands(s: System, action: Action, id: string) {
    && action.FinishPending?
    && action.request in s.pending
    && s.pending[action.request].PendingStore?
    && s.pending[action.request].id == id
  }

  ghost predicate NoStoreLands(s: System, actions: seq<Action>, id: string)
    decreases |actions|
  {
    actions == [] || (!StoreLands(s, actions[0], id) && NoStoreLands(Apply(s, actions[0]), actions[1..], id))
  }

  ghost predicate NoCommitSince(s: System, id: string, from: nat) {
    forall i | from <= i < |s.log| && s.log[i].id == id :: !s.log[i].cause.Committed?
  }

  lemma GoneStays(s: System, action: Action, id: string)
    requires Inv(s) && Gone(s.db, id) && !StoreLands(s, action, id)
    ensures Gone(Apply(s, action).db, id)
    ensures NoCommitSince(Apply(s, action), id, |s.log|)
  {
    hide Inv, Apply, EventOk, GoneEntry;
    var s' := Apply(s, action);
    ActionLogs(s, action);
    ActionEffect(s, action, id);
    if s'.log != s.log {
      var e := s'.log[|s.log|];
      if e.id == id {
        EventKeepsGone(s.defaultTtl, e);
      }
    }
  }

  /**
   Deletion is final. Once a record is gone it stays gone for as long as no write of a store, update or enqueue lands
   on it, and no transition ever commits on it, however early it began.
   */
  lemma {:induction false} DeletionIsFinal(s: System, actions: seq<Action>, id: string)
    requires Inv(s) && Gone(s.db, id) && NoStoreLands(s, actions, id)
    ensures Gone(Run(s, actions).db, id)
    ensures NoCommitSince(Run(s, actions), id, |s.log|)
    decreases |actions|
  {
    hide Inv, Apply, StoreLands;
    if actions != [] {
      var s' := Apply(s, actions[0]);
      GoneStays(s, actions[0], id);
      ActionKeeps(s, actions[0]);
      LogOnlyGrows(s, actions[0]);
      DeletionIsFinal(s', actions[1..], id);
      LogKeepsPrefix(s', actions[1..]);
    }
  }

  lemma LogOnlyGrows(s: System, action: Action)
    requires Inv(s)
    ensures |s.log| <= |Apply(s, action).log| && Apply(s, action).log[..|s.log|] == s.log
  {
    hide Inv;
    ActionLogs(s, action);
  }

  lemma {:induction false} LogKeepsPrefix(s: System, actions: seq<Action>)
    requires Inv(s)
    ensures |s.log| <= |Run(s, actions).log| && Run(s, actions).log[..|s.log|] == s.log
    decreases |actions|
  {
    hide Inv;
    if actions != [] {
      LogOnlyGrows(s, actions[0]);
      ActionKeeps(s, actions[0]);
      LogKeepsPrefix(Apply(s, actions[0]), actions[1..]);
    }
  }

  lemma DeletePlans(s: System, request: nat, id: string, loadFails: bool)
    requires request !in s.pending
    ensures var planned := Apply(s, StartDelete(request, id, loadFails));
            && request in planned.pending
            && planned.pending[request] ==
               if && !loadFails && id in s.db.entries && s.db.entries[id].raw.Record?
                  && var seen := s.db.entries[id].raw.record;
                     var status := Json.GetText(seen.response, "status");
                     && status != Some("deleted")
                     && (seen.pendingUpstreamRequest.Some? || status == Some("queued") || status == Some("in_progress"))
               then PendingTombstone(id, s.db.entries[id].raw.record)
               else PendingDelete(id)
  {
  }

  /** What is left of a job that was deleted in flight. */
  ghost predicate Buried(db: Db, id: string, job: StoredResponse, deadline: nat) {
    && id in db.entries
    && db.entries[id].raw.Record? && Entombs(db.entries[id].raw.record, job, id)
    && db.entries[id].deadline == Some(deadline)
  }

  lemma FinishBuries(s: System, request: nat, id: string, record: StoredResponse)
    requires request in s.pending && s.pending[request] == PendingTombstone(id, record)
    ensures var after := Apply(s, FinishPending(request)).db;
            Gone(after, id) && Buried(after, id, record, s.db.now + 1000 * s.defaultTtl)
  {
    TombstoneStopsTransitions(record, id, Claim, Tombstone(record, id));
    hide Tombstone;
  }

  lemma FinishErases(s: System, request: nat, id: string)
    requires request in s.pending && s.pending[request] == PendingDelete(id)
    ensures Gone(Apply(s, FinishPending(request)).db, id) && id !in Apply(s, FinishPending(request)).db.entries
  {
  }

  lemma FinishDeletes(s: System, request: nat, id: string)
    requires request in s.pending && !s.pending[request].PendingStore? && s.pending[request].id == id
    ensures var plan, after := s.pending[request], Apply(s, FinishPending(request)).db;
            && Gone(after, id)
            && if plan.PendingTombstone? then Buried(after, id, plan.record, s.db.now + 1000 * s.defaultTtl)
               else id !in after.entries
  {
    hide Apply, Gone, Buried;
    match s.pending[request]
    case PendingTombstone(_, record) => FinishBuries(s, request, id, record);
    case PendingDelete(_) => FinishErases(s, request, id);
  }

  /**
   Whatever happens between its read and its write, the write of a delete request leaves nothing under the key, except
   that a job in flight leaves a tombstone: that is exactly when its load succeeds and finds a record that is not
   deleted, and that has a pending request or the status of a job waiting or working. Either way the record is gone.
   */
  lemma DeleteMakesGone(s: System, request: nat, id: string, loadFails: bool, between: seq<Action>)
    requires request !in s.pending
    requires forall i | 0 <= i < |between| :: between[i] != FinishPending(request) && between[i] != DropPending(request)
    ensures var late := Run(Apply(s, StartDelete(request, id, loadFails)), between);
            var after := Apply(late, FinishPending(request)).db;
            && Gone(after, id)
            && if && !loadFails && id in s.db.entries && s.db.entries[id].raw.Record?
                  && var seen := s.db.entries[id].raw.record;
                     var status := Json.GetText(seen.response, "status");
                     && status != Some("deleted")
                     && (seen.pendingUpstreamRequest.Some? || status == Some("queued") || status == Some("in_progress"))
               then Buried(after, id, s.db.entries[id].raw.record, late.db.now + 1000 * s.defaultTtl)
               else id !in after.entries
  {
    hide Apply, Run, Gone, Buried, Json.GetText, Visible, Status, IsInFlight, IsDeletedTombstone;
    var planned := Apply(s, StartDelete(request, id, loadFails));
    var late := Run(planned, between);
    OriginKept(s, StartDelete(request, id, loadFails));
    OriginStays(planned, between);
    DeletePlans(s, request, id, loadFails);
    PendingWaits(planned, between, request);
    FinishDeletes(late, request, id);
  }

  lemma {:induction false} OriginStays(s: System, actions: seq<Action>)
    ensures Run(s, actions).origin == s.origin && Run(s, actions).defaultTtl == s.defaultTtl
    decreases |actions|
  {
    hide Apply;
    if actions != [] {
      OriginKept(s, actions[0]);
      OriginStays(Apply(s, actions[0]), actions[1..]);
    }
  }

  lemma PlanKept(s: System, action: Action, request: nat)
    requires request in s.pending && action != FinishPending(request) && action != DropPending(request)
    ensures request in Apply(s, action).pending && Apply(s, action).pending[request] == s.pending[request]
  {
    hide Issue, React, Execute, Protocol.Settle;
  }

  /** A planned write waits unchanged until it is issued or dropped. */
  lemma {:induction false} PendingWaits(s: System, actions: seq<Action>, request: nat)
    requires request in s.pending
    requires forall i | 0 <= i < |actions| :: actions[i] != FinishPending(request) && actions[i] != DropPending(request)
    ensures request in Run(s, actions).pending && Run(s, actions).pending[request] == s.pending[request]
    decreases |actions|
  {
    if actions != [] {
      assert actions[0] != FinishPending(request) && actions[0] != DropPending(request);
      PlanKept(s, actions[0], request);
      PendingWaits(Apply(s, actions[0]), actions[1..], request);
    }
  }

  lemma StorePlans(s: System, start: Action, request: nat, id: string, record: StoredResponse, ttl: Option<nat>)
    requires start == StartStore(request, id, record, ttl) || start == StartUpdate(request, id, record, ttl, false)
    requires Enabled(s, start)
    ensures request in Apply(s, start).pending
    ensures Apply(s, start).pending[request] == PendingStore(id, record, TtlOrDefault(s, ttl))
  {
  }

  lemma FinishStores(s: System, request: nat, id: string, record: StoredResponse, ttl: nat)
    requires request in s.pending && s.pending[request] == PendingStore(id, record, ttl)
    ensures Lookup(Apply(s, FinishPending(request)).db, id) == Some(Entry(Record(record), Some(s.db.now + 1000 * ttl)))
  {
  }

  /**
   The write of a store or update lands whatever happened since the request came in. An update only looked for the
   record then, so one that was deleted in between comes back.
   */
  lemma BlindWriteLands(
    s: System, start: Action, request: nat, id: string, record: StoredResponse, ttl: Option<nat>, between: seq<Action>)
    requires start == StartStore(request, id, record, ttl) || start == StartUpdate(request, id, record, ttl, false)
    requires Enabled(s, start)
    requires forall i | 0 <= i < |between| :: between[i] != FinishPending(request) && between[i] != DropPending(request)
    ensures var late := Run(Apply(s, start), between);
            var seconds := match ttl case Some(t) => t case None => s.defaultTtl;
            Lookup(Apply(late, FinishPending(request)).db, id)
            == Some(Entry(Record(record), Some(late.db.now + 1000 * seconds)))
  {
    hide Apply, Run, Enabled;
    var planned := Apply(s, start);
    StorePlans(s, start, request, id, record, ttl);
    PendingWaits(planned, between, request);
    FinishStores(Run(planned, between), request, id, record, TtlOrDefault(s, ttl));
  }

  /**
   An update is planned exactly when its load succeeds and finds a record that is not deleted; otherwise, like one with
   an expiry of zero, it changes nothing. A store is planned whatever is there.
   */
  lemma UpdateExactly(s: System, request: nat, id: string, record: StoredResponse, ttl: Option<nat>, loadFails: bool)
    requires request !in s.pending
    ensures var seconds := match ttl case Some(t) => t case None => s.defaultTtl;
            var planned := s.(pending := s.pending[request := PendingStore(id, record, seconds)]);
            && Apply(s, StartUpdate(request, id, record, ttl, loadFails))
               == (if && !loadFails && id in s.db.entries && s.db.entries[id].raw.Record?
                      && Json.GetText(s.db.entries[id].raw.record.response, "status") != Some("deleted")
                      && ttl != Some(0)
                   then planned else s)
            && Apply(s, StartStore(request, id, record, ttl)) == (if ttl != Some(0) then planned else s)
  {
  }

  /** A second delete removes the tombstone of the first, because a tombstone reads as not found. */
  lemma SecondDeleteErases(s: System, request: nat, id: string, loadFails: bool)
    requires request !in s.pending && Gone(s.db, id)
    ensures id !in Apply(Apply(s, StartDelete(request, id, loadFails)), FinishPending(request)).db.entries
  {
    assert Apply(s, StartDelete(request, id, loadFails)).pending[request] == PendingDelete(id);
  }

  /**
   A stale failure only ever replaces a record that is queued, and that is stale by the clock at the very moment
   of the commit, however old the snapshot the caller started from.
   */
  lemma ReconcileNeverClobbers(s: System, id: string, i: nat)
    requires Reachable(s) && CommitAt(s, id, i) && OpAt(s, i).Reconcile?
    requires s.log[i].at / 1000 <= I64_MAX
    ensures var entry := Before(s, id, i);
            && entry.Some? && entry.value.raw.Record?
            && var record := entry.value.raw.record;
               && Status(record) == Some("queued")
               && IsStaleEnqueued(record.enqueuedAt, s.log[i].at / 1000, OpAt(s, i).staleSeconds)
               && (OpAt(s, i).staleSeconds > I64_MIN ==>
                     s.log[i].at / 1000 - record.enqueuedAt.value >= OpAt(s, i).staleSeconds)
  {
    ReachableInv(s);
    CommitFacts(s, id, i);
    var t := s.log[i].cause.writer;
    WritesExactly(t.op, id, t.read);
    StaleIsMonotone(t.read.enqueuedAt, t.op.now, s.log[i].at / 1000, t.op.staleSeconds);
    StaleIsExactAge(t.read.enqueuedAt.value, s.log[i].at / 1000, t.op.staleSeconds);
  }
}
