/**
 What a call does when nobody gets in its way, whatever earlier calls left on its connection: it reaches EXEC, commits
 and answers, at the second attempt if a stale watch was left behind. One run built from it shows a claim that fails
 after it has committed, and an expiry that was brought forward.
 */
module Undisturbed {
  import opened Wrappers
  import opened Model
  import opened Transitions
  import opened Redis
  import opened Protocol
  import opened Invariant
  import opened Safety
  import opened Lifecycle
  import Expiry
  import Json

  // ----- Single commands -----------------------------------------------------------------------

  /** The system with another connection and attempt at one server. */
  function At(s: System, server: nat, conn: Conn, a: Attempt): System {
    s.(servers := s.servers[server := Server(conn, Some(a))])
  }

  /** What DISCARD leaves: without a transaction to discard, the watches of earlier attempts stay. */
  function Cleared(conn: Conn): Conn {
    if conn.lost || conn.inMulti then FRESH else conn
  }

  lemma Discards(s: System, server: nat, conn: Conn, a: Attempt)
    requires a.pc.AtDiscard? && conn.inflight.None?
    ensures Apply(At(s, server, conn, a), Step(server, Answered)) == At(s, server, Cleared(conn), a.(pc := AtWatch))
  {
    var s' := At(s, server, Cleared(conn), a.(pc := AtWatch));
    assert s'.servers == At(s, server, conn, a).servers[server := Server(Cleared(conn), Some(a.(pc := AtWatch)))];
  }

  function Watching(db: Db, conn: Conn, id: string): Conn {
    if id in conn.watched then conn else conn.(watched := conn.watched[id := StampOf(db, id)])
  }

  lemma Watches(s: System, server: nat, conn: Conn, a: Attempt)
    requires a.pc.AtWatch? && conn.inflight.None? && !conn.inMulti && !conn.lost
    ensures Apply(At(s, server, conn, a), Step(server, Answered))
            == At(s, server, Watching(s.db, conn, a.id), a.(pc := AtGet))
  {
    var s' := At(s, server, Watching(s.db, conn, a.id), a.(pc := AtGet));
    assert s'.servers == At(s, server, conn, a).servers[server := s'.servers[server]];
  }

  /** Commands that only tell the attempt something. */
  lemma Reads(s: System, server: nat, conn: Conn, a: Attempt, pc: Pc)
    requires (a.pc.AtGet? || a.pc.AtTtl?) && !conn.inMulti && !conn.lost && conn.inflight.None?
    requires React(a, Execute(s.db, conn, CommandOf(a)).reply, s.db.now, s.defaultTtl) == Continue(pc)
    ensures Apply(At(s, server, conn, a), Step(server, Answered)) == At(s, server, conn, a.(pc := pc))
  {
    hide React;
    var s' := At(s, server, conn, a.(pc := pc));
    assert s'.servers == At(s, server, conn, a).servers[server := Server(conn, Some(a.(pc := pc)))];
  }

  lemma Opens(s: System, server: nat, conn: Conn, a: Attempt, t: Ticket)
    requires conn.inflight.None? && !conn.lost && !conn.inMulti && a.pc == AtMulti(t)
    ensures Apply(At(s, server, conn, a), Step(server, Answered))
            == At(s, server, conn.(inMulti := true), a.(pc := AtSetEx(t)))
  {
    var s' := At(s, server, conn.(inMulti := true), a.(pc := AtSetEx(t)));
    assert s'.servers == At(s, server, conn, a).servers[server := s'.servers[server]];
  }

  lemma Queues(s: System, server: nat, conn: Conn, a: Attempt, t: Ticket)
    requires conn.inflight.None? && !conn.lost && conn.inMulti && conn.queue == [] && a.pc == AtSetEx(t)
    ensures Apply(At(s, server, conn, a), Step(server, Answered))
            == At(s, server, conn.(queue := [t]), a.(pc := AtExec(t)))
  {
    var s' := At(s, server, conn.(queue := [t]), a.(pc := AtExec(t)));
    assert s'.servers == At(s, server, conn, a).servers[server := s'.servers[server]];
    assert [] + [t] == [t];
  }

  // ----- One attempt ---------------------------------------------------------------------------

  /**
   A call that waits for its next attempt while nobody holds the lock of its server and no command is on its way. The
   connection may be lost, in the middle of a transaction, or left with watches.
   */
  ghost predicate Waits(s: System, call: nat) {
    && call in s.calls && s.calls[call].phase.Trying?
    && s.calls[call].server in s.servers
    && var server := s.servers[s.calls[call].server];
       && server.attempt.None? && server.conn.inflight.None?
       && (!server.conn.inMulti ==> server.conn.queue == [])
  }

  function ConnOf(s: System, call: nat): Conn
    requires call in s.calls && s.calls[call].server in s.servers
  {
    s.servers[s.calls[call].server].conn
  }

  /** Nothing is queued outside a transaction, so the other conditions are all there is to waiting. */
  lemma ReachableWaits(s: System, call: nat)
    requires Reachable(s) && call in s.calls && s.calls[call].phase.Trying? && LockFree(s, s.calls[call].server)
    requires ConnOf(s, call).inflight.None?
    ensures Waits(s, call)
  {
    ReachableInv(s);
    assert ServerOk(s, s.servers[s.calls[call].server]);
  }

  /** No watch left behind is stale, once DISCARD is through. */
  ghost predicate Clean(s: System, call: nat)
    requires call in s.calls && s.calls[call].server in s.servers
  {
    WatchHolds(s.db, Cleared(ConnOf(s, call)))
  }

  function AttemptOf(s: System, call: nat, pc: Pc): Attempt
    requires call in s.calls && s.calls[call].phase.Trying?
  {
    Attempt(call, s.calls[call].phase.number, s.calls[call].id, s.calls[call].op, pc)
  }

  lemma RunFirst(s: System, first: Action, rest: seq<Action>)
    ensures Run(s, [first] + rest) == Run(Apply(s, first), rest)
  {
    hide Apply;
    assert ([first] + rest)[1..] == rest;
  }

  /** The connection after DISCARD and WATCH. */
  function ReadyConn(s: System, call: nat): Conn
    requires call in s.calls && s.calls[call].server in s.servers
  {
    Watching(s.db, Cleared(ConnOf(s, call)), s.calls[call].id)
  }

  lemma ReadyHolds(s: System, call: nat)
    requires Waits(s, call)
    ensures var conn := ReadyConn(s, call);
            && !conn.inMulti && !conn.lost && conn.inflight.None? && conn.queue == []
            && (WatchHolds(s.db, conn) <==> Clean(s, call))
  {
    var before := Cleared(ConnOf(s, call));
    assert forall id | id in before.watched :: ReadyConn(s, call).watched[id] == before.watched[id];
  }

  /** The first three steps of an attempt bring it to its GET. */
  lemma ReachesGet(s: System, call: nat)
    requires Waits(s, call)
    ensures var server := s.calls[call].server;
            Run(s, [Acquire(call), Step(server, Answered), Step(server, Answered)])
            == At(s, server, ReadyConn(s, call), AttemptOf(s, call, AtGet))
  {
    var server, conn := s.calls[call].server, ConnOf(s, call);
    var a := AttemptOf(s, call, AtDiscard);
    assert Apply(s, Acquire(call)) == At(s, server, conn, a);
    Discards(s, server, conn, a);
    Watches(s, server, Cleared(conn), a.(pc := AtWatch));
    hide Apply;
    RunFirst(s, Acquire(call), [Step(server, Answered)] + [Step(server, Answered)]);
    RunFirst(At(s, server, conn, a), Step(server, Answered), [Step(server, Answered)]);
    RunFirst(At(s, server, Cleared(conn), a.(pc := AtWatch)), Step(server, Answered), []);
    assert [Step(server, Answered)] + [] == [Step(server, Answered)];
    assert [Acquire(call)] + ([Step(server, Answered)] + [Step(server, Answered)])
        == [Acquire(call), Step(server, Answered), Step(server, Answered)];
  }

  /** What attempt `number` will write if it finds this record, and the expiry it will write it with. */
  ghost predicate Finds(s: System, call: nat, number: nat, entry: Entry, t: Ticket) {
    && call in s.calls && s.calls[call].phase.Trying?
    && Lookup(s.db, s.calls[call].id) == Some(entry)
    && entry.raw == Record(t.read)
    && Prepare(t.op, t.id, t.read) == Write(t.written, t.payload)
    && t == Ticket(call, number, s.calls[call].id, s.calls[call].op, t.read, t.written, t.payload,
                   WriteTtl(TtlReply(Some(entry), s.db.now), s.defaultTtl), s.db.now)
  }

  lemma RecordIsRead(s: System, call: nat, conn: Conn, entry: Entry, t: Ticket)
    requires Finds(s, call, t.attempt, entry, t) && s.calls[call].phase.number == t.attempt && !conn.inMulti
    ensures var get, ttl := AttemptOf(s, call, AtGet), AttemptOf(s, call, AtTtl(t.read, t.written, t.payload));
            && React(get, Execute(s.db, conn, CommandOf(get)).reply, s.db.now, s.defaultTtl) == Continue(ttl.pc)
            && React(ttl, Execute(s.db, conn, CommandOf(ttl)).reply, s.db.now, s.defaultTtl) == Continue(AtMulti(t))
  {
    hide Prepare;
  }

  /** Four more steps bring it to its EXEC. */
  lemma ReachesExec(s: System, call: nat, conn: Conn, entry: Entry, t: Ticket)
    requires Finds(s, call, t.attempt, entry, t) && s.calls[call].phase.number == t.attempt
    requires !conn.inMulti && !conn.lost && conn.inflight.None? && conn.queue == []
    ensures var server, step := s.calls[call].server, Step(s.calls[call].server, Answered);
            Run(At(s, server, conn, AttemptOf(s, call, AtGet)), [step, step, step, step])
            == At(s, server, conn.(inMulti := true, queue := [t]), AttemptOf(s, call, AtExec(t)))
  {
    var server, step := s.calls[call].server, Step(s.calls[call].server, Answered);
    var get := AttemptOf(s, call, AtGet);
    var ttl := AttemptOf(s, call, AtTtl(t.read, t.written, t.payload));
    var multi, setex := AttemptOf(s, call, AtMulti(t)), AttemptOf(s, call, AtSetEx(t));
    RecordIsRead(s, call, conn, entry, t);
    hide Apply, Prepare, React, Execute;
    Reads(s, server, conn, get, ttl.pc);
    Reads(s, server, conn, ttl, multi.pc);
    Opens(s, server, conn, multi, t);
    Queues(s, server, conn.(inMulti := true), setex, t);
    hide At, Execute, React, TtlReply, WriteTtl;
    RunFirst(At(s, server, conn, get), step, [step, step, step]);
    RunFirst(At(s, server, conn, ttl), step, [step, step]);
    RunFirst(At(s, server, conn, multi), step, [step]);
    RunFirst(At(s, server, conn.(inMulti := true), setex), step, []);
    assert [step] + [] == [step];
    assert [step] + [step] == [step, step];
    assert [step] + [step, step] == [step, step, step];
    assert [step] + [step, step, step] == [step, step, step, step];
  }

  lemma ExecOutcome(db: Db, conn: Conn, t: Ticket)
    requires conn.inMulti && conn.queue == [t] && !conn.lost && conn.inflight.None?
    ensures var db' := Put(db, t.id, Record(t.written), t.ttl);
            Execute(db, conn, Exec(t)) ==
            if WatchHolds(db, conn) then Outcome(db', FRESH, ExecReply(true), [Change(db, db', t.id, Committed(t, t))])
            else Outcome(db, FRESH, ExecReply(false), [])
  {
    var db' := Put(db, t.id, Record(t.written), t.ttl);
    assert [t][1..] == [] && RunQueue(db', [], t) == (db', []);
    assert RunQueue(db, [t], t) == (db', [Change(db, db', t.id, Committed(t, t))] + []);
  }

  /** EXEC carries out the one queued write; whether the answer arrives decides what the call makes of it. */
  lemma ExecLands(s: System, server: nat, conn: Conn, a: Attempt, t: Ticket, fate: Fate)
    requires a.pc == AtExec(t) && a.call in s.calls && (fate.Answered? || fate.ReplyLost?)
    requires conn.inMulti && conn.queue == [t] && !conn.lost && conn.inflight.None? && WatchHolds(s.db, conn)
    ensures var s' := Apply(At(s, server, conn, a), Step(server, fate));
            var db' := Put(s.db, t.id, Record(t.written), t.ttl);
            && s'.db == db'
            && s'.log == s.log + [Change(s.db, db', t.id, Committed(t, t))]
            && server in s'.servers && s'.servers[server] == Server(FRESH, None)
            && s'.defaultTtl == s.defaultTtl
            && s'.unanswered == (if fate.Answered? then s.unanswered else s.unanswered + {a.call})
            && a.call in s'.calls
            && s'.calls[a.call] == s.calls[a.call].(phase :=
                 if fate.Answered? then Finished(Ok(Answer(t.written, t.payload))) else Broken(a.number))
  {
    var db' := Put(s.db, t.id, Record(t.written), t.ttl);
    ExecOutcome(s.db, conn, t);
    hide Put, Change, Execute, StampOf, WatchHolds;
    var reply := if fate.Answered? then ExecReply(true) else Error;
    assert Issue(s.db, conn, Exec(t), fate) == Outcome(db', FRESH, reply, [Change(s.db, db', t.id, Committed(t, t))]);
    ExecSettles(At(s, server, conn, a), server, a, t, fate);
  }

  /** Behind a stale watch EXEC gives up, and takes the watch with it. */
  lemma ExecConflicts(s: System, server: nat, conn: Conn, a: Attempt, t: Ticket)
    requires a.pc == AtExec(t) && a.call in s.calls
    requires conn.inMulti && conn.queue == [t] && !conn.lost && conn.inflight.None? && !WatchHolds(s.db, conn)
    ensures var s' := Apply(At(s, server, conn, a), Step(server, Answered));
            && s'.db == s.db && s'.log == s.log && s'.defaultTtl == s.defaultTtl && s'.unanswered == s.unanswered
            && server in s'.servers && s'.servers[server] == Server(FRESH, None)
            && a.call in s'.calls && s'.calls[a.call] == s.calls[a.call].(phase := Settle(a.op, a.number, Conflict))
  {
    ExecOutcome(s.db, conn, t);
    hide Put, Change, Execute, StampOf, WatchHolds, Protocol.Settle;
    assert Issue(s.db, conn, Exec(t), Answered) == Outcome(s.db, FRESH, ExecReply(false), []);
    assert s.log + [] == s.log;
  }

  lemma ExecSettles(s: System, server: nat, a: Attempt, t: Ticket, fate: Fate)
    requires server in s.servers && s.servers[server].attempt == Some(a) && a.pc == AtExec(t) && a.call in s.calls
    requires CanIssue(s.servers[server].conn, fate)
    requires var reply := Issue(s.db, s.servers[server].conn, Exec(t), fate).reply;
             reply == ExecReply(true) || reply == Error
    ensures var s', out := Apply(s, Step(server, fate)), Issue(s.db, s.servers[server].conn, Exec(t), fate);
            && s'.db == out.db && s'.log == s.log + out.events && s'.defaultTtl == s.defaultTtl
            && server in s'.servers && s'.servers[server] == Server(out.conn, None)
            && s'.unanswered == (if out.reply.ExecReply? then s.unanswered else s.unanswered + {a.call})
            && a.call in s'.calls
            && s'.calls[a.call] == s.calls[a.call].(phase :=
                 if out.reply.ExecReply? then Finished(Ok(Answer(t.written, t.payload))) else Broken(a.number))
  {
    hide Issue;
  }

  function ToExec(call: nat, server: nat): seq<Action> {
    var step := Step(server, Answered);
    [Acquire(call), step, step] + [step, step, step, step]
  }

  lemma {:induction false} RunConcat(s: System, first: seq<Action>, second: seq<Action>)
    ensures Run(s, first + second) == Run(Run(s, first), second)
    decreases |first|
  {
    hide Apply;
    if first == [] {
      assert first + second == second;
    } else {
      assert (first + second)[1..] == first[1..] + second;
      RunConcat(Apply(s, first[0]), first[1..], second);
    }
  }

  lemma RunLast(s: System, first: seq<Action>, last: Action)
    ensures Run(s, first + [last]) == Apply(Run(s, first), last)
  {
    hide Apply;
    RunConcat(s, first, [last]);
    assert [last][1..] == [];
  }

  /** An attempt that nobody disturbs commits when no stale watch was left behind. */
  lemma CleanAttemptCommits(s: System, call: nat, entry: Entry, t: Ticket, fate: Fate)
    requires Waits(s, call) && Clean(s, call) && Finds(s, call, s.calls[call].phase.number, entry, t)
    requires fate.Answered? || fate.ReplyLost?
    ensures Commits(s, Run(s, ToExec(call, s.calls[call].server) + [Step(s.calls[call].server, fate)]), call, t, fate)
  {
    var server, step := s.calls[call].server, Step(s.calls[call].server, Answered);
    var conn := ReadyConn(s, call);
    ReadyHolds(s, call);
    ReachesGet(s, call);
    ReachesExec(s, call, conn, entry, t);
    var last := conn.(inMulti := true, queue := [t]);
    assert WatchHolds(s.db, last);
    ExecLands(s, server, last, AttemptOf(s, call, AtExec(t)), t, fate);
    hide Apply, Run, Put, Change, At, WatchHolds, ReadyConn;
    RunConcat(s, [Acquire(call), step, step], [step, step, step, step]);
    RunLast(s, ToExec(call, server), Step(server, fate));
  }

  /** The call has committed, and knows it if EXEC was answered. */
  ghost predicate Commits(s: System, s': System, call: nat, t: Ticket, fate: Fate)
    requires call in s.calls
  {
    var db' := Put(s.db, t.id, Record(t.written), t.ttl);
    && s'.db == db'
    && s'.log == s.log + [Change(s.db, db', t.id, Committed(t, t))]
    && s.calls[call].server in s'.servers && s'.servers[s.calls[call].server] == Server(FRESH, None)
    && s'.defaultTtl == s.defaultTtl
    && s'.unanswered == (if fate.Answered? then s.unanswered else s.unanswered + {call})
    && call in s'.calls
    && s'.calls[call] == s.calls[call].(phase :=
         if fate.Answered? then Finished(Ok(Answer(t.written, t.payload))) else Broken(t.attempt))
  }

  /** It ends in a conflict, and touches nothing, when a stale watch was left behind; the next attempt finds none. */
  lemma StaleAttemptConflicts(s: System, call: nat, entry: Entry, t: Ticket)
    requires Waits(s, call) && !Clean(s, call) && Finds(s, call, s.calls[call].phase.number, entry, t)
    ensures var s' := Run(s, ToExec(call, s.calls[call].server) + [Step(s.calls[call].server, Answered)]);
            && s'.db == s.db && s'.log == s.log && s'.defaultTtl == s.defaultTtl && s'.unanswered == s.unanswered
            && s.calls[call].server in s'.servers && s'.servers[s.calls[call].server] == Server(FRESH, None)
            && call in s'.calls
            && s'.calls[call] == s.calls[call].(phase := Settle(s.calls[call].op, s.calls[call].phase.number, Conflict))
  {
    var server, step := s.calls[call].server, Step(s.calls[call].server, Answered);
    var conn := ReadyConn(s, call);
    ReadyHolds(s, call);
    ReachesGet(s, call);
    ReachesExec(s, call, conn, entry, t);
    var last := conn.(inMulti := true, queue := [t]);
    assert !WatchHolds(s.db, last);
    ExecConflicts(s, server, last, AttemptOf(s, call, AtExec(t)), t);
    hide Apply, Run, Put, Change, At, WatchHolds, ReadyConn, Protocol.Settle;
    RunConcat(s, [Acquire(call), step, step], [step, step, step, step]);
    RunLast(s, ToExec(call, server), Step(server, Answered));
  }

  /** How many attempts a stale watch costs. */
  ghost function Spent(s: System, call: nat): nat
    requires call in s.calls && s.calls[call].server in s.servers
  {
    if Clean(s, call) then 0 else 1
  }

  function ToEnd(call: nat, server: nat, spent: nat, fate: Fate): seq<Action> {
    (if spent == 0 then [] else ToExec(call, server) + [Step(server, Answered)]) + (ToExec(call, server) + [Step(server, fate)])
  }

  /**
   Progress: a call that nobody disturbs commits exactly what it prepares from the stored record, and, if the answer of
   EXEC arrives, answers with it. It takes one attempt, or two when a stale watch was left on its connection.
   */
  lemma UndisturbedCallCommits(s: System, call: nat, entry: Entry, t: Ticket, fate: Fate)
    requires Waits(s, call) && (fate.Answered? || fate.ReplyLost?)
    requires Finds(s, call, s.calls[call].phase.number + Spent(s, call), entry, t)
    requires Spent(s, call) == 1 ==> t.attempt < MAX_ATTEMPTS
    ensures Commits(s, Run(s, ToEnd(call, s.calls[call].server, Spent(s, call), fate)), call, t, fate)
  {
    var server := s.calls[call].server;
    var attempt := ToExec(call, server) + [Step(server, fate)];
    if Clean(s, call) {
      assert [] + attempt == attempt;
      CleanAttemptCommits(s, call, entry, t, fate);
    } else {
      var first := ToExec(call, server) + [Step(server, Answered)];
      StaleAttemptConflicts(s, call, entry, t.(attempt := s.calls[call].phase.number));
      var again := Run(s, first);
      hide Run, ToExec, Prepare, Put, Change;
      assert Waits(again, call) && Clean(again, call);
      CleanAttemptCommits(again, call, entry, t, fate);
      RunConcat(s, first, attempt);
    }
  }

  /** UNWATCH and what follows from an attempt that writes nothing. */
  lemma Unwatches(s: System, server: nat, conn: Conn, a: Attempt, result: AttemptResult)
    requires a.pc == AtUnwatch(result) && a.call in s.calls
    requires !conn.inMulti && !conn.lost && conn.inflight.None?
    ensures var s' := Apply(At(s, server, conn, a), Step(server, Answered));
            && s'.db == s.db && s'.log == s.log && s'.unanswered == s.unanswered
            && a.call in s'.calls && s'.calls[a.call] == s.calls[a.call].(phase := Settle(a.op, a.number, result))
  {
    hide Protocol.Settle;
  }

  function Contents(db: Db, id: string): Option<Raw> {
    if id in db.entries then Some(db.entries[id].raw) else None
  }

  /**
   A call that nobody disturbs and that finds nothing, corrupt bytes, a record it has to refuse or a record it has to
   keep says so after one attempt, whatever was left on its connection, and touches nothing.
   */
  lemma UndisturbedCallEnds(s: System, call: nat, result: AttemptResult)
    requires Waits(s, call)
    requires AfterGet(s.calls[call].id, s.calls[call].op, Contents(s.db, s.calls[call].id)) == AtUnwatch(result)
    ensures var step, c := Step(s.calls[call].server, Answered), s.calls[call];
            var s' := Run(s, [Acquire(call), step, step] + [step] + [step]);
            && s'.db == s.db && s'.log == s.log && s'.unanswered == s.unanswered
            && call in s'.calls && s'.calls[call] == c.(phase := Settle(c.op, c.phase.number, result))
  {
    var server, step := s.calls[call].server, Step(s.calls[call].server, Answered);
    var conn := ReadyConn(s, call);
    var get, unwatch := AttemptOf(s, call, AtGet), AttemptOf(s, call, AtUnwatch(result));
    ReadyHolds(s, call);
    ReachesGet(s, call);
    assert Execute(s.db, conn, Get(get.id)).reply == Value(Contents(s.db, get.id));
    assert React(get, Value(Contents(s.db, get.id)), s.db.now, s.defaultTtl) == Continue(unwatch.pc);
    hide Apply, Prepare, Execute, React, ReadyConn, WatchHolds, AfterGet, Protocol.Settle;
    Reads(s, server, conn, get, unwatch.pc);
    Unwatches(s, server, conn, unwatch, result);
    hide At, Run;
    RunLast(s, [Acquire(call), step, step], step);
    RunLast(s, [Acquire(call), step, step] + [step], step);
  }

  /** The answer in each of those cases. */
  lemma EndsWith(id: string, op: Op, number: nat, raw: Option<Raw>, result: AttemptResult)
    requires AfterGet(id, op, raw) == AtUnwatch(result)
    ensures raw.None? ==> Settle(op, number, result) == Finished(Err(NotFound))
    ensures raw == Some(Corrupt) ==> Settle(op, number, result) == Finished(Err(Serialization))
    ensures raw.Some? && raw.value.Record? && Prepare(op, id, raw.value.record).Keep? ==>
              Settle(op, number, result) == Finished(Ok(Answer(raw.value.record, None)))
    ensures raw.Some? && raw.value.Record? && Prepare(op, id, raw.value.record).Reject? ==>
              Settle(op, number, result) == Finished(Err(Prepare(op, id, raw.value.record).error))
  {
  }

  /** A call that finds a record it has to refuse says so after one attempt, and touches nothing. */
  lemma UndisturbedCallRefuses(s: System, call: nat, record: StoredResponse, deadline: Option<nat>, error: StoreError)
    requires Waits(s, call) && Lookup(s.db, s.calls[call].id) == Some(Entry(Record(record), deadline))
    requires Prepare(s.calls[call].op, s.calls[call].id, record) == Reject(error) && !error.Storage?
    ensures var step := Step(s.calls[call].server, Answered);
            var s' := Run(s, [Acquire(call), step, step] + [step] + [step]);
            && s'.db == s.db && s'.log == s.log && s'.unanswered == s.unanswered
            && call in s'.calls && s'.calls[call] == s.calls[call].(phase := Finished(Err(error)))
  {
    hide Run, Prepare;
    UndisturbedCallEnds(s, call, Failure(error));
  }

  /** A claim whose EXEC loses its answer, and which then gets its connection back and tries again. */
  function LostClaim(call: nat, server: nat, spent: nat): seq<Action> {
    var step := Step(server, Answered);
    ToEnd(call, server, spent, ReplyLost) + [Reset(call, true)] + ([Acquire(call), step, step] + [step] + [step])
  }

  lemma Reconnects(s: System, call: nat, number: nat)
    requires call in s.calls && s.calls[call].phase == Broken(number) && number + 1 < MAX_ATTEMPTS
    requires s.calls[call].server in s.servers && s.servers[s.calls[call].server] == Server(FRESH, None)
    ensures var s' := Apply(s, Reset(call, true));
            && s'.db == s.db && s'.log == s.log && s'.unanswered == s.unanswered
            && Waits(s', call) && s'.calls[call] == s.calls[call].(phase := Trying(number + 1))
  {
  }

  /**
   The retry of a claim that has committed refuses its own result: the call answers with a failed precondition though
   it took effect. This can happen to any claim of any claimable record that has an attempt to spare.
   */
  lemma LostClaimIsRefused(s: System, call: nat, entry: Entry, t: Ticket)
    requires Waits(s, call) && t.op.Claim? && t.attempt + 1 < MAX_ATTEMPTS
    requires Finds(s, call, s.calls[call].phase.number + Spent(s, call), entry, t)
    ensures var s' := Run(s, LostClaim(call, s.calls[call].server, Spent(s, call)));
            && call in s'.calls && s'.calls[call].phase == Finished(Err(FailedPrecondition))
            && s'.db == Put(s.db, t.id, Record(t.written), t.ttl)
            && s'.log == s.log + [Change(s.db, s'.db, t.id, Committed(t, t))]
            && call in s'.unanswered
  {
    var server, step := s.calls[call].server, Step(s.calls[call].server, Answered);
    var lost := ToEnd(call, server, Spent(s, call), ReplyLost);
    UndisturbedCallCommits(s, call, entry, t, ReplyLost);
    WriteAdvances(t.op, t.id, t.read);
    assert Prepare(Claim, t.id, t.written) == Reject(FailedPrecondition) by {
      WritesExactly(Claim, t.id, t.written);
    }
    assert Lookup(Put(s.db, t.id, Record(t.written), t.ttl), t.id)
        == Some(Entry(Record(t.written), Some(s.db.now + 1000 * t.ttl)));
    hide Apply, Run, Put, Change, Prepare, ToEnd, Spent;
    var broken := Run(s, lost);
    Reconnects(broken, call, t.attempt);
    RunLast(s, lost, Reset(call, true));
    var again := Apply(broken, Reset(call, true));
    UndisturbedCallRefuses(again, call, t.written, Some(s.db.now + 1000 * t.ttl), FailedPrecondition);
    RunConcat(s, lost + [Reset(call, true)], [Acquire(call), step, step] + [step] + [step]);
  }

  // ----- One run -------------------------------------------------------------------------------

  const JOB: StoredResponse :=
    StoredResponse("upstream", Json.Object(map["status" := Json.Text("queued")]), [], Some(Json.Null), None, None)

  const EMPTY: System :=
    System(86400, map[], Db(0, map[], map[], 0), map[1 := Server(FRESH, None)], [], map[], map[], [], {})

  lemma RunFour(s: System, a: Action, b: Action, c: Action, d: Action)
    ensures Run(s, [a, b, c, d]) == Apply(Apply(Apply(Apply(s, a), b), c), d)
  {
    hide Apply, Run;
    assert Run(s, []) == s by { RunNothing(s); }
    RunLast(s, [], a);
    RunLast(s, [a], b);
    RunLast(s, [a, b], c);
    RunLast(s, [a, b, c], d);
    assert [] + [a] == [a];
    assert [a] + [b] == [a, b];
    assert [a, b] + [c] == [a, b, c];
    assert [a, b, c] + [d] == [a, b, c, d];
  }

  lemma RunNothing(s: System)
    ensures Run(s, []) == s
  {
  }

  lemma JobStored(s0: System, s: System)
    requires s0 == EMPTY && s == Apply(Apply(s0, StartStore(1, "job", JOB, Some(2))), FinishPending(1))
    ensures s.servers == s0.servers && s.calls == map[] && s.defaultTtl == s0.defaultTtl && s.unanswered == {}
    ensures s.db.now == 0 && s.db.entries == map["job" := Entry(Record(JOB), Some(2000))] && |s.log| == 1
  {
    var s1 := Apply(s0, StartStore(1, "job", JOB, Some(2)));
    assert s1 == s0.(pending := map[1 := PendingStore("job", JOB, 2)]);
    assert s == WriteBlind(s1, s1.pending[1]).(pending := map[1 := s1.pending[1]] - {1});
    assert s.db == Put(s0.db, "job", Record(JOB), 2);
  }

  lemma JobClaimed(s2: System, s: System)
    requires s2.servers == EMPTY.servers && s2.calls == map[]
    requires s2.db.now == 0 && s2.db.entries == map["job" := Entry(Record(JOB), Some(2000))]
    requires s == Apply(Apply(s2, Tick(700)), StartCall(1, 1, "job", Claim))
    ensures Waits(s, 1) && Clean(s, 1) && s.calls[1] == Call(1, "job", Claim, Trying(0))
    ensures Lookup(s.db, "job") == Some(Entry(Record(JOB), Some(2000))) && s.db.now == 700
    ensures s.log == s2.log && s.defaultTtl == s2.defaultTtl && s.unanswered == s2.unanswered
  {
    assert Enabled(s2, Tick(700));
    var s3 := Apply(s2, Tick(700));
    assert s3 == s2.(db := s2.db.(now := 700));
    assert Enabled(s3, StartCall(1, 1, "job", Claim));
  }

  /** What the claim of the job reads and prepares, 1.3 seconds before the job expires. */
  function JobTicket(): Ticket {
    Ticket(1, 0, "job", Claim, JOB, Prepare(Claim, "job", JOB).record, Prepare(Claim, "job", JOB).payload, 1, 700)
  }

  /** A job stored for two seconds, seven tenths of a second later a claim of it, and then what `rest` says. */
  function JobRun(rest: seq<Action>): seq<Action> {
    [StartStore(1, "job", JOB, Some(2)), FinishPending(1), Tick(700), StartCall(1, 1, "job", Claim)] + rest
  }

  lemma JobWaits(s0: System, s: System)
    requires s0 == EMPTY && s == Run(s0, JobRun([]))
    ensures Initial(s0) && Waits(s, 1) && Clean(s, 1) && s.calls[1] == Call(1, "job", Claim, Trying(0))
    ensures |s.log| == 1 && s.unanswered == {} && s.db.now == 700
    ensures Finds(s, 1, 0, Entry(Record(JOB), Some(2000)), JobTicket())
  {
    var s2 := Apply(Apply(s0, StartStore(1, "job", JOB, Some(2))), FinishPending(1));
    RunFour(s0, StartStore(1, "job", JOB, Some(2)), FinishPending(1), Tick(700), StartCall(1, 1, "job", Claim));
    assert JobRun([]) == [StartStore(1, "job", JOB, Some(2)), FinishPending(1), Tick(700), StartCall(1, 1, "job", Claim)];
    hide Apply, Run;
    JobStored(s0, s2);
    JobClaimed(s2, s);
    WritesExactly(Claim, "job", JOB);
  }

  lemma LostClaimLogged(s: System, call: nat, entry: Entry, t: Ticket)
    requires Waits(s, call) && t.op.Claim? && t.attempt + 1 < MAX_ATTEMPTS
    requires Finds(s, call, s.calls[call].phase.number + Spent(s, call), entry, t)
    ensures var s' := Run(s, LostClaim(call, s.calls[call].server, Spent(s, call)));
            && call in s'.calls && s'.calls[call].phase == Finished(Err(FailedPrecondition))
            && CommitAt(s', t.id, |s.log|) && s'.log[|s.log|].cause.writer.call == call
  {
    LostClaimIsRefused(s, call, entry, t);
    hide Run, Put, LostClaim;
  }

  lemma JobReached(s0: System, rest: seq<Action>)
    requires s0 == EMPTY
    ensures Run(s0, JobRun(rest)) == Run(Run(s0, JobRun([])), rest) && Reachable(Run(s0, JobRun(rest)))
  {
    var opening := JobRun([]);
    JobWaits(s0, Run(s0, opening));
    hide Apply, Run, Initial;
    assert opening + rest == JobRun(rest);
    RunConcat(s0, opening, rest);
  }

  /** A run from an empty store in which a claim answers with an error and has committed all the same. */
  lemma ErrorHidesCommit(s0: System, waiting: System, s: System)
    requires s0 == EMPTY && waiting == Run(s0, JobRun([])) && s == Run(s0, JobRun(LostClaim(1, 1, 0)))
    ensures Reachable(s) && 1 in s.calls && s.calls[1].phase == Finished(Err(FailedPrecondition))
    ensures CommitAt(s, "job", 1) && s.log[1].cause.writer.call == 1
  {
    hide Apply, Run, Initial, LostClaim, JobRun, Finds, Prepare, Reachable;
    JobWaits(s0, waiting);
    JobReached(s0, LostClaim(1, 1, 0));
    LostClaimLogged(waiting, 1, Entry(Record(JOB), Some(2000)), JobTicket());
  }

  lemma CommitMovesExpiry(s: System, call: nat, entry: Entry, t: Ticket)
    requires Waits(s, call) && Clean(s, call) && entry.deadline.Some?
    requires Finds(s, call, s.calls[call].phase.number, entry, t)
    ensures var s' := Run(s, ToEnd(call, s.calls[call].server, 0, Answered));
            && Expiry.CarriesExpiry(s', t.id, |s.log|)
            && Expiry.OldDeadline(s', t.id, |s.log|) == entry.deadline.value
            && Expiry.NewDeadline(s', t.id, |s.log|) == s.db.now + 1000 * t.ttl
  {
    UndisturbedCallCommits(s, call, entry, t, Answered);
    hide Run, ToEnd;
  }

  /** A run in which a claim brings the expiry of its record forward, from two seconds to 1.7. */
  lemma ClaimBringsExpiryForward(s0: System, waiting: System, s: System)
    requires s0 == EMPTY && waiting == Run(s0, JobRun([]))
    requires s == Run(s0, JobRun(ToEnd(1, 1, 0, Answered)))
    ensures Reachable(s) && Expiry.CarriesExpiry(s, "job", 1)
    ensures Expiry.OldDeadline(s, "job", 1) == 2000 && Expiry.NewDeadline(s, "job", 1) == 1700
  {
    hide Apply, Run, Initial, ToEnd, JobRun, Finds, Prepare, Reachable;
    JobWaits(s0, waiting);
    JobReached(s0, ToEnd(1, 1, 0, Answered));
    CommitMovesExpiry(waiting, 1, Entry(Record(JOB), Some(2000)), JobTicket());
  }
}
