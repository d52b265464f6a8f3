/** The invariant of the whole system, kept by every action and hence by every schedule. */
module Safety {
  import opened Wrappers
  import opened Transitions
  import opened Redis
  import opened Protocol
  import opened Invariant

  ghost predicate ServersOk(s: System) {
    forall v | v in s.servers :: ServerOk(s, s.servers[v])
  }

  ghost predicate HoldersOk(s: System) {
    forall v | v in s.servers && s.servers[v].attempt.Some? :: HolderOk(s, v, s.servers[v].attempt.value)
  }

  ghost predicate ZombiesOk(s: System) {
    forall i | 0 <= i < |s.zombies| :: ConnOk(s.db, s.defaultTtl, s.zombies[i])
  }

  ghost predicate CallOk(s: System, c: Call) {
    && (c.op.Reconcile? ==> c.op.now <= s.db.now / 1000)
    && (c.phase.Trying? ==> c.phase.number < MAX_ATTEMPTS)
    && (c.phase.Reloading? ==> c.op.Reconcile?)
    && (c.phase.Broken? ==> c.phase.number < MAX_ATTEMPTS)
  }

  ghost predicate CallsOk(s: System) {
    forall c | c in s.calls :: CallOk(s, s.calls[c])
  }

  /** An EXEC still on its way was issued by a call of this system. */
  ghost predicate ConnFrom(s: System, conn: Conn) {
    match conn.inflight
    case Some(Exec(t)) => FromCall(s, t)
    case _ => true
  }

  ghost predicate TicketsFromCalls(s: System) {
    && (forall v | v in s.servers :: ConnFrom(s, s.servers[v].conn))
    && (forall i | 0 <= i < |s.zombies| :: ConnFrom(s, s.zombies[i]))
    && (forall i | 0 <= i < |s.log| && s.log[i].cause.Committed? :: FromCall(s, s.log[i].cause.writer))
  }

  /** The logged commit by which call `c` came to answer `answer`. */
  ghost predicate Justifies(e: Event, c: nat, answer: Answer) {
    && e.cause.Committed?
    && e.cause.writer.call == c
    && e.cause.writer.written == answer.record
    && e.cause.writer.payload == answer.payload
  }

  ghost predicate Justified(log: seq<Event>, c: nat, answer: Answer) {
    exists i :: 0 <= i < |log| && Justifies(log[i], c, answer)
  }

  ghost predicate AnswersOk(s: System) {
    forall c | c in s.calls && s.calls[c].phase.Finished? && s.calls[c].phase.result.Ok? && !s.calls[c].op.Reconcile? ::
      Justified(s.log, c, s.calls[c].phase.result.value)
  }

  ghost predicate LogTimed(s: System) {
    forall i | 0 <= i < |s.log| :: s.log[i].at <= s.db.now
  }

  ghost predicate Inv(s: System) {
    && s.defaultTtl >= 1
    && DbOk(s.db)
    && ServersOk(s)
    && HoldersOk(s)
    && ZombiesOk(s)
    && CallsOk(s)
    && TicketsFromCalls(s)
    && LogMatches(s)
    && LogTimed(s)
    && AnswersOk(s)
  }

  /** Any stored keys, any number of servers with fresh connections, and nothing under way. */
  ghost predicate Initial(s: System) {
    && s.defaultTtl >= 1
    && s.origin == s.db.entries
    && DbOk(s.db)
    && (forall v | v in s.servers :: s.servers[v] == Server(FRESH, None))
    && s.zombies == [] && s.calls == map[] && s.pending == map[] && s.log == [] && s.unanswered == {}
  }

  lemma InitialInv(s: System)
    requires Initial(s)
    ensures Inv(s)
  {
  }

  // ----- The log grows by what happened --------------------------------------------------------

  lemma CurrentPrefix(origin: map<string, Entry>, log: seq<Event>, e: Event, id: string)
    ensures Current(origin, log + [e], id) == if e.id == id then e.after else Current(origin, log, id)
  {
    assert (log + [e])[..|log|] == log;
  }

  /** One more modification, logged as it happened. */
  lemma LogGrows(s: System, s': System, e: Event)
    requires LogMatches(s)
    requires s'.origin == s.origin && s'.defaultTtl == s.defaultTtl && s'.log == s.log + [e]
    requires Modifies(s.db, s'.db, e) && EventOk(s.defaultTtl, e)
    ensures LogMatches(s')
  {
    forall id
      ensures Current(s'.origin, s'.log, id) == Lookup(s'.db, id)
    {
      CurrentPrefix(s.origin, s.log, e, id);
    }
    forall i | 0 <= i < |s'.log|
      ensures EventOk(s'.defaultTtl, s'.log[i])
      ensures s'.log[i].before == Current(s'.origin, s'.log[..i], s'.log[i].id)
    {
      if i < |s.log| {
        assert s'.log[i] == s.log[i] && s'.log[..i] == s.log[..i];
      } else {
        assert s'.log[..i] == s.log;
      }
    }
  }

  /** The log either stays, or gains one event that says what happened to the keys. */
  ghost predicate Logs(s: System, s': System, events: seq<Event>) {
    && s'.origin == s.origin && s'.defaultTtl == s.defaultTtl && s'.log == s.log + events
    && Evolves(s.db, s'.db) && DbOk(s'.db)
    && ((events == [] && s'.db.entries == s.db.entries)
        || (|events| == 1 && Modifies(s.db, s'.db, events[0]) && EventOk(s.defaultTtl, events[0])))
  }

  /** Calls stay, with their operation; the untouched ones stay as they are. */
  ghost predicate CallsKept(s: System, s': System) {
    forall c | c in s.calls ::
      c in s'.calls && s'.calls[c].op == s.calls[c].op && s'.calls[c].id == s.calls[c].id
  }

  lemma LogKept(s: System, s': System, events: seq<Event>)
    requires Inv(s) && Logs(s, s', events) && CallsKept(s, s')
    requires forall e | e in events && e.cause.Committed? :: FromCall(s, e.cause.writer)
    ensures LogMatches(s') && LogTimed(s')
    ensures forall i | 0 <= i < |s'.log| && s'.log[i].cause.Committed? :: FromCall(s', s'.log[i].cause.writer)
  {
    if |events| == 1 {
      assert events == [events[0]];
      LogGrows(s, s', events[0]);
    } else {
      assert s'.log == s.log;
      forall id
        ensures Current(s'.origin, s'.log, id) == Lookup(s'.db, id)
      {
        assert Lookup(s'.db, id) == Lookup(s.db, id);
      }
    }
    forall i | 0 <= i < |s'.log| && s'.log[i].cause.Committed?
      ensures FromCall(s', s'.log[i].cause.writer)
    {
      if i < |s.log| {
        assert FromCall(s, s.log[i].cause.writer);
      } else {
        assert s'.log[i] in events;
      }
    }
  }

  lemma JustifiedGrows(log: seq<Event>, events: seq<Event>, c: nat, answer: Answer)
    requires Justified(log, c, answer)
    ensures Justified(log + events, c, answer)
  {
    var i :| 0 <= i < |log| && Justifies(log[i], c, answer);
    assert (log + events)[i] == log[i];
  }

  /** Answers already given stay justified. */
  lemma AnswersKept(s: System, s': System, events: seq<Event>)
    requires Inv(s) && s'.log == s.log + events
    requires forall c | c in s'.calls && s'.calls[c].phase.Finished? && s'.calls[c].phase.result.Ok?
                        && !s'.calls[c].op.Reconcile? ::
               (c in s.calls && s'.calls[c] == s.calls[c]) || Justified(s'.log, c, s'.calls[c].phase.result.value)
    ensures AnswersOk(s')
  {
    forall c | c in s'.calls && s'.calls[c].phase.Finished? && s'.calls[c].phase.result.Ok? && !s'.calls[c].op.Reconcile?
      ensures Justified(s'.log, c, s'.calls[c].phase.result.value)
    {
      if c in s.calls && s'.calls[c] == s.calls[c] {
        JustifiedGrows(s.log, events, c, s.calls[c].phase.result.value);
      }
    }
  }

  /** Connections and attempts that an action does not touch stay fine while the keys evolve. */
  lemma ServerKept(s: System, s': System, server: Server)
    requires s'.defaultTtl == s.defaultTtl && Evolves(s.db, s'.db) && ServerOk(s, server)
    ensures ServerOk(s', server)
  {
    ConnStable(s.db, s'.db, s.defaultTtl, server.conn);
    if server.attempt.Some? {
      AttemptStable(s.db, s'.db, s.defaultTtl, server.conn, server.attempt.value);
    }
  }

  lemma ServersKept(s: System, s': System, touched: set<nat>)
    requires ServersOk(s) && s'.defaultTtl == s.defaultTtl && Evolves(s.db, s'.db)
    requires s'.servers.Keys == s.servers.Keys
    requires forall v | v in s.servers && v !in touched :: s'.servers[v] == s.servers[v]
    requires forall v | v in touched && v in s'.servers :: ServerOk(s', s'.servers[v])
    ensures ServersOk(s')
  {
    forall v | v in s'.servers
      ensures ServerOk(s', s'.servers[v])
    {
      if v !in touched {
        ServerKept(s, s', s.servers[v]);
      }
    }
  }

  lemma ZombiesKept(s: System, s': System)
    requires ZombiesOk(s) && s'.defaultTtl == s.defaultTtl && Evolves(s.db, s'.db) && s'.zombies == s.zombies
    ensures ZombiesOk(s')
  {
    forall i | 0 <= i < |s'.zombies|
      ensures ConnOk(s'.db, s'.defaultTtl, s'.zombies[i])
    {
      ConnStable(s.db, s'.db, s.defaultTtl, s.zombies[i]);
    }
  }

  // ----- The actions, one kind at a time -------------------------------------------------------

  /** Actions that change keys or pending requests only. */
  lemma KeysKeep(s: System, s': System, events: seq<Event>)
    requires Inv(s) && Logs(s, s', events)
    requires forall e | e in events :: !e.cause.Committed?
    requires s'.servers == s.servers && s'.zombies == s.zombies && s'.calls == s.calls
    ensures Inv(s')
  {
    LogKept(s, s', events);
    ServersKept(s, s', {});
    ZombiesKept(s, s');
    AnswersKept(s, s', events);
  }

  lemma PendingKeeps(s: System, pending: Pending)
    requires Inv(s)
    ensures Inv(WriteBlind(s, pending))
  {
    var s' := WriteBlind(s, pending);
    match pending
    case PendingStore(id, record, ttl) =>
      PutEvolves(s.db, id, Record(record), ttl, Stored);
      KeysKeep(s, s', [Change(s.db, s'.db, id, Stored)]);
    case PendingTombstone(id, record) =>
      PutEvolves(s.db, id, Record(Tombstone(record, id)), s.defaultTtl, Tombstoned);
      KeysKeep(s, s', [Change(s.db, s'.db, id, Tombstoned)]);
    case PendingDelete(id) =>
      RemoveEvolves(s.db, id, Deleted);
      if id in s.db.entries {
        KeysKeep(s, s', [Change(s.db, s'.db, id, Deleted)]);
      }
    hide Inv;
  }

  lemma ExpireKeeps(s: System, id: string)
    requires Inv(s) && id in s.db.entries
    ensures Inv(Modify(s, Remove(s.db, id), id, Expired))
  {
    RemoveEvolves(s.db, id, Expired);
    KeysKeep(s, Modify(s, Remove(s.db, id), id, Expired), [Change(s.db, Remove(s.db, id), id, Expired)]);
  }

  lemma TickKeeps(s: System, ms: nat)
    requires Inv(s) && Enabled(s, Tick(ms))
    ensures Inv(s.(db := s.db.(now := s.db.now + ms)))
  {
    var s' := s.(db := s.db.(now := s.db.now + ms));
    assert s'.log == s.log + [];
    KeysKeep(s, s', []);
  }

  lemma IssuedFromCall(s: System, server: nat)
    requires Inv(s) && Holding(s, server) && s.servers[server].attempt.value.pc.AtExec?
    ensures FromCall(s, s.servers[server].attempt.value.pc.ticket)
  {
    var a := s.servers[server].attempt.value;
    assert ServerOk(s, s.servers[server]) && HolderOk(s, server, a);
  }

  /** What an action at one server may do to the calls. */
  ghost predicate CallsTouched(s: System, s': System, server: nat) {
    && s'.calls.Keys == s.calls.Keys
    && forall c | c in s.calls ::
         && s'.calls[c].(phase := s.calls[c].phase) == s.calls[c]
         && (s'.calls[c] == s.calls[c] || s.calls[c].server == server)
         && CallOk(s', s'.calls[c])
  }

  /** An action at one server keeps the invariant if that server, its call and the log come out right. */
  lemma ServerActionKeeps(s: System, s': System, server: nat, events: seq<Event>)
    requires Inv(s) && Logs(s, s', events) && CallsTouched(s, s', server)
    requires forall e | e in events && e.cause.Committed? :: FromCall(s, e.cause.writer)
    requires server in s.servers && s'.servers.Keys == s.servers.Keys
    requires forall v | v in s.servers && v != server :: s'.servers[v] == s.servers[v]
    requires ServerOk(s', s'.servers[server]) && ConnFrom(s, s'.servers[server].conn)
    requires s'.servers[server].attempt.Some? ==> HolderOk(s', server, s'.servers[server].attempt.value)
    requires forall z | z in s'.zombies :: z in s.zombies || z == s.servers[server].conn
    requires forall c | c in s'.calls && s'.calls[c] != s.calls[c] && s'.calls[c].phase.Finished?
                        && s'.calls[c].phase.result.Ok? && !s'.calls[c].op.Reconcile? ::
               Justified(s'.log, c, s'.calls[c].phase.result.value)
    ensures Inv(s')
  {
    ServersKept(s, s', {server});
    LogKept(s, s', events);
    AnswersKept(s, s', events);
    forall i | 0 <= i < |s'.zombies|
      ensures ConnOk(s'.db, s'.defaultTtl, s'.zombies[i]) && ConnFrom(s', s'.zombies[i])
    {
      assert s'.zombies[i] in s'.zombies;
      if s'.zombies[i] in s.zombies {
        var j :| 0 <= j < |s.zombies| && s.zombies[j] == s'.zombies[i];
        assert ConnFrom(s, s.zombies[j]);
      } else {
        assert ServerOk(s, s.servers[server]) && ConnFrom(s, s.servers[server].conn);
      }
      ConnStable(s.db, s'.db, s.defaultTtl, s'.zombies[i]);
    }
    forall v | v in s'.servers
      ensures ConnFrom(s', s'.servers[v].conn)
      ensures s'.servers[v].attempt.Some? ==> HolderOk(s', v, s'.servers[v].attempt.value)
    {
      if v != server {
        assert ConnFrom(s, s.servers[v].conn);
        if s.servers[v].attempt.Some? {
          assert HolderOk(s, v, s.servers[v].attempt.value);
        }
      }
    }
  }

  lemma OutputsLog(s: System, s': System, command: Command, out: Outcome)
    requires Inv(s) && Outputs(s.defaultTtl, s.db, command, out)
    requires Evolves(s.db, out.db) && DbOk(out.db)
    requires s'.origin == s.origin && s'.defaultTtl == s.defaultTtl && s'.log == s.log + out.events && s'.db == out.db
    requires command.Exec? ==> FromCall(s, command.issuer)
    ensures Logs(s, s', out.events)
    ensures forall e | e in out.events && e.cause.Committed? :: FromCall(s, e.cause.writer)
  {
    hide Inv, Evolves, DbOk, Modifies, FromCall, TicketOk;
  }

  lemma StepKeeps(s: System, server: nat, fate: Fate)
    requires Inv(s) && Holding(s, server) && CanIssue(s.servers[server].conn, fate)
    ensures Inv(StepServer(s, server, fate))
  {
    var conn, a := s.servers[server].conn, s.servers[server].attempt.value;
    assert ServerOk(s, s.servers[server]) && HolderOk(s, server, a) && CallOk(s, s.calls[a.call]);
    assert ConnFrom(s, conn);
    IssueSafe(s.db, s.defaultTtl, conn, a, fate);
    StepKeepsAttempt(s.db, s.defaultTtl, conn, a, fate);
    if a.pc.AtExec? {
      IssuedFromCall(s, server);
      SuccessIsLogged(s.db, s.defaultTtl, conn, a, fate);
    }
    IssueFrom(s, conn, a, fate);
    var out := Issue(s.db, conn, CommandOf(a), fate);
    OutcomeKeeps(s, server, out, React(a, out.reply, s.db.now, s.defaultTtl));
  }

  lemma IssueFrom(s: System, conn: Conn, a: Attempt, fate: Fate)
    requires ConnFrom(s, conn) && CanIssue(conn, fate)
    requires a.pc.AtExec? ==> FromCall(s, a.pc.ticket)
    ensures ConnFrom(s, Issue(s.db, conn, CommandOf(a), fate).conn)
  {
  }

  lemma OutcomeKeeps(s: System, server: nat, out: Outcome, verdict: Verdict)
    requires Inv(s) && Holding(s, server)
    requires var a := s.servers[server].attempt.value;
             && Outputs(s.defaultTtl, s.db, CommandOf(a), out)
             && (a.pc.AtExec? ==> FromCall(s, a.pc.ticket))
             && (verdict.Continue? ==> AttemptOk(out.db, s.defaultTtl, out.conn, a.(pc := verdict.pc)))
             && (verdict.End? && verdict.result.Unchanged? ==> a.op.Reconcile?)
             && (verdict.End? && verdict.result.Success? ==>
                   && |out.events| == 1
                   && Justifies(out.events[0], a.call, Answer(verdict.result.record, verdict.result.payload)))
    requires Evolves(s.db, out.db) && DbOk(out.db)
    requires ConnOk(out.db, s.defaultTtl, out.conn) && ConnFrom(s, out.conn)
    ensures Inv(AfterCommand(s, server, out, verdict))
  {
    hide AttemptOk, ConnOk, CommitOk, Modifies, Evolves, DbOk, ServersOk, LogMatches, AnswersOk, TicketsFromCalls;
    var a := s.servers[server].attempt.value;
    var s' := AfterCommand(s, server, out, verdict);
    OutputsLog(s, s', CommandOf(a), out);
    match verdict
    case Continue(pc) => ContinueKeeps(s, s', server, out, pc);
    case End(result) => EndKeeps(s, s', server, out, result);
  }

  lemma ContinueKeeps(s: System, s': System, server: nat, out: Outcome, pc: Pc)
    requires Inv(s) && Holding(s, server) && s' == AfterCommand(s, server, out, Continue(pc))
    requires Logs(s, s', out.events)
    requires forall e | e in out.events && e.cause.Committed? :: FromCall(s, e.cause.writer)
    requires ConnOk(out.db, s.defaultTtl, out.conn) && ConnFrom(s, out.conn)
    requires AttemptOk(out.db, s.defaultTtl, out.conn, s.servers[server].attempt.value.(pc := pc))
    ensures Inv(s')
  {
    assert HolderOk(s, server, s.servers[server].attempt.value);
    CallsAge(s, s');
    ServerActionKeeps(s, s', server, out.events);
  }

  lemma EndKeeps(s: System, s': System, server: nat, out: Outcome, result: AttemptResult)
    requires Inv(s) && Holding(s, server) && s' == AfterCommand(s, server, out, End(result))
    requires Logs(s, s', out.events)
    requires forall e | e in out.events && e.cause.Committed? :: FromCall(s, e.cause.writer)
    requires ConnOk(out.db, s.defaultTtl, out.conn) && ConnFrom(s, out.conn)
    requires var a := s.servers[server].attempt.value;
             && (result.Unchanged? ==> a.op.Reconcile?)
             && (result.Success? ==>
                   && |out.events| == 1
                   && Justifies(out.events[0], a.call, Answer(result.record, result.payload)))
    ensures Inv(s')
  {
    assert HolderOk(s, server, s.servers[server].attempt.value);
    EndTouches(s, server, out, result);
    if result.Success? {
      assert s'.log[|s.log|] == out.events[0];
    }
    ServerActionKeeps(s, s', server, out.events);
  }

  lemma EndTouches(s: System, server: nat, out: Outcome, result: AttemptResult)
    requires Inv(s) && Holding(s, server) && s.db.now <= out.db.now
    ensures CallsTouched(s, AfterCommand(s, server, out, End(result)), server)
  {
    var a := s.servers[server].attempt.value;
    assert HolderOk(s, server, a);
    var s' := AfterCommand(s, server, out, End(result));
    forall c | c in s.calls
      ensures CallOk(s', s'.calls[c])
    {
      assert CallOk(s, s.calls[c]);
    }
  }

  /** A command that was still on its way is carried out after all. */
  lemma ArrivalSafe(s: System, conn: Conn)
    requires Inv(s) && conn.inflight.Some? && ConnOk(s.db, s.defaultTtl, conn) && ConnFrom(s, conn)
    ensures var out := Arrival(s.db, conn);
            && Evolves(s.db, out.db) && DbOk(out.db)
            && ConnOk(out.db, s.defaultTtl, out.conn) && ConnFrom(s, out.conn)
            && out.conn.lost == conn.lost
            && Outputs(s.defaultTtl, s.db, conn.inflight.value, out)
            && forall e | e in out.events && e.cause.Committed? :: FromCall(s, e.cause.writer)
  {
    ExecuteSafe(s.db, s.defaultTtl, conn.(inflight := None), conn.inflight.value);
  }

  lemma ArriveKeeps(s: System, server: nat)
    requires Inv(s) && Enabled(s, Arrive(server))
    ensures Inv(Arrived(s, server))
  {
    var Server(conn, attempt) := s.servers[server];
    assert ServerOk(s, s.servers[server]) && ConnFrom(s, conn);
    ArrivalSafe(s, conn);
    if attempt.Some? {
      assert HolderOk(s, server, attempt.value);
      ArrivalKeepsAttempt(s.db, s.defaultTtl, conn, attempt.value);
    }
    ArrivedKeeps(s, server, conn.inflight.value, Arrival(s.db, conn));
  }

  /** An attempt past its first commands has no command outstanding, so a late arrival finds it before them. */
  lemma ArrivalKeepsAttempt(db: Db, defaultTtl: nat, conn: Conn, a: Attempt)
    requires ConnOk(db, defaultTtl, conn) && AttemptOk(db, defaultTtl, conn, a) && conn.inflight.Some?
    ensures forall db', conn' :: AttemptOk(db', defaultTtl, conn', a)
  {
    assert a.pc.AtDiscard? || a.pc.AtWatch? || a.pc.AtUnwatch?;
  }

  lemma ArrivedKeeps(s: System, server: nat, command: Command, out: Outcome)
    requires Inv(s) && server in s.servers
    requires Outputs(s.defaultTtl, s.db, command, out) && (command.Exec? ==> FromCall(s, command.issuer))
    requires Evolves(s.db, out.db) && DbOk(out.db)
    requires ConnOk(out.db, s.defaultTtl, out.conn) && ConnFrom(s, out.conn)
    requires var attempt := s.servers[server].attempt;
             attempt.Some? ==> AttemptOk(out.db, s.defaultTtl, out.conn, attempt.value)
    ensures Inv(s.(db := out.db, log := s.log + out.events,
                   servers := s.servers[server := s.servers[server].(conn := out.conn)]))
  {
    var s' := s.(db := out.db, log := s.log + out.events,
                 servers := s.servers[server := s.servers[server].(conn := out.conn)]);
    if s.servers[server].attempt.Some? {
      assert HolderOk(s, server, s.servers[server].attempt.value);
    }
    OutputsLog(s, s', command, out);
    CallsAge(s, s');
    ServerActionKeeps(s, s', server, out.events);
  }

  lemma CallsAge(s: System, s': System)
    requires CallsOk(s) && s'.calls == s.calls && s.db.now <= s'.db.now
    ensures CallsOk(s')
  {
    forall c | c in s'.calls
      ensures CallOk(s', s'.calls[c])
    {
      assert CallOk(s, s.calls[c]);
    }
  }

  lemma ArriveLateKeeps(s: System, zombie: nat)
    requires Inv(s) && Enabled(s, ArriveLate(zombie))
    ensures Inv(ArrivedLate(s, zombie))
  {
    var conn := s.zombies[zombie];
    ArrivalSafe(s, conn);
    ArrivedLateKeeps(s, zombie, conn.inflight.value, Arrival(s.db, conn));
  }

  lemma ArrivedLateKeeps(s: System, zombie: nat, command: Command, out: Outcome)
    requires Inv(s) && zombie < |s.zombies|
    requires Outputs(s.defaultTtl, s.db, command, out) && (command.Exec? ==> FromCall(s, command.issuer))
    requires Evolves(s.db, out.db) && DbOk(out.db)
    requires ConnOk(out.db, s.defaultTtl, out.conn) && ConnFrom(s, out.conn)
    ensures Inv(s.(db := out.db, log := s.log + out.events, zombies := s.zombies[zombie := out.conn]))
  {
    var s' := s.(db := out.db, log := s.log + out.events, zombies := s.zombies[zombie := out.conn]);
    OutputsLog(s, s', command, out);
    CallsAge(s, s');
    ServersKept(s, s', {});
    forall i | 0 <= i < |s'.zombies|
      ensures ConnOk(s'.db, s'.defaultTtl, s'.zombies[i])
    {
      if i != zombie {
        ConnStable(s.db, s'.db, s.defaultTtl, s.zombies[i]);
      }
    }
    LogKept(s, s', out.events);
    AnswersKept(s, s', out.events);
  }

  lemma DanglingOk(s: System, server: nat, delayed: bool)
    requires Inv(s) && Holding(s, server)
    ensures var Server(conn, attempt) := s.servers[server];
            var conn' := Dangling(conn, attempt.value, delayed);
            ConnOk(s.db, s.defaultTtl, conn') && ConnFrom(s, conn')
  {
    var Server(conn, attempt) := s.servers[server];
    assert ServerOk(s, s.servers[server]) && ConnFrom(s, conn);
    if delayed && !conn.lost && conn.inflight.None? {
      DelayedIsOk(s.db, s.defaultTtl, conn, attempt.value);
      if attempt.value.pc.AtExec? {
        IssuedFromCall(s, server);
      }
    }
  }

  lemma AbandonKeeps(s: System, server: nat, delayed: bool)
    requires Inv(s) && Holding(s, server)
    ensures Inv(AbandonAttempt(s, server, delayed))
  {
    var Server(conn, attempt) := s.servers[server];
    var s' := AbandonAttempt(s, server, delayed);
    assert HolderOk(s, server, attempt.value) && ConnFrom(s, conn) && CallsOk(s);
    DanglingOk(s, server, delayed);
    QuietKeeps(s, s', server);
  }

  /** Actions at one server that leave the keys alone. */
  lemma QuietKeeps(s: System, s': System, server: nat)
    requires Inv(s) && server in s.servers
    requires s' == s.(servers := s'.servers, calls := s'.calls, zombies := s'.zombies, unanswered := s'.unanswered)
    requires s'.servers.Keys == s.servers.Keys
    requires forall v | v in s.servers && v != server :: s'.servers[v] == s.servers[v]
    requires ServerOk(s', s'.servers[server]) && ConnFrom(s, s'.servers[server].conn)
    requires s'.servers[server].attempt.Some? ==> HolderOk(s', server, s'.servers[server].attempt.value)
    requires forall z | z in s'.zombies :: z in s.zombies || z == s.servers[server].conn
    requires CallsTouched(s, s', server)
    requires forall c | c in s'.calls && s'.calls[c] != s.calls[c] && s'.calls[c].phase.Finished? ::
               s'.calls[c].phase.result.Err?
    ensures Inv(s')
  {
    assert s'.log == s.log + [];
    assert Logs(s, s', []);
    ServerActionKeeps(s, s', server, []);
  }

  lemma ResetKeeps(s: System, call: nat)
    requires Inv(s) && Enabled(s, Reset(call, true))
    ensures Inv(Reconnected(s, call))
  {
    hide LogMatches, AnswersOk, Prepare;
    var server := s.calls[call].server;
    assert ServerOk(s, s.servers[server]) && CallOk(s, s.calls[call]);
    QuietKeeps(s, Reconnected(s, call), server);
  }

  lemma LoseKeeps(s: System, server: nat)
    requires Inv(s) && server in s.servers
    ensures Inv(LoseLink(s, server))
  {
    assert ServerOk(s, s.servers[server]);
    if s.servers[server].attempt.Some? {
      assert HolderOk(s, server, s.servers[server].attempt.value);
    }
    QuietKeeps(s, LoseLink(s, server), server);
  }

  lemma AcquireKeeps(s: System, call: nat)
    requires Inv(s) && Enabled(s, Acquire(call))
    ensures Inv(TakeLock(s, call))
  {
    var server := s.calls[call].server;
    assert ServerOk(s, s.servers[server]);
    QuietKeeps(s, TakeLock(s, call), server);
  }

  /** Actions that change the phase of a call nobody holds the lock for. */
  lemma PhaseKeeps(s: System, call: nat, phase: Phase)
    requires Inv(s) && call in s.calls && !HoldsLock(s, call)
    requires !phase.Trying? && !phase.Broken? && !phase.Reloading?
    requires phase.Finished? && phase.result.Ok? ==> s.calls[call].op.Reconcile?
    ensures Inv(SetPhase(s, call, phase))
  {
    var s' := SetPhase(s, call, phase);
    assert CallOk(s, s.calls[call]);
    assert s'.log == s.log + [];
    LogKept(s, s', []);
    AnswersKept(s, s', []);
  }

  lemma HolderIsTrying(s: System, call: nat)
    requires Inv(s) && HoldsLock(s, call)
    ensures s.calls[call].phase.Trying?
  {
    assert HolderOk(s, s.calls[call].server, s.servers[s.calls[call].server].attempt.value);
  }

  lemma ReloadKeeps(s: System, call: nat, loadFails: bool)
    requires Inv(s) && Enabled(s, Reload(call, loadFails))
    ensures Inv(SetPhase(s, call, Finished(Reloaded(s.db, s.calls[call].id, loadFails))))
  {
    if HoldsLock(s, call) {
      HolderIsTrying(s, call);
      assert false;
    }
    assert CallOk(s, s.calls[call]);
    PhaseKeeps(s, call, Finished(Reloaded(s.db, s.calls[call].id, loadFails)));
  }

  lemma StartCallKeeps(s: System, action: Action)
    requires Inv(s) && action.StartCall? && Enabled(s, action)
    ensures Inv(Apply(s, action))
  {
    var s' := Apply(s, action);
    assert s'.log == s.log + [];
    LogKept(s, s', []);
    AnswersKept(s, s', []);
  }

  // ----- Every action, every schedule ----------------------------------------------------------

  lemma RequestKeeps(s: System, pending: map<nat, Pending>)
    requires Inv(s)
    ensures Inv(s.(pending := pending))
  {
    var s' := s.(pending := pending);
    assert s'.log == s.log + [];
    KeysKeep(s, s', []);
  }

  lemma FinishKeeps(s: System, request: nat)
    requires Inv(s) && request in s.pending
    ensures Inv(Apply(s, FinishPending(request)))
  {
    PendingKeeps(s, s.pending[request]);
    RequestKeeps(WriteBlind(s, s.pending[request]), s.pending - {request});
  }

  /** Actions of a call between its attempts. */
  lemma CallActionKeeps(s: System, action: Action)
    requires Inv(s) && Enabled(s, action)
    requires action.StartCall? || action.Acquire? || action.Reset? || action.Reload? || action.Forget?
    ensures Inv(Apply(s, action))
  {
    hide Inv;
    match action
    case StartCall(_, _, _, _) => StartCallKeeps(s, action);
    case Acquire(call) => AcquireKeeps(s, call);
    case Reset(call, connected) =>
      if connected {
        ResetKeeps(s, call);
      } else {
        PhaseKeeps(s, call, Finished(Err(Storage)));
      }
    case Reload(call, loadFails) => ReloadKeeps(s, call, loadFails);
    case Forget(call) => PhaseKeeps(s, call, Dropped);
  }

  /** Actions of one connection. */
  lemma ConnActionKeeps(s: System, action: Action)
    requires Inv(s) && Enabled(s, action)
    requires action.Step? || action.Abandon? || action.Lose? || action.Arrive? || action.ArriveLate?
    ensures Inv(Apply(s, action))
  {
    hide Inv;
    match action
    case Step(server, fate) => StepKeeps(s, server, fate);
    case Abandon(server, delayed) => AbandonKeeps(s, server, delayed);
    case Lose(server) => LoseKeeps(s, server);
    case Arrive(server) => ArriveKeeps(s, server);
    case ArriveLate(zombie) => ArriveLateKeeps(s, zombie);
  }

  /** Actions of the clock and of blind requests. */
  lemma KeyActionKeeps(s: System, action: Action)
    requires Inv(s) && Enabled(s, action)
    requires action.Tick? || action.Expire? || action.FinishPending?
    ensures Inv(Apply(s, action))
  {
    hide Inv;
    match action
    case Tick(ms) => TickKeeps(s, ms);
    case Expire(id) => ExpireKeeps(s, id);
    case FinishPending(request) => FinishKeeps(s, request);
  }

  lemma RequestActionKeeps(s: System, action: Action)
    requires Inv(s) && Enabled(s, action)
    requires action.StartStore? || action.StartUpdate? || action.StartDelete? || action.DropPending?
    ensures Inv(Apply(s, action))
  {
    var pending := Apply(s, action).pending;
    assert Apply(s, action) == s.(pending := pending);
    RequestKeeps(s, pending);
  }

  lemma ActionKeeps(s: System, action: Action)
    requires Inv(s)
    ensures Inv(Apply(s, action))
  {
    hide Inv;
    if !Enabled(s, action) {
      assert Apply(s, action) == s;
    } else if action.Step? || action.Abandon? || action.Lose? || action.Arrive? || action.ArriveLate? {
      ConnActionKeeps(s, action);
    } else if action.StartCall? || action.Acquire? || action.Reset? || action.Reload? || action.Forget? {
      CallActionKeeps(s, action);
    } else if action.Tick? || action.Expire? || action.FinishPending? {
      KeyActionKeeps(s, action);
    } else {
      RequestActionKeeps(s, action);
    }
  }

  lemma {:induction false} RunKeeps(s: System, actions: seq<Action>)
    requires Inv(s)
    ensures Inv(Run(s, actions))
    decreases |actions|
  {
    hide Inv;
    if actions != [] {
      ActionKeeps(s, actions[0]);
      RunKeeps(Apply(s, actions[0]), actions[1..]);
    }
  }
}
