/** What a call's error says about the record: which errors may hide a commit, and that no other one does. */
module Errors {
  import opened Wrappers
  import opened Transitions
  import opened Redis
  import opened Protocol
  import opened Invariant
  import opened Safety
  import opened Lifecycle

  /** The commit was answered with what it wrote, or one of its call's EXECs got no answer. */
  ghost predicate Told(s: System, t: Ticket) {
    || t.call in s.unanswered
    || (t.call in s.calls && s.calls[t.call].phase == Finished(Ok(Answer(t.written, t.payload))))
  }

  ghost predicate AllTold(s: System, log: seq<Event>) {
    forall i | 0 <= i < |log| && log[i].cause.Committed? :: Told(s, log[i].cause.writer)
  }

  /** An EXEC still on its way was given up on. */
  ghost predicate ConnTold(unanswered: set<nat>, conn: Conn) {
    match conn.inflight
    case Some(Exec(t)) => t.call in unanswered
    case _ => true
  }

  ghost predicate Known(s: System) {
    && AllTold(s, s.log)
    && (forall v | v in s.servers :: ConnTold(s.unanswered, s.servers[v].conn))
    && (forall i | 0 <= i < |s.zombies| :: ConnTold(s.unanswered, s.zombies[i]))
  }

  /** No call loses its answer. */
  ghost predicate AnswersStay(s: System, s': System) {
    && s.unanswered <= s'.unanswered
    && forall c | c in s.calls && s.calls[c].phase.Finished? :: c in s'.calls && s'.calls[c] == s.calls[c]
  }

  lemma ToldStays(s: System, s': System, log: seq<Event>)
    requires AllTold(s, log) && AnswersStay(s, s')
    ensures AllTold(s', log)
  {
  }

  lemma ToldGrows(s: System, s': System, events: seq<Event>)
    requires AllTold(s, s.log) && AnswersStay(s, s') && s'.log == s.log + events && AllTold(s', events)
    ensures AllTold(s', s'.log)
  {
    ToldStays(s, s', s.log);
    forall i | 0 <= i < |s'.log| && s'.log[i].cause.Committed?
      ensures Told(s', s'.log[i].cause.writer)
    {
      if i >= |s.log| {
        assert s'.log[i] == events[i - |s.log|];
      }
    }
  }

  // ----- One command ---------------------------------------------------------------------------

  /** A commit is answered with what it wrote, or not at all; a command still on its way was not answered either. */
  lemma IssueTells(db: Db, defaultTtl: nat, conn: Conn, a: Attempt, fate: Fate, unanswered: set<nat>)
    requires DbOk(db) && ConnOk(db, defaultTtl, conn) && AttemptOk(db, defaultTtl, conn, a) && CanIssue(conn, fate)
    requires ConnTold(unanswered, conn)
    ensures var out := Issue(db, conn, CommandOf(a), fate);
            var unsure := a.pc.AtExec? && !out.reply.ExecReply?;
            && ConnTold(if unsure then unanswered + {a.call} else unanswered, out.conn)
            && |out.events| <= 1
            && forall e | e in out.events ::
                 && e.cause.Committed? && a.pc.AtExec?
                 && e.cause.writer == a.pc.ticket && a.pc.ticket.call == a.call
                 && (!unsure ==> out.reply == ExecReply(true))
  {
    hide Prepare, TicketOk;
    if !conn.lost {
      AttemptIsSafe(db, defaultTtl, conn, a);
      if fate.Answered? || fate.ReplyLost? {
        ExecuteSafe(db, defaultTtl, conn, CommandOf(a));
        if a.pc.AtExec? {
          ExecCommits(db, defaultTtl, conn, a.pc.ticket);
        }
      }
    }
  }

  /** What a command leaves of the system, apart from the keys. */
  lemma StepShape(s: System, server: nat, fate: Fate)
    requires Enabled(s, Step(server, fate))
    requires var a := s.servers[server].attempt.value; a.call in s.calls && s.calls[a.call].phase.Trying?
    ensures var a := s.servers[server].attempt.value;
            var out := Issue(s.db, s.servers[server].conn, CommandOf(a), fate);
            var s' := StepServer(s, server, fate);
            && s'.log == s.log + out.events
            && s'.unanswered == (if a.pc.AtExec? && !out.reply.ExecReply? then s.unanswered + {a.call} else s.unanswered)
            && s'.zombies == s.zombies
            && s'.servers.Keys == s.servers.Keys
            && s'.servers[server].conn == out.conn
            && (forall v | v in s.servers && v != server :: s'.servers[v] == s.servers[v])
            && AnswersStay(s, s')
  {
    hide Issue, React, Protocol.Settle, CommandOf, AnswersStay, AfterCommand;
    var a := s.servers[server].attempt.value;
    var out := Issue(s.db, s.servers[server].conn, CommandOf(a), fate);
    AfterShape(s, server, out, React(a, out.reply, s.db.now, s.defaultTtl));
  }

  lemma AfterShape(s: System, server: nat, out: Outcome, verdict: Verdict)
    requires Holding(s, server)
    requires var a := s.servers[server].attempt.value; a.call in s.calls && s.calls[a.call].phase.Trying?
    ensures var a := s.servers[server].attempt.value;
            var s' := AfterCommand(s, server, out, verdict);
            && s'.log == s.log + out.events
            && s'.unanswered == (if a.pc.AtExec? && !out.reply.ExecReply? then s.unanswered + {a.call} else s.unanswered)
            && s'.zombies == s.zombies
            && s'.servers.Keys == s.servers.Keys
            && s'.servers[server].conn == out.conn
            && (forall v | v in s.servers && v != server :: s'.servers[v] == s.servers[v])
            && AnswersStay(s, s')
  {
    hide Protocol.Settle;
  }

  lemma StepTells(s: System, server: nat, fate: Fate)
    requires Inv(s) && Known(s) && Enabled(s, Step(server, fate))
    ensures Known(StepServer(s, server, fate))
  {
    var conn, a := s.servers[server].conn, s.servers[server].attempt.value;
    assert ServerOk(s, s.servers[server]) && HolderOk(s, server, a);
    hide Inv, ConnTold, AllTold, ServerOk, StepServer, AnswersStay;
    IssueTells(s.db, s.defaultTtl, conn, a, fate, s.unanswered);
    hide Issue;
    var out := Issue(s.db, conn, CommandOf(a), fate);
    var s' := StepServer(s, server, fate);
    StepShape(s, server, fate);
    OutcomeTells(s, server, fate);
    ToldGrows(s, s', out.events);
    ConnsTold(s, s');
  }

  lemma OutcomeTells(s: System, server: nat, fate: Fate)
    requires Enabled(s, Step(server, fate))
    requires var a := s.servers[server].attempt.value;
             && a.call in s.calls
             && var out := Issue(s.db, s.servers[server].conn, CommandOf(a), fate);
                forall e | e in out.events ::
                  && e.cause.Committed? && a.pc.AtExec?
                  && e.cause.writer == a.pc.ticket && a.pc.ticket.call == a.call
                  && (out.reply.ExecReply? ==> out.reply == ExecReply(true))
    ensures AllTold(StepServer(s, server, fate),
                    Issue(s.db, s.servers[server].conn, CommandOf(s.servers[server].attempt.value), fate).events)
  {
    hide Issue;
    var a := s.servers[server].attempt.value;
    var out := Issue(s.db, s.servers[server].conn, CommandOf(a), fate);
    forall i | 0 <= i < |out.events| && out.events[i].cause.Committed?
      ensures Told(StepServer(s, server, fate), out.events[i].cause.writer)
    {
      assert out.events[i] in out.events;
    }
  }

  /** Connections elsewhere know no less than before. */
  lemma ConnsTold(s: System, s': System)
    requires Known(s) && s.unanswered <= s'.unanswered && s'.servers.Keys == s.servers.Keys
    requires forall v | v in s'.servers ::
               s'.servers[v].conn == s.servers[v].conn || ConnTold(s'.unanswered, s'.servers[v].conn)
    requires forall i | 0 <= i < |s'.zombies| ::
               (i < |s.zombies| && s'.zombies[i] == s.zombies[i]) || ConnTold(s'.unanswered, s'.zombies[i])
    ensures forall v | v in s'.servers :: ConnTold(s'.unanswered, s'.servers[v].conn)
    ensures forall i | 0 <= i < |s'.zombies| :: ConnTold(s'.unanswered, s'.zombies[i])
  {
    forall v | v in s'.servers
      ensures ConnTold(s'.unanswered, s'.servers[v].conn)
    {
      assert ConnTold(s.unanswered, s.servers[v].conn);
    }
    forall i | 0 <= i < |s'.zombies|
      ensures ConnTold(s'.unanswered, s'.zombies[i])
    {
      if i < |s.zombies| && s'.zombies[i] == s.zombies[i] {
        assert ConnTold(s.unanswered, s.zombies[i]);
      }
    }
  }

  // ----- The other actions ---------------------------------------------------------------------

  lemma ArrivalTells(s: System, conn: Conn)
    requires Inv(s) && conn.inflight.Some? && ConnOk(s.db, s.defaultTtl, conn) && ConnTold(s.unanswered, conn)
    ensures AllTold(s, Arrival(s.db, conn).events) && ConnTold(s.unanswered, Arrival(s.db, conn).conn)
  {
    ExecuteSafe(s.db, s.defaultTtl, conn.(inflight := None), conn.inflight.value);
  }

  lemma ArrivedTells(s: System, action: Action)
    requires Inv(s) && Known(s) && Enabled(s, action) && (action.Arrive? || action.ArriveLate?)
    ensures Known(Apply(s, action))
  {
    var conn := if action.Arrive? then s.servers[action.server].conn else s.zombies[action.zombie];
    if action.Arrive? {
      assert ServerOk(s, s.servers[action.server]);
    }
    assert ConnTold(s.unanswered, conn);
    hide Inv, ConnOk, ServerOk, Execute, Evolves;
    ArrivalTells(s, conn);
    hide ConnTold, AllTold;
    var s' := Apply(s, action);
    ToldStays(s, s', Arrival(s.db, conn).events);
    ToldGrows(s, s', Arrival(s.db, conn).events);
    ConnsTold(s, s');
  }

  /** Actions that carry out no command and log no commit. */
  lemma QuietTells(s: System, s': System, events: seq<Event>)
    requires Known(s) && AnswersStay(s, s') && s'.log == s.log + events
    requires forall e | e in events :: !e.cause.Committed?
    requires s'.servers.Keys == s.servers.Keys
    requires forall v | v in s'.servers ::
               s'.servers[v].conn == s.servers[v].conn || ConnTold(s'.unanswered, s'.servers[v].conn)
    requires forall i | 0 <= i < |s'.zombies| ::
               (i < |s.zombies| && s'.zombies[i] == s.zombies[i]) || ConnTold(s'.unanswered, s'.zombies[i])
    ensures Known(s')
  {
    ToldGrows(s, s', events);
    ConnsTold(s, s');
  }

  lemma AbandonTells(s: System, server: nat, delayed: bool)
    requires Inv(s) && Known(s) && Holding(s, server)
    ensures Known(AbandonAttempt(s, server, delayed))
  {
    var Server(conn, attempt) := s.servers[server];
    var a := attempt.value;
    assert ServerOk(s, s.servers[server]) && HolderOk(s, server, a) && ConnTold(s.unanswered, conn);
    var s' := AbandonAttempt(s, server, delayed);
    assert ConnTold(s'.unanswered, Dangling(conn, a, delayed)) by {
      if a.pc.AtExec? {
        assert Owns(a, a.pc.ticket);
      }
    }
    assert s'.log == s.log + [];
    hide Inv, ConnTold, ServerOk;
    QuietTells(s, s', []);
  }

  lemma LoseTells(s: System, server: nat)
    requires Known(s) && server in s.servers
    ensures Known(LoseLink(s, server))
  {
    assert ConnTold(s.unanswered, s.servers[server].conn);
    assert LoseLink(s, server).log == s.log + [];
    QuietTells(s, LoseLink(s, server), []);
  }

  lemma ResetTells(s: System, call: nat, connected: bool)
    requires Known(s) && Enabled(s, Reset(call, connected))
    ensures Known(Apply(s, Reset(call, connected)))
  {
    var s' := Apply(s, Reset(call, connected));
    assert ConnTold(s.unanswered, s.servers[s.calls[call].server].conn);
    assert s'.log == s.log + [];
    QuietTells(s, s', []);
  }

  lemma CallTells(s: System, action: Action)
    requires Inv(s) && Known(s) && Enabled(s, action)
    requires action.StartCall? || action.Acquire? || action.Reload? || action.Forget? || action.Tick?
             || action.StartStore? || action.StartUpdate? || action.StartDelete? || action.DropPending?
    ensures Known(Apply(s, action))
  {
    hide Inv, ConnTold;
    var s' := Apply(s, action);
    assert s'.log == s.log + [];
    QuietTells(s, s', []);
  }

  lemma ModifyTells(s: System, db: Db, id: string, cause: Cause, pending: map<nat, Pending>)
    requires Known(s) && !cause.Committed?
    ensures Known(Modify(s, db, id, cause).(pending := pending))
  {
    hide Lookup;
    var e := Change(s.db, db, id, cause);
    QuietTells(s, Modify(s, db, id, cause).(pending := pending), [e]);
  }

  lemma FinishTells(s: System, request: nat)
    requires Known(s) && request in s.pending
    ensures Known(Apply(s, FinishPending(request)))
  {
    hide Known, Modify, Put, Remove, Tombstone;
    var pending := s.pending - {request};
    match s.pending[request]
    case PendingStore(id, record, ttl) => ModifyTells(s, Put(s.db, id, Record(record), ttl), id, Stored, pending);
    case PendingTombstone(id, record) =>
      ModifyTells(s, Put(s.db, id, Record(Tombstone(record, id)), s.defaultTtl), id, Tombstoned, pending);
    case PendingDelete(id) =>
      if id in s.db.entries {
        ModifyTells(s, Remove(s.db, id), id, Deleted, pending);
      } else {
        PlansTell(s, pending);
      }
  }

  lemma PlansTell(s: System, pending: map<nat, Pending>)
    requires Known(s)
    ensures Known(s.(pending := pending))
  {
    assert s.log == s.log + [];
    QuietTells(s, s.(pending := pending), []);
  }

  lemma ActionTells(s: System, action: Action)
    requires Inv(s) && Known(s)
    ensures Known(Apply(s, action))
  {
    hide Inv, Known, StepServer, AbandonAttempt, LoseLink;
    if Enabled(s, action) {
      match action
      case Step(server, fate) => StepTells(s, server, fate);
      case Arrive(_) => ArrivedTells(s, action);
      case ArriveLate(_) => ArrivedTells(s, action);
      case Abandon(server, delayed) => AbandonTells(s, server, delayed);
      case Lose(server) => LoseTells(s, server);
      case Reset(call, connected) => ResetTells(s, call, connected);
      case Expire(id) => ModifyTells(s, Remove(s.db, id), id, Expired, s.pending);
      case FinishPending(request) => FinishTells(s, request);
      case _ => CallTells(s, action);
    }
  }

  lemma {:induction false} RunTells(s: System, actions: seq<Action>)
    requires Inv(s) && Known(s)
    ensures Known(Run(s, actions))
    decreases |actions|
  {
    hide Inv, Known, Apply;
    if actions != [] {
      ActionTells(s, actions[0]);
      ActionKeeps(s, actions[0]);
      RunTells(Apply(s, actions[0]), actions[1..]);
    }
  }

  lemma ReachableTells(s: System)
    requires Reachable(s)
    ensures Known(s)
  {
    var s0, actions :| Initial(s0) && s == Run(s0, actions);
    InitialInv(s0);
    assert Known(s0);
    RunTells(s0, actions);
  }

  // ----- Theorems ------------------------------------------------------------------------------

  /**
   A commit of a call shows in what the call answers, unless one of its EXECs got no answer: the answer is then the
   very record that was written.
   */
  lemma CommitIsAnswered(s: System, i: nat)
    requires Reachable(s) && i < |s.log| && s.log[i].cause.Committed?
    ensures var t := s.log[i].cause.writer;
            t.call in s.unanswered
            || (t.call in s.calls && s.calls[t.call].phase == Finished(Ok(Answer(t.written, t.payload))))
  {
    ReachableTells(s);
    assert Told(s, s.log[i].cause.writer);
  }

  /** An error, or any other end without an answer, means no effect when every EXEC of the call was answered. */
  lemma ErrorMeansNoEffect(s: System, call: nat)
    requires Reachable(s) && call in s.calls && call !in s.unanswered
    requires !(s.calls[call].phase.Finished? && s.calls[call].phase.result.Ok?)
    ensures forall i | 0 <= i < |s.log| && s.log[i].cause.Committed? :: s.log[i].cause.writer.call != call
  {
    forall i | 0 <= i < |s.log| && s.log[i].cause.Committed?
      ensures s.log[i].cause.writer.call != call
    {
      CommitIsAnswered(s, i);
    }
  }
}
