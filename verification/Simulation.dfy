/**
 The system as one of its calls sees it: every action amounts to turns of that call, so that what holds of the turns of
 a call holds of every call in every schedule.
 */
module Simulation {
  import opened Wrappers
  import opened Transitions
  import opened Redis
  import opened Protocol
  import opened Invariant
  import opened Safety
  import opened CallTrace

  // ----- Every action changes at most one key --------------------------------------------------

  function Applied(db: Db, change: Option<KeyChange>): Db {
    match change
    case None => db
    case Some(c) => Altered(db, c)
  }

  function WriteOf(t: Ticket): KeyChange {
    Overwrite(t.id, Record(t.written), t.ttl)
  }

  lemma ExecuteChanges(db: Db, defaultTtl: nat, conn: Conn, command: Command)
    requires DbOk(db) && ConnOk(db, defaultTtl, conn) && Safe(db, defaultTtl, conn, command)
    ensures var out := Execute(db, conn, command);
            out.db == db || (command.Exec? && out.db == Altered(db, WriteOf(command.issuer)))
  {
    hide Prepare, Put;
    if command.Exec? {
      ExecCommits(db, defaultTtl, conn, command.issuer);
    }
  }

  lemma IssueChanges(db: Db, defaultTtl: nat, conn: Conn, a: Attempt, fate: Fate)
    requires DbOk(db) && ConnOk(db, defaultTtl, conn) && AttemptOk(db, defaultTtl, conn, a) && CanIssue(conn, fate)
    ensures var out := Issue(db, conn, CommandOf(a), fate);
            out.db == db || (a.pc.AtExec? && out.db == Altered(db, WriteOf(a.pc.ticket)))
  {
    if !conn.lost {
      AttemptIsSafe(db, defaultTtl, conn, a);
      ExecuteChanges(db, defaultTtl, conn, CommandOf(a));
    }
  }

  function PlannedChange(s: System, pending: Pending): KeyChange {
    match pending
    case PendingStore(id, record, ttl) => Overwrite(id, Record(record), ttl)
    case PendingTombstone(id, record) => Overwrite(id, Record(Tombstone(record, id)), s.defaultTtl)
    case PendingDelete(id) => Drop(id)
  }

  /** What a command that is carried out writes, if it writes anything. */
  function CommandChange(db: Db, db': Db, command: Command): Option<KeyChange> {
    match command
    case Exec(t) => if db' == db then None else Some(WriteOf(t))
    case _ => None
  }

  /** What an action does to the keys and the clock. */
  function ChangeOf(s: System, action: Action): Option<KeyChange> {
    if !Enabled(s, action) then None
    else
      match action
      case Tick(ms) => Some(Pass(ms))
      case Expire(id) => Some(Drop(id))
      case FinishPending(request) => Some(PlannedChange(s, s.pending[request]))
      case Step(server, fate) =>
        CommandChange(s.db, Apply(s, action).db, CommandOf(s.servers[server].attempt.value))
      case Arrive(server) => CommandChange(s.db, Apply(s, action).db, s.servers[server].conn.inflight.value)
      case ArriveLate(zombie) => CommandChange(s.db, Apply(s, action).db, s.zombies[zombie].inflight.value)
      case _ => None
  }

  lemma CommandChanges(s: System, action: Action)
    requires Inv(s) && Enabled(s, action) && (action.Step? || action.Arrive? || action.ArriveLate?)
    ensures Apply(s, action).db == Applied(s.db, ChangeOf(s, action))
  {
    hide LogMatches, AnswersOk, TicketsFromCalls, LogTimed, CallsOk, ConnOk, AttemptOk, Issue, Execute, React, Altered;
    match action
    case Step(server, fate) =>
      assert ServerOk(s, s.servers[server]);
      IssueChanges(s.db, s.defaultTtl, s.servers[server].conn, s.servers[server].attempt.value, fate);
    case Arrive(server) =>
      assert ServerOk(s, s.servers[server]);
      ArrivalChanges(s, s.servers[server].conn);
    case ArriveLate(zombie) =>
      ArrivalChanges(s, s.zombies[zombie]);
  }

  lemma ArrivalChanges(s: System, conn: Conn)
    requires DbOk(s.db) && ConnOk(s.db, s.defaultTtl, conn) && conn.inflight.Some?
    ensures var db' := Arrival(s.db, conn).db; db' == Applied(s.db, CommandChange(s.db, db', conn.inflight.value))
  {
    ExecuteChanges(s.db, s.defaultTtl, conn.(inflight := None), conn.inflight.value);
  }

  /** What an action does to the keys, stamps and clock included, is one of the moves a call has to expect, or nothing. */
  lemma ActionIsChange(s: System, action: Action)
    requires Inv(s)
    ensures Apply(s, action).db == Applied(s.db, ChangeOf(s, action))
  {
    hide Inv, StepServer, Put, Remove, Tombstone, Execute, CommandChange;
    if Enabled(s, action) {
      match action
      case FinishPending(request) => NoKeyToDelete(s.db, s.pending[request].id);
      case Step(_, _) => CommandChanges(s, action);
      case Arrive(_) => CommandChanges(s, action);
      case ArriveLate(_) => CommandChanges(s, action);
      case _ =>
    }
  }

  lemma NoKeyToDelete(db: Db, id: string)
    ensures id !in db.entries ==> Remove(db, id) == db
  {
  }

  // ----- Every action is turns of a call -------------------------------------------------------

  ghost predicate Watched(s: System, call: nat) {
    call in s.calls && s.calls[call].server in s.servers && !s.calls[call].phase.Dropped?
  }

  function View(s: System, call: nat): World
    requires call in s.calls && s.calls[call].server in s.servers
  {
    World(s.db, s.servers[s.calls[call].server].conn)
  }

  function JobOf(s: System, call: nat): Job
    requires call in s.calls
  {
    Job(call, s.calls[call].id, s.calls[call].op, s.defaultTtl)
  }

  /** Where a call is; holding the lock without having sent anything is being between attempts. */
  function ControlOf(s: System, call: nat): Control
    requires call in s.calls && s.calls[call].server in s.servers
  {
    var server := s.servers[s.calls[call].server];
    if HoldsLock(s, call) && !server.attempt.value.pc.AtDiscard? then
      Inside(server.attempt.value.number, server.attempt.value.pc)
    else Outside(s.calls[call].phase)
  }

  /** The turns lead the call from what it sees of one system to what it sees of the other. */
  ghost predicate Leads(s: System, s': System, call: nat, turns: seq<Turn>)
    requires Watched(s, call) && Watched(s', call)
  {
    && JobOf(s', call) == JobOf(s, call)
    && Replay(View(s, call), turns) == View(s', call)
    && AllDecent(JobOf(s, call), View(s, call), turns)
    && Trace(JobOf(s, call), ControlOf(s, call), View(s, call), turns) == ControlOf(s', call)
  }

  lemma OneTurn(job: Job, c: Control, w: World, turn: Turn)
    requires Decent(job, w, turn)
    ensures Replay(w, [turn]) == After(w, turn)
    ensures Trace(job, c, w, [turn]) == Follow(job, c, w, turn)
    ensures AllDecent(job, w, [turn])
  {
    hide After, Follow, Decent;
    assert [] + [turn] == [turn];
    NoTurn(job, c, w);
    Appended(job, c, w, [], turn);
  }

  lemma NoTurn(job: Job, c: Control, w: World)
    ensures Replay(w, []) == w && Trace(job, c, w, []) == c && AllDecent(job, w, [])
  {
  }

  // ----- The turns an action amounts to --------------------------------------------------------

  /** The call's own turn in an action, or what happens to its connection while it waits. */
  function OwnTurn(s: System, action: Action, call: nat): Option<Turn>
    requires Enabled(s, action) && call in s.calls
  {
    match action
    case Step(server, fate) =>
      var a := s.servers[server].attempt.value;
      if a.call == call then Some(Send(CommandOf(a), fate)) else None
    case Arrive(server) => if server == s.calls[call].server then Some(LateArrival) else None
    case Lose(server) => if server == s.calls[call].server then Some(LinkLost) else None
    case Reset(c, connected) => if c == call then Some(Replace(connected)) else None
    case Reload(c, loadFails) => if c == call then Some(LoadAgain(loadFails)) else None
    case _ => None
  }

  /** The turns of others: perhaps a change of a key, and perhaps something with the connection while the lock is free. */
  ghost function OtherTurns(s: System, s': System, call: nat, change: Option<KeyChange>): seq<Turn>
    requires Watched(s, call) && Watched(s', call)
  {
    (match change case None => [] case Some(c) => [Elsewhere(c)])
    + (if View(s', call).conn == View(s, call).conn then [] else [LeftBehind(View(s', call).conn)])
  }

  /** The turns that an action of anybody amounts to for a call that is waited for before and after. */
  ghost function TurnsOf(s: System, action: Action, call: nat): seq<Turn>
    requires Watched(s, call) && Watched(Apply(s, action), call)
  {
    if !Enabled(s, action) then []
    else
      match OwnTurn(s, action, call)
      case Some(turn) => [turn]
      case None => OtherTurns(s, Apply(s, action), call, ChangeOf(s, action))
  }

  lemma OthersLead(s: System, s': System, call: nat, change: Option<KeyChange>)
    requires Watched(s, call) && Watched(s', call) && JobOf(s', call) == JobOf(s, call)
    requires s'.db == Applied(s.db, change) && ControlOf(s', call) == ControlOf(s, call)
    requires var conn' := View(s', call).conn;
             conn' == View(s, call).conn || (ControlOf(s, call).Outside? && ConnOk(s'.db, s'.defaultTtl, conn'))
    ensures Leads(s, s', call, OtherTurns(s, s', call, change))
  {
    hide ControlOf, ConnOk, Altered;
    var job, c, w := JobOf(s, call), ControlOf(s, call), View(s, call);
    NoTurn(job, c, w);
    var turns, w' := [], w;
    if change.Some? {
      OneTurn(job, c, w, Elsewhere(change.value));
      turns := [Elsewhere(change.value)];
      w' := After(w, Elsewhere(change.value));
    }
    assert Replay(w, turns) == w' && Trace(job, c, w, turns) == c && AllDecent(job, w, turns) && w'.db == s'.db;
    if View(s', call).conn != w.conn {
      hide Replay, Trace, AllDecent;
      Appended(job, c, w, turns, LeftBehind(View(s', call).conn));
    } else {
      assert turns + [] == turns;
    }
  }

  /** A command of the call itself. */
  lemma OwnStepLeads(s: System, server: nat, fate: Fate, call: nat)
    requires Inv(s) && Enabled(s, Step(server, fate)) && Watched(s, call)
    requires s.calls[call].server == server && s.servers[server].attempt.value.call == call
    ensures Watched(StepServer(s, server, fate), call)
    ensures Leads(s, StepServer(s, server, fate), call, [Send(CommandOf(s.servers[server].attempt.value), fate)])
  {
    var Server(conn, attempt) := s.servers[server];
    var a := attempt.value;
    assert HolderOk(s, server, a);
    var turn := Send(CommandOf(a), fate);
    OneTurn(JobOf(s, call), ControlOf(s, call), View(s, call), turn);
    hide Inv, Replay, Trace, AllDecent, Issue, CommandOf;
    StepView(s, server, fate);
  }

  lemma StepView(s: System, server: nat, fate: Fate)
    requires Enabled(s, Step(server, fate))
    requires var a := s.servers[server].attempt.value;
             a.call in s.calls && s.calls[a.call] == Call(server, a.id, a.op, Trying(a.number))
    ensures var a := s.servers[server].attempt.value;
            var out := Issue(s.db, s.servers[server].conn, CommandOf(a), fate);
            var s' := StepServer(s, server, fate);
            && Watched(s', a.call) && JobOf(s', a.call) == JobOf(s, a.call)
            && View(s', a.call) == World(out.db, out.conn)
            && ControlOf(s', a.call) == Heard(a, out.reply, s.db.now, s.defaultTtl)
  {
    hide Issue, CommandOf, Protocol.Settle;
    NeverBackToDiscard(s.servers[server].attempt.value,
                       Issue(s.db, s.servers[server].conn, CommandOf(s.servers[server].attempt.value), fate).reply,
                       s.db.now, s.defaultTtl);
    SettlesAlive(s.servers[server].attempt.value);
  }

  lemma NeverBackToDiscard(a: Attempt, reply: Redis.Reply, now: nat, defaultTtl: nat)
    ensures var verdict := React(a, reply, now, defaultTtl); verdict.Continue? ==> !verdict.pc.AtDiscard?
  {
  }

  lemma SettlesAlive(a: Attempt)
    ensures forall result :: !Settle(a.op, a.number, result).Dropped?
  {
  }

  /** What an action of others leaves alone, as the call sees it. */
  ghost predicate Alien(s: System, s': System, call: nat)
    requires Watched(s, call)
  {
    && Watched(s', call) && JobOf(s', call) == JobOf(s, call) && ControlOf(s', call) == ControlOf(s, call)
    && (View(s', call).conn == View(s, call).conn || ControlOf(s, call).Outside?)
  }

  lemma StepIsAlien(s: System, server: nat, fate: Fate, call: nat)
    requires Enabled(s, Step(server, fate)) && Watched(s, call) && s.servers[server].attempt.value.call != call
    ensures Alien(s, StepServer(s, server, fate), call)
  {
    hide Issue, React, Protocol.Settle;
  }

  lemma AbandonIsAlien(s: System, server: nat, delayed: bool, call: nat)
    requires Holding(s, server) && Watched(s, call) && s.servers[server].attempt.value.call != call
    ensures Alien(s, AbandonAttempt(s, server, delayed), call)
  {
    hide Dangling;
  }

  lemma ConnectionIsAlien(s: System, action: Action, call: nat)
    requires Enabled(s, action) && Watched(s, call)
    requires || (action.Arrive? && action.server != s.calls[call].server)
             || (action.Lose? && action.server != s.calls[call].server)
             || action.ArriveLate?
             || action.Acquire?
             || (action.Reset? && action.call != call)
    ensures Alien(s, Apply(s, action), call)
  {
    hide Execute;
  }

  lemma OtherIsAlien(s: System, action: Action, call: nat)
    requires Enabled(s, action) && Watched(s, call)
    requires !action.Step? && !action.Abandon? && !action.Arrive? && !action.Lose? && !action.ArriveLate?
             && !action.Acquire? && !action.Reset?
    requires action.Reload? || action.Forget? ==> action.call != call
    ensures Alien(s, Apply(s, action), call)
  {
    hide Put, Remove, Tombstone, Reloaded, DeletePlan, Lookup;
  }

  lemma ViewOk(s: System, call: nat)
    requires Inv(s) && Watched(s, call)
    ensures ConnOk(s.db, s.defaultTtl, View(s, call).conn)
  {
    assert ServerOk(s, s.servers[s.calls[call].server]);
  }

  /** An action that is not the call's own. */
  lemma AlienLeads(s: System, action: Action, call: nat)
    requires Inv(s) && Enabled(s, action) && Watched(s, call) && Alien(s, Apply(s, action), call)
    requires OwnTurn(s, action, call).None?
    ensures Leads(s, Apply(s, action), call, TurnsOf(s, action, call))
  {
    hide Inv, Apply, Enabled, OwnTurn, ChangeOf;
    var s' := Apply(s, action);
    ActionKeeps(s, action);
    ViewOk(s', call);
    hide ConnOk;
    ActionIsChange(s, action);
    hide ControlOf, Replay, Trace, AllDecent, OtherTurns;
    OthersLead(s, s', call, ChangeOf(s, action));
  }

  /** What happens to the call's own connection while it waits, and what it does between its attempts. */
  lemma OwnTurnLeads(s: System, action: Action, call: nat)
    requires Enabled(s, action) && Watched(s, call) && OwnTurn(s, action, call).Some?
    requires action.Arrive? || action.Lose? || action.Reset? || (action.Reload? && !HoldsLock(s, call))
    ensures Watched(Apply(s, action), call) && Leads(s, Apply(s, action), call, TurnsOf(s, action, call))
  {
    OneTurn(JobOf(s, call), ControlOf(s, call), View(s, call), OwnTurn(s, action, call).value);
    hide Replay, Trace, AllDecent, Execute, Lookup, OtherTurns, ChangeOf;
  }

  /**
   Every action, of whoever it is, amounts to turns of any call that is still waited for: it leads the call from what
   it sees before to what it sees after, keeping to its program.
   */
  lemma ActionIsTurns(s: System, action: Action, call: nat)
    requires Inv(s) && Watched(s, call) && Watched(Apply(s, action), call)
    ensures Leads(s, Apply(s, action), call, TurnsOf(s, action, call))
  {
    hide Inv, Leads, Alien, Apply, ChangeOf, OtherTurns;
    if !Enabled(s, action) {
      NothingLeads(s, action, call);
    } else {
      match action
      case Step(v, fate) => StepLeads(s, v, fate, call);
      case Abandon(v, delayed) =>
        AbandonIs(s, v, delayed, call);
        AbandonIsAlien(s, v, delayed, call);
        AlienLeads(s, action, call);
      case Arrive(_) => ConnectionLeads(s, action, call);
      case Lose(_) => ConnectionLeads(s, action, call);
      case Reset(_, _) => ConnectionLeads(s, action, call);
      case ArriveLate(_) => ConnectionLeads(s, action, call);
      case Acquire(_) => ConnectionLeads(s, action, call);
      case Reload(c, _) =>
        if c == call {
          ReloadUnlocked(s, call);
          OwnTurnLeads(s, action, call);
        } else {
          OtherIsAlien(s, action, call);
          AlienLeads(s, action, call);
        }
      case Forget(c) =>
        ForgetIs(s, c, call);
        OtherIsAlien(s, action, call);
        AlienLeads(s, action, call);
      case _ =>
        OtherIsAlien(s, action, call);
        AlienLeads(s, action, call);
    }
  }

  lemma StepLeads(s: System, server: nat, fate: Fate, call: nat)
    requires Inv(s) && Enabled(s, Step(server, fate)) && Watched(s, call) && Watched(Apply(s, Step(server, fate)), call)
    ensures Leads(s, Apply(s, Step(server, fate)), call, TurnsOf(s, Step(server, fate), call))
  {
    hide Inv, Leads, Alien, Apply, ChangeOf, OtherTurns;
    StepIs(s, server, fate);
    if s.servers[server].attempt.value.call == call {
      HolderHome(s, server);
      OwnStepLeads(s, server, fate, call);
    } else {
      StepIsAlien(s, server, fate, call);
      AlienLeads(s, Step(server, fate), call);
    }
  }

  lemma ConnectionLeads(s: System, action: Action, call: nat)
    requires Inv(s) && Enabled(s, action) && Watched(s, call)
    requires action.Arrive? || action.Lose? || action.ArriveLate? || action.Acquire? || action.Reset?
    ensures Watched(Apply(s, action), call) && Leads(s, Apply(s, action), call, TurnsOf(s, action, call))
  {
    hide Inv, Leads, Apply, Enabled, TurnsOf;
    if OwnTurn(s, action, call).Some? {
      OwnTurnLeads(s, action, call);
    } else {
      ConnectionIsAlien(s, action, call);
      AlienLeads(s, action, call);
    }
  }

  lemma NothingLeads(s: System, action: Action, call: nat)
    requires !Enabled(s, action) && Watched(s, call)
    ensures Watched(Apply(s, action), call) && Leads(s, Apply(s, action), call, [])
  {
    assert Apply(s, action) == s;
    NoTurn(JobOf(s, call), ControlOf(s, call), View(s, call));
    hide Replay, Trace, AllDecent;
  }

  lemma StepIs(s: System, server: nat, fate: Fate)
    requires Enabled(s, Step(server, fate))
    ensures Apply(s, Step(server, fate)) == StepServer(s, server, fate)
  {
  }

  lemma HolderHome(s: System, server: nat)
    requires Inv(s) && Holding(s, server)
    ensures var a := s.servers[server].attempt.value; a.call in s.calls && s.calls[a.call].server == server
  {
    assert HolderOk(s, server, s.servers[server].attempt.value);
  }

  /** An abandoned call is no longer waited for. */
  lemma AbandonIs(s: System, server: nat, delayed: bool, call: nat)
    requires Enabled(s, Abandon(server, delayed)) && Watched(s, call)
    ensures Apply(s, Abandon(server, delayed)) == AbandonAttempt(s, server, delayed)
    ensures s.servers[server].attempt.value.call == call ==> !Watched(Apply(s, Abandon(server, delayed)), call)
  {
    hide Dangling;
  }

  lemma ForgetIs(s: System, c: nat, call: nat)
    requires Enabled(s, Forget(c)) && Watched(s, call)
    ensures c == call ==> !Watched(Apply(s, Forget(c)), call)
  {
  }

  lemma ReloadUnlocked(s: System, call: nat)
    requires Inv(s) && call in s.calls && s.calls[call].phase.Reloading?
    ensures !HoldsLock(s, call)
  {
    if HoldsLock(s, call) {
      HolderIsTrying(s, call);
      assert false;
    }
  }

  // ----- Whole runs ----------------------------------------------------------------------------

  ghost predicate WatchedThroughout(s: System, actions: seq<Action>, call: nat)
    decreases |actions|
  {
    && Watched(s, call)
    && (actions != [] ==>
          && Watched(Apply(s, actions[0]), call)
          && WatchedThroughout(Apply(s, actions[0]), actions[1..], call))
  }

  lemma {:induction false} Concatenated(job: Job, c: Control, w: World, first: seq<Turn>, second: seq<Turn>)
    ensures Replay(w, first + second) == Replay(Replay(w, first), second)
    ensures Trace(job, c, w, first + second) == Trace(job, Trace(job, c, w, first), Replay(w, first), second)
    ensures AllDecent(job, w, first) && AllDecent(job, Replay(w, first), second) ==> AllDecent(job, w, first + second)
    decreases |second|
  {
    hide After, Follow, Decent;
    if second == [] {
      assert first + second == first;
    } else {
      var front, last := second[..|second| - 1], second[|second| - 1];
      assert first + second == first + front + [last];
      assert second == front + [last];
      Concatenated(job, c, w, first, front);
      Appended(job, c, w, first + front, last);
      Appended(job, Trace(job, c, w, first), Replay(w, first), front, last);
      if AllDecent(job, Replay(w, first), second) {
        DecentFront(job, Replay(w, first), second);
      }
    }
  }

  /** The turns of a call that a schedule amounts to, action by action. */
  ghost function RunTurns(s: System, actions: seq<Action>, call: nat): seq<Turn>
    requires WatchedThroughout(s, actions, call)
    decreases |actions|
  {
    if actions == [] then [] else TurnsOf(s, actions[0], call) + RunTurns(Apply(s, actions[0]), actions[1..], call)
  }

  /** A call in a schedule is a call of its server's loop: the schedule fixes the turns that lead it where it got to. */
  lemma {:induction false} RunIsTurns(s: System, actions: seq<Action>, call: nat)
    requires Inv(s) && WatchedThroughout(s, actions, call)
    ensures Watched(s, call) && Watched(Run(s, actions), call)
    ensures Leads(s, Run(s, actions), call, RunTurns(s, actions, call))
    decreases |actions|
  {
    hide Inv, Apply, ControlOf, Replay, Trace, AllDecent, TurnsOf;
    if actions == [] {
      NoTurn(JobOf(s, call), ControlOf(s, call), View(s, call));
    } else {
      var s' := Apply(s, actions[0]);
      ActionKeeps(s, actions[0]);
      assert Watched(s', call);
      ActionIsTurns(s, actions[0], call);
      RunIsTurns(s', actions[1..], call);
      Concatenated(JobOf(s, call), ControlOf(s, call), View(s, call),
                   TurnsOf(s, actions[0], call), RunTurns(s', actions[1..], call));
    }
  }

  // ----- Every finished call -------------------------------------------------------------------

  /** A call of a known server that is no longer waited for never is again, and servers stay. */
  lemma LostForGood(s: System, action: Action, call: nat)
    requires Inv(s) && call in s.calls && !Watched(s, call)
    ensures call in Apply(s, action).calls && !Watched(Apply(s, action), call)
  {
    hide Inv, StepServer, AbandonAttempt, LoseLink, Arrived, ArrivedLate, Protocol.Reconnected, TakeLock, Put, Remove,
         Tombstone, Execute, DeletePlan, Reloaded, Change;
    if Enabled(s, action) {
      match action
      case Step(server, fate) =>
        var a := s.servers[server].attempt.value;
        HolderHome(s, server);
        HolderAlive(s, server);
        StepSpares(s, server, fate, call);
      case Abandon(server, delayed) => AbandonSpares(s, server, delayed, call);
      case Lose(_) => ConnectionSpares(s, action, call);
      case Arrive(_) => ConnectionSpares(s, action, call);
      case ArriveLate(_) => ConnectionSpares(s, action, call);
      case Reset(_, _) => ConnectionSpares(s, action, call);
      case Acquire(_) => ConnectionSpares(s, action, call);
      case _ =>
    }
  }

  lemma ConnectionSpares(s: System, action: Action, call: nat)
    requires Enabled(s, action) && call in s.calls && !Watched(s, call)
    requires action.Lose? || action.Arrive? || action.ArriveLate? || action.Reset? || action.Acquire?
    ensures call in Apply(s, action).calls && !Watched(Apply(s, action), call)
  {
    hide Execute;
  }

  lemma HolderAlive(s: System, server: nat)
    requires Inv(s) && Holding(s, server)
    ensures var a := s.servers[server].attempt.value;
            a.call in s.calls && s.calls[a.call].server == server && s.calls[a.call].phase.Trying?
  {
    assert HolderOk(s, server, s.servers[server].attempt.value);
  }

  lemma StepSpares(s: System, server: nat, fate: Fate, call: nat)
    requires Enabled(s, Step(server, fate)) && call in s.calls && s.servers[server].attempt.value.call != call
    ensures var s' := StepServer(s, server, fate);
            s'.servers.Keys == s.servers.Keys && call in s'.calls && s'.calls[call] == s.calls[call]
  {
    hide Issue, React, Protocol.Settle;
  }

  lemma AbandonSpares(s: System, server: nat, delayed: bool, call: nat)
    requires Holding(s, server) && call in s.calls
    ensures var s' := AbandonAttempt(s, server, delayed);
            && s'.servers.Keys == s.servers.Keys
            && call in s'.calls && s'.calls[call].server == s.calls[call].server
            && (s.calls[call].phase.Dropped? ==> s'.calls[call].phase.Dropped?)
  {
    hide Dangling;
  }

  /** A call still waited for at the end of a schedule was waited for throughout. */
  lemma {:induction false} WatchedToTheEnd(s: System, actions: seq<Action>, call: nat)
    requires Inv(s) && call in s.calls && call in Run(s, actions).calls && Watched(Run(s, actions), call)
    ensures WatchedThroughout(s, actions, call)
    decreases |actions|
  {
    hide Inv, Apply, Watched;
    if actions == [] {
    } else {
      if !Watched(s, call) {
        LostThroughout(s, actions, call);
        assert false;
      }
      ServersStay(s, actions[0], call);
      ActionKeeps(s, actions[0]);
      WatchedToTheEnd(Apply(s, actions[0]), actions[1..], call);
    }
  }

  lemma {:induction false} LostThroughout(s: System, actions: seq<Action>, call: nat)
    requires Inv(s) && call in s.calls && !Watched(s, call)
    ensures !Watched(Run(s, actions), call)
    decreases |actions|
  {
    hide Inv, Apply, Watched;
    if actions != [] {
      LostForGood(s, actions[0], call);
      ActionKeeps(s, actions[0]);
      LostThroughout(Apply(s, actions[0]), actions[1..], call);
    }
  }

  /** Servers stay, and so does the server of a call. */
  ghost predicate Stays(s: System, s': System, call: nat)
    requires call in s.calls
  {
    s'.servers.Keys == s.servers.Keys && call in s'.calls && s'.calls[call].server == s.calls[call].server
  }

  lemma StepStays(s: System, server: nat, fate: Fate, call: nat)
    requires Enabled(s, Step(server, fate)) && call in s.calls
    ensures Stays(s, StepServer(s, server, fate), call)
  {
    hide Issue, React, Protocol.Settle;
  }

  lemma ConnectionStays(s: System, action: Action, call: nat)
    requires Enabled(s, action) && call in s.calls
    requires action.Lose? || action.Arrive? || action.ArriveLate? || action.Reset? || action.Acquire?
    ensures Stays(s, Apply(s, action), call)
  {
    hide Execute;
  }

  lemma ServersStay(s: System, action: Action, call: nat)
    requires call in s.calls
    ensures Stays(s, Apply(s, action), call)
  {
    hide StepServer, AbandonAttempt, LoseLink, Arrived, ArrivedLate, Protocol.Reconnected, TakeLock, DeletePlan, Reloaded,
         Put, Remove, Change, Tombstone;
    if Enabled(s, action) {
      match action
      case Step(server, fate) => StepStays(s, server, fate, call);
      case Abandon(server, delayed) => AbandonSpares(s, server, delayed, call);
      case Lose(_) => ConnectionStays(s, action, call);
      case Arrive(_) => ConnectionStays(s, action, call);
      case ArriveLate(_) => ConnectionStays(s, action, call);
      case Reset(_, _) => ConnectionStays(s, action, call);
      case Acquire(_) => ConnectionStays(s, action, call);
      case _ =>
    }
  }

  lemma {:induction false} ServersStayThroughout(s: System, actions: seq<Action>, call: nat)
    requires call in s.calls
    ensures Stays(s, Run(s, actions), call)
    decreases |actions|
  {
    hide Apply;
    if actions != [] {
      ServersStay(s, actions[0], call);
      ServersStayThroughout(Apply(s, actions[0]), actions[1..], call);
    }
  }

  /** A call enters the system only by being started. */
  lemma StartedByAction(s: System, action: Action, call: nat)
    requires call !in s.calls && call in Apply(s, action).calls
    ensures action.StartCall? && Enabled(s, action) && action.call == call
  {
    hide Issue, React, Protocol.Settle, Execute, Put, Remove, DeletePlan, Reloaded, Dangling, Change, Tombstone;
  }

  /** Where in a schedule a call was started. */
  lemma {:induction false} CallBegan(s: System, actions: seq<Action>, call: nat) returns (n: nat)
    requires Inv(s) && call !in s.calls && call in Run(s, actions).calls
    ensures n < |actions| && Inv(Run(s, actions[..n])) && Enabled(Run(s, actions[..n]), actions[n])
    ensures actions[n].StartCall? && actions[n].call == call
    ensures Run(s, actions) == Run(Apply(Run(s, actions[..n]), actions[n]), actions[n + 1..])
    decreases |actions|
  {
    hide Inv, Apply, Enabled;
    if call in Apply(s, actions[0]).calls {
      StartedByAction(s, actions[0], call);
      assert actions[..0] == [];
      return 0;
    }
    ActionKeeps(s, actions[0]);
    var m := CallBegan(Apply(s, actions[0]), actions[1..], call);
    n := m + 1;
    assert actions[..n][1..] == actions[1..][..m] && actions[1..][m + 1..] == actions[n + 1..];
    assert Run(s, actions[..n]) == Run(Apply(s, actions[0]), actions[1..][..m]);
  }

  lemma StartIsStart(s: System, start: Action)
    requires Inv(s) && Enabled(s, start) && start.StartCall?
    ensures var s' := Apply(s, start);
            && Watched(s', start.call) && ControlOf(s', start.call) == START
            && JobOf(s', start.call) == Job(start.call, start.id, start.op, s.defaultTtl)
            && WorldOk(JobOf(s', start.call), View(s', start.call))
  {
    var s' := Apply(s, start);
    assert !HoldsLock(s', start.call) by {
      if HoldsLock(s', start.call) {
        HolderHome(s, start.server);
      }
    }
    assert ServerOk(s, s.servers[start.server]);
  }

  /**
   Every finished call of every schedule: the actions since the one that started it amount to turns that keep to its
   program, with at most sixteen attempts, and what it answers stands for something that happened in those turns.
   */
  lemma FinishedCallIsBacked(s0: System, actions: seq<Action>, call: nat) returns (n: nat)
    requires Initial(s0) && call in Run(s0, actions).calls && Run(s0, actions).calls[call].phase.Finished?
    ensures n < |actions| && Enabled(Run(s0, actions[..n]), actions[n])
    ensures actions[n].StartCall? && actions[n].call == call
    ensures var s', since := Apply(Run(s0, actions[..n]), actions[n]), actions[n + 1..];
            && Run(s', since) == Run(s0, actions)
            && WatchedThroughout(s', since, call) && Watched(s', call) && Watched(Run(s0, actions), call)
            && var turns := RunTurns(s', since, call);
               && Leads(s', Run(s0, actions), call, turns)
               && Attempts(turns) <= 16
               && ResultBacked(JobOf(s', call), View(s', call), turns, Run(s0, actions).calls[call].phase.result)
  {
    hide Apply, Run, Inv, Enabled;
    InitialInv(s0);
    n := CallBegan(s0, actions, call);
    var begin, since := Run(s0, actions[..n]), actions[n + 1..];
    var s', s := Apply(begin, actions[n]), Run(s0, actions);
    StartIsStart(begin, actions[n]);
    ActionKeeps(begin, actions[n]);
    ServersStayThroughout(s', since, call);
    WatchedToTheEnd(s', since, call);
    RunIsTurns(s', since, call);
    FinishedControl(s', since, call);
    hide ControlOf, WorldOk, Replay, Trace, AllDecent, ResultBacked, RunTurns, WatchedThroughout;
    FinishedBacked(JobOf(s', call), View(s', call), RunTurns(s', since, call), s.calls[call].phase.result);
  }

  /** A finished call holds no lock. */
  lemma FinishedControl(s: System, actions: seq<Action>, call: nat)
    requires Inv(s) && call in Run(s, actions).calls && Run(s, actions).calls[call].server in Run(s, actions).servers
    requires Run(s, actions).calls[call].phase.Finished?
    ensures ControlOf(Run(s, actions), call) == Outside(Run(s, actions).calls[call].phase)
  {
    hide Run;
    RunKeeps(s, actions);
    var s' := Run(s, actions);
    if HoldsLock(s', call) {
      HolderIsTrying(s', call);
      assert false;
    }
  }
}
