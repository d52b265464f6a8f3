/**
 Several servers running transitions against one Redis, at the granularity of single commands.

 A system is driven by a sequence of actions. An action that is not enabled changes nothing, so every sequence
 of actions is a schedule, and a statement about all sequences is a statement about all interleavings.
 */
module Protocol {
  import opened Wrappers
  import opened Model
  import opened Transitions
  import opened Redis

  const MAX_ATTEMPTS: nat := 16

  datatype AttemptResult =
    | Success(record: StoredResponse, payload: Option<ClaimPayload>)
    | Unchanged(record: StoredResponse)
    | Conflict
    | Failure(error: StoreError)

  /** The command an attempt will issue next, with what it knows by then. */
  datatype Pc =
    | AtDiscard
    | AtWatch
    | AtGet
    | AtTtl(read: StoredResponse, written: StoredResponse, payload: Option<ClaimPayload>)
    | AtMulti(ticket: Ticket)
    | AtSetEx(ticket: Ticket)
    | AtExec(ticket: Ticket)
    | AtUnwatch(result: AttemptResult)

  datatype Attempt = Attempt(call: nat, number: nat, id: string, op: Op, pc: Pc)

  /** A server process: its one transaction connection, and the attempt that holds its lock. */
  datatype Server = Server(conn: Conn, attempt: Option<Attempt>)

  datatype Answer = Answer(record: StoredResponse, payload: Option<ClaimPayload>)

  datatype Phase =
    | Trying(number: nat)     // between attempts, or in one
    | Broken(number: nat)     // a storage error; the connection has to be replaced
    | Reloading               // a reconcile that ran out of attempts
    | Finished(result: Result<Answer, StoreError>)
    | Dropped                 // the caller went away

  datatype Call = Call(server: nat, id: string, op: Op, phase: Phase)

  /** A single blind write that a store, update, enqueue or delete request is about to issue. */
  datatype Pending =
    | PendingStore(id: string, record: StoredResponse, ttl: nat)
    | PendingTombstone(id: string, record: StoredResponse)
    | PendingDelete(id: string)

  /**
   `log` records every modification of a key, and `unanswered` the calls one of whose EXECs got no answer: it failed,
   or its attempt was abandoned while waiting for it.
   */
  datatype System = System(
    defaultTtl: nat,
    origin: map<string, Entry>,
    db: Db,
    servers: map<nat, Server>,
    zombies: seq<Conn>,
    calls: map<nat, Call>,
    pending: map<nat, Pending>,
    log: seq<Event>,
    unanswered: set<nat>)

  datatype Action =
    | Tick(ms: nat)
    | Expire(id: string)
    | StartStore(request: nat, id: string, record: StoredResponse, ttl: Option<nat>)
    | StartUpdate(request: nat, id: string, record: StoredResponse, ttl: Option<nat>, loadFails: bool)
    | StartDelete(request: nat, id: string, loadFails: bool)
    | FinishPending(request: nat)
    | DropPending(request: nat)
    | StartCall(call: nat, server: nat, id: string, op: Op)
    | Acquire(call: nat)
    | Step(server: nat, fate: Fate)
    | Abandon(server: nat, delayed: bool)
    | Lose(server: nat)
    | Arrive(server: nat)
    | ArriveLate(zombie: nat)
    | Reset(call: nat, connected: bool)
    | Reload(call: nat, loadFails: bool)
    | Forget(call: nat)

  // ----- One attempt ---------------------------------------------------------------------------

  function CommandOf(a: Attempt): Command {
    match a.pc
    case AtDiscard => Discard
    case AtWatch => Watch(a.id)
    case AtGet => Get(a.id)
    case AtTtl(_, _, _) => Ttl(a.id)
    case AtMulti(_) => Multi
    case AtSetEx(t) => SetEx(t)
    case AtExec(t) => Exec(t)
    case AtUnwatch(_) => Unwatch
  }

  datatype Verdict = Continue(pc: Pc) | End(result: AttemptResult)

  /** Where the value that GET returned leads. */
  function AfterGet(id: string, op: Op, raw: Option<Raw>): Pc {
    match raw
    case None => AtUnwatch(Failure(NotFound))
    case Some(Corrupt) => AtUnwatch(Failure(Serialization))
    case Some(Record(r)) =>
      match Prepare(op, id, r)
      case Reject(error) => AtUnwatch(Failure(error))
      case Keep => AtUnwatch(Unchanged(r))
      case Write(w, p) => AtTtl(r, w, p)
  }

  function React(a: Attempt, reply: Reply, now: nat, defaultTtl: nat): Verdict {
    match a.pc
    case AtDiscard => Continue(AtWatch)
    case AtWatch => if reply.Error? then End(Failure(Storage)) else Continue(AtGet)
    case AtGet =>
      (match reply
       case Error => End(Failure(Storage))
       case Value(raw) => Continue(AfterGet(a.id, a.op, raw))
       case _ => Continue(AtUnwatch(Failure(Serialization))))
    case AtTtl(r, w, p) =>
      if reply.Seconds?
      then Continue(AtMulti(Ticket(a.call, a.number, a.id, a.op, r, w, p, WriteTtl(reply.ttl, defaultTtl), now)))
      else Continue(AtUnwatch(Failure(Storage)))
    case AtMulti(t) => if reply.Error? then End(Failure(Storage)) else Continue(AtSetEx(t))
    case AtSetEx(t) => if reply.Error? then End(Failure(Storage)) else Continue(AtExec(t))
    case AtExec(t) =>
      if !reply.ExecReply? then End(Failure(Storage))
      else if reply.committed then End(Success(t.written, t.payload))
      else End(Conflict)
    case AtUnwatch(result) => End(result)
  }

  /** What the result of an attempt means for its call. */
  function Settle(op: Op, number: nat, result: AttemptResult): Phase {
    match result
    case Success(record, payload) => Finished(Ok(Answer(record, payload)))
    case Unchanged(record) => Finished(Ok(Answer(record, None)))
    case Conflict =>
      if number + 1 < MAX_ATTEMPTS then Trying(number + 1)
      else if op.Reconcile? then Reloading
      else Finished(Err(Unavailable))
    case Failure(error) => if error.Storage? then Broken(number) else Finished(Err(error))
  }

  /** The state after a command, from its outcome and from how the attempt reacts to it. */
  function AfterCommand(s: System, server: nat, out: Outcome, verdict: Verdict): System
    requires Holding(s, server)
  {
    var a := s.servers[server].attempt.value;
    var s' := s.(db := out.db, log := s.log + out.events,
                 unanswered := if a.pc.AtExec? && !out.reply.ExecReply? then s.unanswered + {a.call} else s.unanswered);
    match verdict
    case Continue(pc) => s'.(servers := s.servers[server := Server(out.conn, Some(a.(pc := pc)))])
    case End(result) =>
      SetPhase(s'.(servers := s.servers[server := Server(out.conn, None)]), a.call, Settle(a.op, a.number, result))
  }

  function StepServer(s: System, server: nat, fate: Fate): System
    requires Holding(s, server)
    requires CanIssue(s.servers[server].conn, fate)
  {
    var a := s.servers[server].attempt.value;
    var out := Issue(s.db, s.servers[server].conn, CommandOf(a), fate);
    AfterCommand(s, server, out, React(a, out.reply, s.db.now, s.defaultTtl))
  }

  // ----- The whole system ----------------------------------------------------------------------

  function SetPhase(s: System, call: nat, phase: Phase): System {
    if call in s.calls then s.(calls := s.calls[call := s.calls[call].(phase := phase)]) else s
  }

  function Modify(s: System, db: Db, id: string, cause: Cause): System {
    s.(db := db, log := s.log + [Change(s.db, db, id, cause)])
  }

  function WriteBlind(s: System, pending: Pending): System {
    match pending
    case PendingStore(id, record, ttl) => Modify(s, Put(s.db, id, Record(record), ttl), id, Stored)
    case PendingTombstone(id, record) =>
      Modify(s, Put(s.db, id, Record(Tombstone(record, id)), s.defaultTtl), id, Tombstoned)
    case PendingDelete(id) =>
      if id in s.db.entries then Modify(s, Remove(s.db, id), id, Deleted) else s
  }

  /** A record that get and update report: present, readable and not a tombstone. */
  function Visible(db: Db, id: string): Option<StoredResponse> {
    match Lookup(db, id)
    case Some(Entry(Record(r), _)) => if IsDeletedTombstone(r) then None else Some(r)
    case _ => None
  }

  function DeletePlan(s: System, id: string, loadFails: bool): Pending {
    match Visible(s.db, id)
    case Some(r) => if !loadFails && IsInFlight(r) then PendingTombstone(id, r) else PendingDelete(id)
    case None => PendingDelete(id)
  }

  function TtlOrDefault(s: System, ttl: Option<nat>): nat {
    match ttl case Some(t) => t case None => s.defaultTtl
  }

  predicate Holding(s: System, server: nat) {
    server in s.servers && s.servers[server].attempt.Some?
  }

  predicate HoldsLock(s: System, call: nat) {
    && call in s.calls
    && Holding(s, s.calls[call].server)
    && s.servers[s.calls[call].server].attempt.value.call == call
  }

  predicate LockFree(s: System, server: nat) {
    server in s.servers && s.servers[server].attempt.None?
  }

  predicate Enabled(s: System, action: Action) {
    match action
    case Tick(ms) =>
      forall id | id in s.db.entries && s.db.entries[id].deadline.Some? ::
        s.db.now + ms <= s.db.entries[id].deadline.value
    case Expire(id) =>
      && id in s.db.entries
      && s.db.entries[id].deadline.Some?
      && s.db.entries[id].deadline.value <= s.db.now
    case StartStore(request, _, _, ttl) => request !in s.pending && ttl != Some(0)
    case StartUpdate(request, id, _, ttl, loadFails) =>
      request !in s.pending && ttl != Some(0) && !loadFails && Visible(s.db, id).Some?
    case StartDelete(request, _, _) => request !in s.pending
    case FinishPending(request) => request in s.pending
    case DropPending(request) => request in s.pending
    case StartCall(call, server, _, op) =>
      && call !in s.calls
      && server in s.servers
      && (op.Reconcile? ==> op.now == s.db.now / 1000)
    case Acquire(call) => call in s.calls && s.calls[call].phase.Trying? && LockFree(s, s.calls[call].server)
    case Step(server, fate) => Holding(s, server) && CanIssue(s.servers[server].conn, fate)
    case Abandon(server, _) => Holding(s, server)
    case Lose(server) => server in s.servers
    case Arrive(server) => server in s.servers && s.servers[server].conn.inflight.Some?
    case ArriveLate(zombie) => zombie < |s.zombies| && s.zombies[zombie].inflight.Some?
    case Reset(call, _) => call in s.calls && s.calls[call].phase.Broken? && LockFree(s, s.calls[call].server)
    case Reload(call, _) => call in s.calls && s.calls[call].phase.Reloading?
    case Forget(call) => call in s.calls && !s.calls[call].phase.Finished? && !HoldsLock(s, call)
  }

  function TakeLock(s: System, call: nat): System
    requires call in s.calls && s.calls[call].phase.Trying? && s.calls[call].server in s.servers
  {
    var c := s.calls[call];
    var a := Attempt(call, c.phase.number, c.id, c.op, AtDiscard);
    s.(servers := s.servers[c.server := s.servers[c.server].(attempt := Some(a))])
  }

  /** The attempt's future is dropped; its current command may have been sent already. */
  function Dangling(conn: Conn, a: Attempt, delayed: bool): Conn {
    if delayed && !conn.lost && conn.inflight.None? then conn.(inflight := Some(CommandOf(a))) else conn
  }

  function AbandonAttempt(s: System, server: nat, delayed: bool): System
    requires Holding(s, server)
  {
    var Server(conn, Some(a)) := s.servers[server];
    var s' := s.(servers := s.servers[server := Server(Dangling(conn, a, delayed), None)],
                 unanswered := if a.pc.AtExec? then s.unanswered + {a.call} else s.unanswered);
    SetPhase(s', a.call, Dropped)
  }

  /** The link breaks; a command that was still on its way over it may arrive all the same. */
  function LoseLink(s: System, server: nat): System
    requires server in s.servers
  {
    s.(zombies := s.zombies + [s.servers[server].conn],
       servers := s.servers[server := s.servers[server].(conn := FRESH.(lost := true))])
  }

  /** A command the client no longer waits for is carried out after all. */
  function Arrival(db: Db, conn: Conn): Outcome
    requires conn.inflight.Some?
  {
    Execute(db, conn.(inflight := None), conn.inflight.value)
  }

  function Arrived(s: System, server: nat): System
    requires server in s.servers && s.servers[server].conn.inflight.Some?
  {
    var out := Arrival(s.db, s.servers[server].conn);
    s.(db := out.db, log := s.log + out.events,
       servers := s.servers[server := s.servers[server].(conn := out.conn)])
  }

  function ArrivedLate(s: System, zombie: nat): System
    requires zombie < |s.zombies| && s.zombies[zombie].inflight.Some?
  {
    var out := Arrival(s.db, s.zombies[zombie]);
    s.(db := out.db, log := s.log + out.events, zombies := s.zombies[zombie := out.conn])
  }

  /** A new connection takes the place of the old one, whose last command may still arrive. */
  function Reconnected(s: System, call: nat): System
    requires call in s.calls && s.calls[call].phase.Broken? && s.calls[call].server in s.servers
  {
    var c := s.calls[call];
    var s' := s.(zombies := s.zombies + [s.servers[c.server].conn],
                 servers := s.servers[c.server := s.servers[c.server].(conn := FRESH)]);
    SetPhase(s', call,
             if c.phase.number + 1 < MAX_ATTEMPTS then Trying(c.phase.number + 1) else Finished(Err(Storage)))
  }

  function Reloaded(db: Db, id: string, loadFails: bool): Result<Answer, StoreError> {
    if loadFails then Err(Storage)
    else
      match Lookup(db, id)
      case None => Err(NotFound)
      case Some(Entry(Corrupt, _)) => Err(Serialization)
      case Some(Entry(Record(r), _)) => Ok(Answer(r, None))
  }

  function Apply(s: System, action: Action): System {
    if !Enabled(s, action) then s
    else
      match action
      case Tick(ms) => s.(db := s.db.(now := s.db.now + ms))
      case Expire(id) => Modify(s, Remove(s.db, id), id, Expired)
      case StartStore(request, id, record, ttl) =>
        s.(pending := s.pending[request := PendingStore(id, record, TtlOrDefault(s, ttl))])
      case StartUpdate(request, id, record, ttl, _) =>
        s.(pending := s.pending[request := PendingStore(id, record, TtlOrDefault(s, ttl))])
      case StartDelete(request, id, loadFails) =>
        s.(pending := s.pending[request := DeletePlan(s, id, loadFails)])
      case FinishPending(request) => WriteBlind(s, s.pending[request]).(pending := s.pending - {request})
      case DropPending(request) => s.(pending := s.pending - {request})
      case StartCall(call, server, id, op) => s.(calls := s.calls[call := Call(server, id, op, Trying(0))])
      case Acquire(call) => TakeLock(s, call)
      case Step(server, fate) => StepServer(s, server, fate)
      case Abandon(server, delayed) => AbandonAttempt(s, server, delayed)
      case Lose(server) => LoseLink(s, server)
      case Arrive(server) => Arrived(s, server)
      case ArriveLate(zombie) => ArrivedLate(s, zombie)
      case Reset(call, connected) => if connected then Reconnected(s, call) else SetPhase(s, call, Finished(Err(Storage)))
      case Reload(call, loadFails) => SetPhase(s, call, Finished(Reloaded(s.db, s.calls[call].id, loadFails)))
      case Forget(call) => SetPhase(s, call, Dropped)
  }

  function Run(s: System, actions: seq<Action>): System
    decreases |actions|
  {
    if actions == [] then s else Run(Apply(s, actions[0]), actions[1..])
  }
}
