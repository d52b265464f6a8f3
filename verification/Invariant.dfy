/** What every schedule keeps true, and the proof that it does. */
module Invariant {
  import opened Wrappers
  import opened Model
  import opened Transitions
  import opened Redis
  import opened Protocol

  // ----- Rely: how the keys may change under an attempt ----------------------------------------

  /** A key either is as it was, or carries a stamp that did not exist before. */
  ghost predicate Evolves(db: Db, db': Db) {
    && db.now <= db'.now
    && db.stamp <= db'.stamp
    && forall id :: db.stamp < StampOf(db', id)
                    || (StampOf(db', id) == StampOf(db, id) && Lookup(db', id) == Lookup(db, id))
  }

  /** No stamp is from the future, and no deadline has passed. */
  ghost predicate DbOk(db: Db) {
    && (forall id | id in db.stamps :: db.stamps[id] <= db.stamp)
    && (forall id | id in db.entries && db.entries[id].deadline.Some? :: db.now <= db.entries[id].deadline.value)
  }

  // ----- What is known at each point -----------------------------------------------------------

  /** The ticket carries a write that its operation really prepares from what it read. */
  predicate TicketOk(now: nat, t: Ticket) {
    && Prepare(t.op, t.id, t.read) == Write(t.written, t.payload)
    && t.ttl >= 1
    && t.readAt <= now
    && (t.op.Reconcile? ==> t.op.now <= now / 1000)
  }

  /** As long as the watch on `id` holds, the key still stores `read`. */
  predicate Guards(db: Db, conn: Conn, id: string, read: StoredResponse) {
    && id in conn.watched
    && (StampOf(db, id) == conn.watched[id] ==> id in db.entries && db.entries[id].raw == Record(read))
  }

  /** As long as the watch holds, the ticket's record and expiry are the current ones. */
  predicate GuardsTicket(db: Db, defaultTtl: nat, conn: Conn, t: Ticket) {
    && Guards(db, conn, t.id, t.read)
    && TicketOk(db.now, t)
    && (StampOf(db, t.id) == conn.watched[t.id] ==>
          t.ttl == WriteTtl(TtlReply(Lookup(db, t.id), t.readAt), defaultTtl))
  }

  /** EXEC on this connection can only carry out the write of ticket `t`. */
  predicate Ready(db: Db, defaultTtl: nat, conn: Conn, t: Ticket) {
    conn.inMulti && conn.queue == [t] && GuardsTicket(db, defaultTtl, conn, t)
  }

  predicate ConnOk(db: Db, defaultTtl: nat, conn: Conn) {
    && (forall id | id in conn.watched :: conn.watched[id] <= db.stamp)
    && (!conn.inMulti ==> conn.queue == [])
    && (conn.lost ==> conn.inflight.None?)
    && match conn.inflight
       case Some(Exec(t)) => Ready(db, defaultTtl, conn, t)
       case Some(SetEx(t)) => conn.inMulti
       case _ => true
  }

  /** An attempt in the middle of its commands has the connection to itself, unless the link was lost. */
  ghost predicate Exclusive(conn: Conn, inMulti: bool) {
    conn.inflight.None? && conn.inMulti == inMulti
  }

  ghost predicate Owns(a: Attempt, t: Ticket) {
    t.call == a.call && t.attempt == a.number && t.id == a.id && t.op == a.op
  }

  ghost predicate AttemptOk(db: Db, defaultTtl: nat, conn: Conn, a: Attempt) {
    match a.pc
    case AtGet => conn.lost || (Exclusive(conn, false) && a.id in conn.watched)
    case AtTtl(r, w, p) =>
      && Prepare(a.op, a.id, r) == Write(w, p)
      && (conn.lost || (Exclusive(conn, false) && Guards(db, conn, a.id, r)))
    case AtMulti(t) =>
      Owns(a, t) && (conn.lost || (Exclusive(conn, false) && GuardsTicket(db, defaultTtl, conn, t)))
    case AtSetEx(t) =>
      && Owns(a, t)
      && (conn.lost || (Exclusive(conn, true) && conn.queue == [] && GuardsTicket(db, defaultTtl, conn, t)))
    case AtExec(t) =>
      Owns(a, t) && (conn.lost || (Exclusive(conn, true) && Ready(db, defaultTtl, conn, t)))
    case AtUnwatch(result) => !result.Success? && (result.Unchanged? ==> a.op.Reconcile?)
    case _ => true
  }

  ghost predicate ServerOk(s: System, server: Server) {
    && ConnOk(s.db, s.defaultTtl, server.conn)
    && (server.attempt.Some? ==> AttemptOk(s.db, s.defaultTtl, server.conn, server.attempt.value))
  }

  /** The lock holder is the attempt its call says is under way. */
  ghost predicate HolderOk(s: System, server: nat, a: Attempt) {
    && a.call in s.calls
    && s.calls[a.call] == Call(server, a.id, a.op, Trying(a.number))
  }

  // ----- What the log says ---------------------------------------------------------------------

  /** The value under `id` once the logged modifications have happened. */
  ghost function Current(origin: map<string, Entry>, log: seq<Event>, id: string): Option<Entry>
    decreases |log|
  {
    if log == [] then if id in origin then Some(origin[id]) else None
    else if log[|log| - 1].id == id then log[|log| - 1].after
    else Current(origin, log[..|log| - 1], id)
  }

  /** A commit wrote, over exactly what its attempt had read, exactly what its operation prepares from it. */
  ghost predicate CommitOk(defaultTtl: nat, e: Event) {
    && e.cause.Committed?
    && e.cause.issuer == e.cause.writer
    && var t := e.cause.writer;
       && t.id == e.id
       && TicketOk(e.at, t)
       && e.before.Some?
       && e.before.value.raw == Record(t.read)
       && (e.before.value.deadline.Some? ==> e.at <= e.before.value.deadline.value)
       && e.after == Some(Entry(Record(t.written), Some(e.at + 1000 * t.ttl)))
       && t.ttl == WriteTtl(TtlReply(e.before, t.readAt), defaultTtl)
  }

  ghost predicate EventOk(defaultTtl: nat, e: Event)
  {
    match e.cause
    case Committed(_, _) => CommitOk(defaultTtl, e)
    case Stored => e.after.Some? && e.after.value.raw.Record?
    case Tombstoned => e.after.Some? && e.after.value.raw.Record? && IsDeletedTombstone(e.after.value.raw.record)
    case _ => e.after.None?
  }

  ghost predicate LogOk(defaultTtl: nat, origin: map<string, Entry>, log: seq<Event>) {
    && (forall i | 0 <= i < |log| :: EventOk(defaultTtl, log[i]))
    && (forall i | 0 <= i < |log| :: log[i].before == Current(origin, log[..i], log[i].id))
  }

  ghost predicate LogMatches(s: System) {
    && LogOk(s.defaultTtl, s.origin, s.log)
    && forall id :: Current(s.origin, s.log, id) == Lookup(s.db, id)
  }

  /** Commits belong to calls that were started with that operation on that record. */
  ghost predicate FromCall(s: System, t: Ticket) {
    t.call in s.calls && s.calls[t.call].op == t.op && s.calls[t.call].id == t.id
  }

  // ----- Single commands -----------------------------------------------------------------------

  lemma EvolvesTransitive(a: Db, b: Db, c: Db)
    requires Evolves(a, b) && Evolves(b, c)
    ensures Evolves(a, c)
  {
    forall id
      ensures a.stamp < StampOf(c, id) || (StampOf(c, id) == StampOf(a, id) && Lookup(c, id) == Lookup(a, id))
    {
      assert b.stamp < StampOf(c, id) || StampOf(c, id) == StampOf(b, id);
      assert a.stamp < StampOf(b, id) || StampOf(b, id) == StampOf(a, id);
    }
  }

  /** One modification of one key, as the log records it. */
  ghost predicate Modifies(db: Db, db': Db, e: Event) {
    && e.at == db.now == db'.now
    && e.before == Lookup(db, e.id)
    && e.after == Lookup(db', e.id)
    && forall id :: id != e.id ==> Lookup(db', id) == Lookup(db, id)
  }

  lemma PutEvolves(db: Db, id: string, raw: Raw, ttl: nat, cause: Cause)
    requires DbOk(db)
    ensures Evolves(db, Put(db, id, raw, ttl)) && DbOk(Put(db, id, raw, ttl))
    ensures Modifies(db, Put(db, id, raw, ttl), Change(db, Put(db, id, raw, ttl), id, cause))
  {
  }

  lemma RemoveEvolves(db: Db, id: string, cause: Cause)
    requires DbOk(db)
    ensures Evolves(db, Remove(db, id)) && DbOk(Remove(db, id))
    ensures Modifies(db, Remove(db, id), Change(db, Remove(db, id), id, cause))
  {
  }

  /** Whatever happens to the keys, what an attempt knows behind its watch stays true. */
  lemma GuardsStable(db: Db, db': Db, conn: Conn, id: string, read: StoredResponse)
    requires Evolves(db, db') && Guards(db, conn, id, read) && conn.watched[id] <= db.stamp
    ensures Guards(db', conn, id, read)
  {
    assert db.stamp < StampOf(db', id) || StampOf(db', id) == StampOf(db, id);
  }

  lemma GuardsTicketStable(db: Db, db': Db, defaultTtl: nat, conn: Conn, t: Ticket)
    requires Evolves(db, db') && GuardsTicket(db, defaultTtl, conn, t) && conn.watched[t.id] <= db.stamp
    ensures GuardsTicket(db', defaultTtl, conn, t)
  {
    GuardsStable(db, db', conn, t.id, t.read);
    assert db.stamp < StampOf(db', t.id) || StampOf(db', t.id) == StampOf(db, t.id);
  }

  lemma ConnStable(db: Db, db': Db, defaultTtl: nat, conn: Conn)
    requires Evolves(db, db') && ConnOk(db, defaultTtl, conn)
    ensures ConnOk(db', defaultTtl, conn)
  {
    match conn.inflight
    case Some(Exec(t)) => GuardsTicketStable(db, db', defaultTtl, conn, t);
    case _ =>
  }

  lemma AttemptStable(db: Db, db': Db, defaultTtl: nat, conn: Conn, a: Attempt)
    requires Evolves(db, db') && ConnOk(db, defaultTtl, conn) && AttemptOk(db, defaultTtl, conn, a)
    ensures AttemptOk(db', defaultTtl, conn, a)
  {
    if !conn.lost {
      match a.pc
      case AtTtl(r, w, p) => GuardsStable(db, db', conn, a.id, r);
      case AtMulti(t) => GuardsTicketStable(db, db', defaultTtl, conn, t);
      case AtSetEx(t) => GuardsTicketStable(db, db', defaultTtl, conn, t);
      case AtExec(t) => GuardsTicketStable(db, db', defaultTtl, conn, t);
      case _ =>
    }
  }

  /** A command that may be carried out: a queued write, or an EXEC behind its own write and its own watch. */
  ghost predicate Safe(db: Db, defaultTtl: nat, conn: Conn, command: Command) {
    match command
    case Exec(t) => Ready(db, defaultTtl, conn, t)
    case SetEx(_) => conn.inMulti
    case _ => true
  }

  /** The outcome of a command: nothing but connection state, or the one commit of the ticket it carried. */
  ghost predicate Outputs(defaultTtl: nat, db: Db, command: Command, out: Outcome) {
    || (out.events == [] && out.db == db)
    || (&& command.Exec?
        && |out.events| == 1
        && CommitOk(defaultTtl, out.events[0])
        && out.events[0].cause.writer == command.issuer
        && Modifies(db, out.db, out.events[0]))
  }

  /** EXEC carries out the write of the very ticket that issued it, over the very record that ticket read. */
  lemma ExecCommits(db: Db, defaultTtl: nat, conn: Conn, t: Ticket)
    requires DbOk(db) && Ready(db, defaultTtl, conn, t)
    ensures var out := Execute(db, conn, Exec(t));
            && out.reply.ExecReply?
            && (out.reply.committed <==> WatchHolds(db, conn))
            && (!out.reply.committed ==> out.events == [] && out.db == db)
            && (out.reply.committed ==>
                  && out.db == Put(db, t.id, Record(t.written), t.ttl)
                  && out.events == [Change(db, out.db, t.id, Committed(t, t))]
                  && CommitOk(defaultTtl, out.events[0]))
  {
    if WatchHolds(db, conn) {
      assert StampOf(db, t.id) == conn.watched[t.id];
      var db' := Put(db, t.id, Record(t.written), t.ttl);
      assert conn.queue[0] == t && conn.queue[1..] == [];
      assert RunQueue(db', [], t) == (db', []);
      assert RunQueue(db, conn.queue, t) == (db', [Change(db, db', t.id, Committed(t, t))] + []);
    }
  }

  lemma ExecuteSafe(db: Db, defaultTtl: nat, conn: Conn, command: Command)
    requires DbOk(db) && conn.inflight.None?
    requires ConnOk(db, defaultTtl, conn) && Safe(db, defaultTtl, conn, command)
    ensures var out := Execute(db, conn, command);
            && Evolves(db, out.db) && DbOk(out.db)
            && ConnOk(out.db, defaultTtl, out.conn)
            && out.conn.inflight.None? && out.conn.lost == conn.lost
            && Outputs(defaultTtl, db, command, out)
  {
    match command
    case Exec(t) =>
      ExecCommits(db, defaultTtl, conn, t);
      PutEvolves(db, t.id, Record(t.written), t.ttl, Committed(t, t));
    case _ =>
  }

  // ----- One step of an attempt ----------------------------------------------------------------

  lemma AttemptIsSafe(db: Db, defaultTtl: nat, conn: Conn, a: Attempt)
    requires AttemptOk(db, defaultTtl, conn, a) && !conn.lost
    ensures Safe(db, defaultTtl, conn, CommandOf(a))
  {
  }

  lemma DelayedIsOk(db: Db, defaultTtl: nat, conn: Conn, a: Attempt)
    requires ConnOk(db, defaultTtl, conn) && AttemptOk(db, defaultTtl, conn, a)
    requires !conn.lost && conn.inflight.None?
    ensures ConnOk(db, defaultTtl, conn.(inflight := Some(CommandOf(a))))
  {
    match a.pc
    case AtExec(t) => assert Ready(db, defaultTtl, conn.(inflight := Some(CommandOf(a))), t);
    case _ =>
  }

  lemma IssueSafe(db: Db, defaultTtl: nat, conn: Conn, a: Attempt, fate: Fate)
    requires DbOk(db) && ConnOk(db, defaultTtl, conn) && AttemptOk(db, defaultTtl, conn, a)
    requires CanIssue(conn, fate)
    ensures var out := Issue(db, conn, CommandOf(a), fate);
            && Evolves(db, out.db) && DbOk(out.db)
            && ConnOk(out.db, defaultTtl, out.conn)
            && Outputs(defaultTtl, db, CommandOf(a), out)
  {
    if !conn.lost {
      AttemptIsSafe(db, defaultTtl, conn, a);
      match fate
      case Answered => ExecuteSafe(db, defaultTtl, conn, CommandOf(a));
      case ReplyLost => ExecuteSafe(db, defaultTtl, conn, CommandOf(a));
      case NotSent =>
      case Delayed => DelayedIsOk(db, defaultTtl, conn, a);
    }
  }

  /** After each command the attempt knows what its next command relies on. */
  lemma StepKeepsAttempt(db: Db, defaultTtl: nat, conn: Conn, a: Attempt, fate: Fate)
    requires DbOk(db) && ConnOk(db, defaultTtl, conn) && AttemptOk(db, defaultTtl, conn, a)
    requires CanIssue(conn, fate) && defaultTtl >= 1
    requires a.op.Reconcile? ==> a.op.now <= db.now / 1000
    ensures var out := Issue(db, conn, CommandOf(a), fate);
            var verdict := React(a, out.reply, db.now, defaultTtl);
            verdict.Continue? ==> AttemptOk(out.db, defaultTtl, out.conn, a.(pc := verdict.pc))
  {
    var out := Issue(db, conn, CommandOf(a), fate);
    match a.pc
    case AtGet =>
      if out.reply.Value? {
        assert out.db == db && out.conn == conn;
      }
    case AtTtl(r, w, p) =>
      if out.reply.Seconds? {
        assert out.db == db && out.conn == conn;
        assert out.reply.ttl == TtlReply(Lookup(db, a.id), db.now);
      }
    case _ =>
  }

  /** An attempt that reports success has just logged the commit of its own ticket. */
  lemma SuccessIsLogged(db: Db, defaultTtl: nat, conn: Conn, a: Attempt, fate: Fate)
    requires DbOk(db) && ConnOk(db, defaultTtl, conn) && AttemptOk(db, defaultTtl, conn, a)
    requires CanIssue(conn, fate) && a.pc.AtExec?
    ensures var out := Issue(db, conn, CommandOf(a), fate);
            React(a, out.reply, db.now, defaultTtl).End?
    ensures var out := Issue(db, conn, CommandOf(a), fate);
            var result := React(a, out.reply, db.now, defaultTtl).result;
            result.Success? ==>
              && |out.events| == 1
              && out.events[0].cause == Committed(a.pc.ticket, a.pc.ticket)
              && Owns(a, a.pc.ticket)
              && CommitOk(defaultTtl, out.events[0])
              && result == Success(a.pc.ticket.written, a.pc.ticket.payload)
  {
    if !conn.lost {
      ExecCommits(db, defaultTtl, conn, a.pc.ticket);
    }
  }
}
