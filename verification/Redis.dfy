/**
 The part of Redis the record store relies on: string keys with expiry, and connections that watch keys and
 queue commands. Every modification of a key takes a fresh stamp, so "the watched key was touched" is
 "its stamp differs from the one seen by WATCH".
 */
module Redis {
  import opened Wrappers
  import opened Model
  import opened Transitions

  /** The bytes under a key, already split by whether they parse as a record. */
  datatype Raw = Record(record: StoredResponse) | Corrupt

  /** A stored value and its expiry in milliseconds, if it has one. */
  datatype Entry = Entry(raw: Raw, deadline: Option<nat>)

  datatype Db = Db(now: nat, entries: map<string, Entry>, stamps: map<string, nat>, stamp: nat)

  /** What an attempt knows when it queues its write: who it is, what it read, and the TTL reply it got. */
  datatype Ticket = Ticket(
    call: nat, attempt: nat, id: string, op: Op,
    read: StoredResponse, written: StoredResponse, payload: Option<ClaimPayload>,
    ttl: nat, readAt: nat)

  datatype Cause =
    | Stored                             // store, update or enqueue
    | Tombstoned                         // delete of a job in flight
    | Deleted                            // delete of anything else
    | Expired
    | Committed(issuer: Ticket, writer: Ticket)

  /** One modification of one key. */
  datatype Event = Event(id: string, before: Option<Entry>, after: Option<Entry>, cause: Cause, at: nat)

  datatype Command =
    | Discard
    | Watch(id: string)
    | Unwatch
    | Get(id: string)
    | Ttl(id: string)
    | Multi
    | SetEx(ticket: Ticket)
    | Exec(issuer: Ticket)

  datatype Reply =
    | Error
    | Done
    | Queued
    | Value(raw: Option<Raw>)
    | Seconds(ttl: int)
    | ExecReply(committed: bool)

  /**
   A connection as the server and the client's connection manager see it. `lost` is a broken link the client
   has not noticed yet; `inflight` is a command the client stopped waiting for that may still be carried out.
   */
  datatype Conn = Conn(
    watched: map<string, nat>, inMulti: bool, queue: seq<Ticket>, lost: bool, inflight: Option<Command>)

  const FRESH: Conn := Conn(map[], false, [], false, None)

  function Lookup(db: Db, id: string): Option<Entry> {
    if id in db.entries then Some(db.entries[id]) else None
  }

  function StampOf(db: Db, id: string): nat {
    if id in db.stamps then db.stamps[id] else 0
  }

  function Touch(db: Db, id: string, entries: map<string, Entry>): Db {
    db.(entries := entries, stamps := db.stamps[id := db.stamp + 1], stamp := db.stamp + 1)
  }

  /** SETEX: the deadline counts from the moment the command is carried out. */
  function Put(db: Db, id: string, raw: Raw, ttl: nat): Db {
    Touch(db, id, db.entries[id := Entry(raw, Some(db.now + 1000 * ttl))])
  }

  /** DEL or expiry; a key that is not there is not touched. */
  function Remove(db: Db, id: string): Db {
    if id in db.entries then Touch(db, id, db.entries - {id}) else db
  }

  function Change(db: Db, db': Db, id: string, cause: Cause): Event {
    Event(id, Lookup(db, id), Lookup(db', id), cause, db.now)
  }

  /** The TTL reply: whole seconds, rounded to the nearest. */
  function TtlReply(entry: Option<Entry>, now: nat): int {
    match entry
    case None => -2
    case Some(Entry(_, None)) => -1
    case Some(Entry(_, Some(deadline))) => if deadline < now then -2 else (deadline - now + 500) / 1000
  }

  /** The expiry written by a transition, from the TTL reply. */
  function WriteTtl(reply: int, defaultTtl: nat): (ttl: nat)
    ensures reply > 0 ==> ttl == reply
    ensures defaultTtl >= 1 ==> ttl >= 1
  {
    if reply == 0 then 1
    else if reply == -1 then defaultTtl
    else if reply > 0 then reply
    else defaultTtl
  }

  /** EXEC gives up when any watched key was touched since it was watched. */
  predicate WatchHolds(db: Db, conn: Conn) {
    forall id | id in conn.watched :: StampOf(db, id) == conn.watched[id]
  }

  /** The queued writes, carried out one after the other. */
  function RunQueue(db: Db, queue: seq<Ticket>, issuer: Ticket): (Db, seq<Event>)
    decreases |queue|
  {
    if queue == [] then (db, [])
    else
      var t := queue[0];
      var db' := Put(db, t.id, Record(t.written), t.ttl);
      var (last, events) := RunQueue(db', queue[1..], issuer);
      (last, [Change(db, db', t.id, Committed(issuer, t))] + events)
  }

  /** What carrying out one command leaves behind. */
  datatype Outcome = Outcome(db: Db, conn: Conn, reply: Reply, events: seq<Event>)

  function Execute(db: Db, conn: Conn, command: Command): Outcome {
    match command
    case Discard =>
      if conn.inMulti then Outcome(db, conn.(inMulti := false, queue := [], watched := map[]), Done, [])
      else Outcome(db, conn, Error, [])
    case Watch(id) =>
      if conn.inMulti then Outcome(db, conn, Error, [])
      else if id in conn.watched then Outcome(db, conn, Done, [])
      else Outcome(db, conn.(watched := conn.watched[id := StampOf(db, id)]), Done, [])
    case Multi =>
      if conn.inMulti then Outcome(db, conn, Error, []) else Outcome(db, conn.(inMulti := true), Done, [])
    case Exec(issuer) =>
      if !conn.inMulti then Outcome(db, conn, Error, [])
      else
        var conn' := conn.(inMulti := false, queue := [], watched := map[]);
        if WatchHolds(db, conn) then
          var (db', events) := RunQueue(db, conn.queue, issuer);
          Outcome(db', conn', ExecReply(true), events)
        else Outcome(db, conn', ExecReply(false), [])
    case SetEx(ticket) =>
      if conn.inMulti then Outcome(db, conn.(queue := conn.queue + [ticket]), Queued, [])
      else
        var db' := Put(db, ticket.id, Record(ticket.written), ticket.ttl);
        Outcome(db', conn, Done, [Change(db, db', ticket.id, Committed(ticket, ticket))])
    case Unwatch =>
      if conn.inMulti then Outcome(db, conn, Queued, [])
      else Outcome(db, conn.(watched := map[]), Done, [])
    case Get(id) =>
      if conn.inMulti then Outcome(db, conn, Queued, [])
      else Outcome(db, conn, Value(if id in db.entries then Some(db.entries[id].raw) else None), [])
    case Ttl(id) =>
      if conn.inMulti then Outcome(db, conn, Queued, [])
      else Outcome(db, conn, Seconds(TtlReply(Lookup(db, id), db.now)), [])
  }

  /** How a command fares between being issued and being answered. */
  datatype Fate =
    | Answered    // carried out, and the reply arrives
    | ReplyLost   // carried out, but the client sees an error
    | NotSent     // never carried out; the client sees an error
    | Delayed     // the client sees an error; the command is still on its way

  /** A connection with a command still on its way carries out nothing else before it. */
  predicate CanIssue(conn: Conn, fate: Fate) {
    conn.lost || fate.NotSent? || conn.inflight.None?
  }

  /** Issuing a command. A lost link surfaces as an error here, and the connection manager reconnects. */
  function Issue(db: Db, conn: Conn, command: Command, fate: Fate): Outcome
    requires CanIssue(conn, fate)
  {
    if conn.lost then Outcome(db, FRESH, Error, [])
    else
      match fate
      case Answered => Execute(db, conn, command)
      case ReplyLost => Execute(db, conn, command).(reply := Error)
      case NotSent => Outcome(db, conn, Error, [])
      case Delayed => Outcome(db, conn.(inflight := Some(command)), Error, [])
  }
}
