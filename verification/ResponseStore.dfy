/**
 The transition loop as one server runs it: commands on the dedicated connection, up to sixteen attempts, a fresh
 connection after a storage error. Everybody else acts between any two commands. Every method states where in the
 program of the call it leads, so that the answer is the one that the turns taken amount to.
 */
module ResponseStore {
  import opened Wrappers
  import opened Transitions
  import opened Redis
  import opened Protocol
  import opened Invariant
  import opened CallTrace

  class TransitionClient {
    const defaultTtl: nat
    var db: Db
    var conn: Conn
    ghost var job: Job
    ghost var origin: World       // where the current call began
    ghost var turns: seq<Turn>    // everything that happened since

    constructor (defaultTtl: nat, db: Db)
      requires defaultTtl >= 1 && DbOk(db)
      ensures Valid() && this.defaultTtl == defaultTtl && this.db == db
    {
      this.defaultTtl := defaultTtl;
      this.db := db;
      conn := FRESH;
      job := Job(0, "", Claim, defaultTtl);
      origin := World(db, FRESH);
      turns := [];
    }

    ghost predicate Valid()
      reads this
    {
      defaultTtl >= 1 && DbOk(db) && ConnOk(db, defaultTtl, conn)
    }

    ghost function Now(): World
      reads this
    {
      World(db, conn)
    }

    /** The turns since the call began lead from its beginning to the present, and its program to `c`. */
    ghost predicate Under(c: Control)
      reads this
    {
      && job.defaultTtl == defaultTtl
      && WorldOk(job, origin)
      && AllDecent(job, origin, turns)
      && Replay(origin, turns) == Now()
      && Trace(job, START, origin, turns) == c
    }

    twostate predicate Onward()
      reads this
    {
      job == old(job) && origin == old(origin) && old(turns) <= turns
    }

    lemma UnderIsValid(c: Control)
      requires Under(c) && c != Astray
      ensures Valid() && WorldOk(job, Now())
    {
      TraceBacked(job, origin, turns);
    }

    method Take(turn: Turn, ghost c: Control)
      requires Under(c) && Decent(job, Now(), turn)
      modifies this`db, this`conn, this`turns
      ensures Under(Follow(job, c, old(Now()), turn)) && Onward()
      ensures Now() == After(old(Now()), turn) && turns == old(turns) + [turn]
    {
      Appended(job, START, origin, turns, turn);
      hide After, Follow, Replay, Trace, AllDecent, WorldOk;
      var next := After(World(db, conn), turn);
      turns := turns + [turn];
      db, conn := next.db, next.conn;
    }

    /** Others act, on the keys and on the link. */
    method Others(ghost c: Control)
      requires Under(c)
      modifies this`db, this`conn, this`turns
      ensures Under(c) && Onward()
    {
      var moves: seq<Turn> :| forall m | m in moves :: m.Elsewhere? || m.LinkLost? || m.LateArrival?;
      hide Under;
      for n := 0 to |moves|
        invariant Under(c) && Onward()
      {
        assert moves[n] in moves;
        Take(moves[n], c);
      }
    }

    /** The lock is free: other calls of this server may use the connection, and leave it anyhow. */
    method Idle(ghost c: Control)
      requires Under(c) && c.Outside?
      modifies this`db, this`conn, this`turns
      ensures Under(c) && Onward()
    {
      Others(c);
      FreshOk(db, defaultTtl);
      var leftover: Conn :| ConnOk(db, defaultTtl, leftover);
      Take(LeftBehind(leftover), c);
      hide Under;
      Others(c);
    }

    /** One command, from being issued to its answer or failure; `at` is the moment it was carried out. */
    method Send(command: Command, ghost a: Attempt, ghost c: Control) returns (reply: Redis.Reply, at: nat)
      requires Under(c) && Acting(job, c) == Some(a) && command == CommandOf(a)
      modifies this`db, this`conn, this`turns
      ensures Under(Heard(a, reply, at, defaultTtl)) && Onward()
    {
      hide Heard, CommandOf, Issue, WorldOk, AllDecent, Replay, Trace;
      Others(c);
      var fate: Fate :| CanIssue(conn, fate);
      at := db.now;
      reply := CallTrace.Reply(World(db, conn), command, fate);
      Take(Turn.Send(command, fate), c);
    }

    /** UNWATCH, whose failure is ignored. */
    method Unwatch(a: Attempt, result: AttemptResult)
      requires a.pc == AtUnwatch(result) && Under(Inside(a.number, a.pc)) && a == AttemptAt(job, a.number, a.pc)
      modifies this`db, this`conn, this`turns
      ensures Under(Outside(Settle(a.op, a.number, result))) && Onward()
    {
      hide Under;
      var _, _ := Send(Command.Unwatch, a, Inside(a.number, a.pc));
    }

    /** One attempt: watch and read the record, prepare the new one, and write it if the watch still holds. */
    method TransitionAttempt(call: nat, number: nat, id: string, op: Op) returns (result: AttemptResult)
      requires Under(Inside(number, AtWatch)) && job == Job(call, id, op, defaultTtl)
      modifies this`db, this`conn, this`turns
      ensures Under(Outside(Settle(op, number, result))) && Onward()
    {
      hide Under, Prepare, Settle;
      var a := Attempt(call, number, id, op, AtWatch);
      var reply, at := Send(Watch(id), a, Inside(number, AtWatch));
      if reply.Error? {
        return Failure(Storage);
      }
      a := a.(pc := AtGet);
      reply, at := Send(Get(id), a, Inside(number, AtGet));
      match reply {
        case Error =>
          return Failure(Storage);
        case Value(None) =>
          result := Failure(NotFound);
        case Value(Some(Corrupt)) =>
          result := Failure(Serialization);
        case Value(Some(Record(stored))) =>
          match Prepare(op, id, stored) {
            case Reject(error) =>
              result := Failure(error);
            case Keep =>
              result := Unchanged(stored);
            case Write(written, payload) =>
              result := WriteBack(a.(pc := AtTtl(stored, written, payload)));
              return;
          }
        case _ =>
          result := Failure(Serialization);
      }
      Unwatch(a.(pc := AtUnwatch(result)), result);
    }

    /** The second half of an attempt: read the TTL, queue the write and run it. */
    method WriteBack(a: Attempt) returns (result: AttemptResult)
      requires a.pc.AtTtl? && Under(Inside(a.number, a.pc)) && a == AttemptAt(job, a.number, a.pc)
      modifies this`db, this`conn, this`turns
      ensures Under(Outside(Settle(a.op, a.number, result))) && Onward()
    {
      assert job.defaultTtl == defaultTtl;
      hide Under, Prepare, Settle;
      var AtTtl(stored, written, payload) := a.pc;
      var reply, at := Send(Ttl(a.id), a, Inside(a.number, a.pc));
      if !reply.Seconds? {
        Unwatch(a.(pc := AtUnwatch(Failure(Storage))), Failure(Storage));
        return Failure(Storage);
      }
      var ticket :=
        Ticket(a.call, a.number, a.id, a.op, stored, written, payload, WriteTtl(reply.ttl, defaultTtl), at);
      result := RunTransaction(a.(pc := AtMulti(ticket)), ticket);
    }

    /** MULTI, SETEX and EXEC. */
    method RunTransaction(a: Attempt, ticket: Ticket) returns (result: AttemptResult)
      requires a.pc == AtMulti(ticket) && Under(Inside(a.number, a.pc)) && a == AttemptAt(job, a.number, a.pc)
      modifies this`db, this`conn, this`turns
      ensures Under(Outside(Settle(a.op, a.number, result))) && Onward()
      ensures result.Success? ==> result == Success(ticket.written, ticket.payload)
    {
      hide Under, Prepare, Settle;
      var reply, at := Send(Multi, a, Inside(a.number, AtMulti(ticket)));
      if reply.Error? {
        return Failure(Storage);
      }
      reply, at := Send(SetEx(ticket), a.(pc := AtSetEx(ticket)), Inside(a.number, AtSetEx(ticket)));
      if reply.Error? {
        return Failure(Storage);
      }
      reply, at := Send(Exec(ticket), a.(pc := AtExec(ticket)), Inside(a.number, AtExec(ticket)));
      if !reply.ExecReply? {
        return Failure(Storage);
      }
      if !reply.committed {
        return Conflict;
      }
      result := Success(ticket.written, ticket.payload);
    }

    /** A new connection in place of the broken one; it takes the lock for that. */
    method ResetConnection(number: nat) returns (ok: bool)
      requires Under(Outside(Broken(number)))
      modifies this`db, this`conn, this`turns
      ensures Under(Outside(AfterReset(number, ok))) && Onward()
      ensures ok ==> conn == FRESH
    {
      hide Under;
      Idle(Outside(Broken(number)));
      ok := *;
      Take(Replace(ok), Outside(Broken(number)));
    }

    /** Reading the record once more, outside any transaction. */
    method Reload(id: string) returns (r: Result<Answer, StoreError>)
      requires Under(Outside(Reloading)) && job.id == id
      modifies this`db, this`conn, this`turns
      ensures Under(Outside(Finished(r))) && Onward()
      ensures r.Ok? ==> ContentsOf(db, id) == Some(Record(r.value.record)) && r.value.payload == None
    {
      hide Under;
      Idle(Outside(Reloading));
      var fails: bool := *;
      Take(LoadAgain(fails), Outside(Reloading));
      if fails {
        return Err(Storage);
      }
      match Lookup(db, id)
      case None =>
        return Err(NotFound);
      case Some(Entry(Corrupt, _)) =>
        return Err(Serialization);
      case Some(Entry(Record(record), _)) =>
        return Ok(Answer(record, None));
    }

    /**
     The whole transition: attempts until one settles it, a new connection after every storage error, and no more
     than sixteen attempts. A reconcile that keeps losing the race reports the record as it finds it in the end.
     */
    method TransitionAtomic(call: nat, id: string, op: Op) returns (r: Result<Answer, StoreError>)
      requires Valid() && (op.Reconcile? ==> op.now <= db.now / 1000)
      modifies this
      ensures Valid() && job == Job(call, id, op, defaultTtl) && origin == old(Now())
      ensures Under(Outside(Finished(r)))
      ensures Attempts(turns) <= 16 && ResultBacked(job, origin, turns, r)
      ensures Evolves(old(db), db)
    {
      job, origin, turns := Job(call, id, op, defaultTtl), Now(), [];
      assert Under(START);
      r := TryRepeatedly(call, id, op);
      UnderIsValid(Outside(Finished(r)));
      FinishedBacked(job, origin, turns, r);
    }

    method TryRepeatedly(call: nat, id: string, op: Op) returns (r: Result<Answer, StoreError>)
      requires Under(START) && job == Job(call, id, op, defaultTtl)
      modifies this`db, this`conn, this`turns
      ensures Under(Outside(Finished(r))) && Onward()
    {
      hide Under;
      for attempt := 0 to MAX_ATTEMPTS
        invariant Onward()
        invariant Under(Outside(
                          if attempt < MAX_ATTEMPTS then Trying(attempt)
                          else if op.Reconcile? then Reloading
                          else Finished(Err(Unavailable))))
      {
        Idle(Outside(Trying(attempt)));
        var _, _ := Send(Discard, Attempt(call, attempt, id, op, AtDiscard), Outside(Trying(attempt)));
        var result := TransitionAttempt(call, attempt, id, op);
        match result
        case Success(record, payload) =>
          return Ok(Answer(record, payload));
        case Unchanged(record) =>
          return Ok(Answer(record, None));
        case Conflict =>
        case Failure(error) =>
          if !error.Storage? {
            return Err(error);
          }
          var ok := ResetConnection(attempt);
          if !ok || attempt + 1 == MAX_ATTEMPTS {
            return Err(Storage);
          }
      }
      if !op.Reconcile? {
        return Err(Unavailable);
      }
      r := Reload(id);
    }
  }

  lemma FreshOk(db: Db, defaultTtl: nat)
    ensures ConnOk(db, defaultTtl, FRESH)
  {
  }
}
