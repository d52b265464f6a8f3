/**
 One call as its server sees it: the keys, the connection, and what happens to both, turn by turn. A turn is a command
 of the call, a new connection, or a move of everybody else. `Follow` is the program of the call, and a list of turns
 fixes what the call answers.
 */
module CallTrace {
  import opened Wrappers
  import opened Transitions
  import opened Redis
  import opened Protocol
  import opened Invariant

  datatype World = World(db: Db, conn: Conn)

  /** What others may do to the keys: write or remove any of them, and let time pass up to the next deadline. */
  datatype KeyChange = Overwrite(id: string, raw: Raw, ttl: nat) | Drop(id: string) | Pass(ms: nat)

  datatype Turn =
    | Send(command: Command, fate: Fate)
    | Replace(connected: bool)
    | LoadAgain(fails: bool)
    | Elsewhere(change: KeyChange)
    | LinkLost
    | LateArrival               // a command nobody waits for any more is carried out
    | LeftBehind(conn: Conn)    // other calls of this server used the connection

  datatype Job = Job(call: nat, id: string, op: Op, defaultTtl: nat)

  /** Where the call is: between attempts or done, or in an attempt. */
  datatype Control = Outside(phase: Phase) | Inside(number: nat, pc: Pc) | Astray

  function Altered(db: Db, change: KeyChange): Db {
    match change
    case Overwrite(id, raw, ttl) => Put(db, id, raw, ttl)
    case Drop(id) => Remove(db, id)
    case Pass(ms) =>
      if forall id | id in db.entries && db.entries[id].deadline.Some? :: db.now + ms <= db.entries[id].deadline.value
      then db.(now := db.now + ms)
      else db
  }

  function Reply(w: World, command: Command, fate: Fate): Redis.Reply
    requires CanIssue(w.conn, fate)
  {
    Issue(w.db, w.conn, command, fate).reply
  }

  function After(w: World, turn: Turn): World {
    match turn
    case Send(command, fate) =>
      if CanIssue(w.conn, fate)
      then World(Issue(w.db, w.conn, command, fate).db, Issue(w.db, w.conn, command, fate).conn)
      else w
    case Replace(connected) => if connected then w.(conn := FRESH) else w
    case LoadAgain(_) => w
    case Elsewhere(change) => w.(db := Altered(w.db, change))
    case LinkLost => w.(conn := FRESH.(lost := true))
    case LateArrival => if w.conn.inflight.Some? then World(Arrival(w.db, w.conn).db, Arrival(w.db, w.conn).conn) else w
    case LeftBehind(conn) => w.(conn := conn)
  }

  function Replay(w: World, turns: seq<Turn>): World
    decreases |turns|
  {
    if turns == [] then w else After(Replay(w, turns[..|turns| - 1]), turns[|turns| - 1])
  }

  function AttemptAt(job: Job, number: nat, pc: Pc): Attempt {
    Attempt(job.call, number, job.id, job.op, pc)
  }

  /** The attempt a command would belong to: the one under way, or the next one. */
  function Acting(job: Job, c: Control): Option<Attempt> {
    match c
    case Inside(number, pc) => Some(AttemptAt(job, number, pc))
    case Outside(Trying(number)) => Some(AttemptAt(job, number, AtDiscard))
    case _ => None
  }

  function Heard(a: Attempt, reply: Redis.Reply, now: nat, defaultTtl: nat): Control {
    match React(a, reply, now, defaultTtl)
    case Continue(pc) => Inside(a.number, pc)
    case End(result) => Outside(Settle(a.op, a.number, result))
  }

  function AfterReset(number: nat, connected: bool): Phase {
    if connected && number + 1 < MAX_ATTEMPTS then Trying(number + 1) else Finished(Err(Storage))
  }

  /** The program of a call: a turn that is not the next one of the program leads astray. */
  function Follow(job: Job, c: Control, w: World, turn: Turn): Control {
    match turn
    case Send(command, fate) =>
      var acting := Acting(job, c);
      if acting.None? || command != CommandOf(acting.value) || !CanIssue(w.conn, fate) then Astray
      else Heard(acting.value, Reply(w, command, fate), w.db.now, job.defaultTtl)
    case Replace(connected) =>
      if c.Outside? && c.phase.Broken? then Outside(AfterReset(c.phase.number, connected)) else Astray
    case LoadAgain(fails) =>
      if c == Outside(Reloading) then Outside(Finished(Reloaded(w.db, job.id, fails))) else Astray
    case LeftBehind(_) => if c.Outside? then c else Astray
    case _ => c
  }

  function Trace(job: Job, c: Control, w: World, turns: seq<Turn>): Control
    decreases |turns|
  {
    if turns == [] then c
    else
      var front := turns[..|turns| - 1];
      Follow(job, Trace(job, c, w, front), Replay(w, front), turns[|turns| - 1])
  }

  const START: Control := Outside(Trying(0))

  /** What others leave on the connection is nothing that could carry out a foreign write. */
  ghost predicate Decent(job: Job, w: World, turn: Turn) {
    turn.LeftBehind? ==> ConnOk(w.db, job.defaultTtl, turn.conn)
  }

  ghost predicate AllDecent(job: Job, w: World, turns: seq<Turn>) {
    forall i | 0 <= i < |turns| :: Decent(job, Replay(w, turns[..i]), turns[i])
  }

  lemma Appended(job: Job, c: Control, w: World, turns: seq<Turn>, turn: Turn)
    ensures Replay(w, turns + [turn]) == After(Replay(w, turns), turn)
    ensures Trace(job, c, w, turns + [turn]) == Follow(job, Trace(job, c, w, turns), Replay(w, turns), turn)
    ensures AllDecent(job, w, turns) && Decent(job, Replay(w, turns), turn) ==> AllDecent(job, w, turns + [turn])
  {
    hide After, Follow, Decent;
    assert (turns + [turn])[..|turns|] == turns;
    if AllDecent(job, w, turns) && Decent(job, Replay(w, turns), turn) {
      forall i | 0 <= i < |turns + [turn]|
        ensures Decent(job, Replay(w, (turns + [turn])[..i]), (turns + [turn])[i])
      {
        if i < |turns| {
          assert (turns + [turn])[..i] == turns[..i];
        }
      }
    }
  }

  // ----- What the call can rely on -------------------------------------------------------------

  lemma AlteredEvolves(db: Db, change: KeyChange)
    requires DbOk(db)
    ensures Evolves(db, Altered(db, change)) && DbOk(Altered(db, change))
  {
    match change
    case Overwrite(id, raw, ttl) => PutEvolves(db, id, raw, ttl, Stored);
    case Drop(id) => RemoveEvolves(db, id, Deleted);
    case Pass(_) =>
  }

  ghost predicate WorldOk(job: Job, w: World) {
    && job.defaultTtl >= 1
    && DbOk(w.db) && ConnOk(w.db, job.defaultTtl, w.conn)
    && (job.op.Reconcile? ==> job.op.now <= w.db.now / 1000)
  }

  ghost predicate ControlOk(job: Job, c: Control, w: World) {
    match c
    case Inside(number, pc) => AttemptOk(w.db, job.defaultTtl, w.conn, AttemptAt(job, number, pc))
    case _ => true
  }

  lemma TurnKeeps(job: Job, c: Control, w: World, turn: Turn)
    requires WorldOk(job, w) && ControlOk(job, c, w) && Decent(job, w, turn) && Follow(job, c, w, turn) != Astray
    ensures WorldOk(job, After(w, turn)) && ControlOk(job, Follow(job, c, w, turn), After(w, turn))
    ensures Evolves(w.db, After(w, turn).db)
  {
    match turn
    case Send(command, fate) => SendKeeps(job, c, w, command, fate);
    case Elsewhere(change) => ElsewhereKeeps(job, c, w, change);
    case LateArrival => ArrivalKeeps(job, c, w);
    case _ =>
  }

  lemma SendKeeps(job: Job, c: Control, w: World, command: Command, fate: Fate)
    requires WorldOk(job, w) && ControlOk(job, c, w) && Follow(job, c, w, Send(command, fate)) != Astray
    ensures WorldOk(job, After(w, Send(command, fate)))
    ensures ControlOk(job, Follow(job, c, w, Send(command, fate)), After(w, Send(command, fate)))
    ensures Evolves(w.db, After(w, Send(command, fate)).db)
  {
    hide Issue, AttemptOk, ConnOk, DbOk, Evolves, Outputs, React;
    var a := Acting(job, c).value;
    assert AttemptOk(w.db, job.defaultTtl, w.conn, a) by {
      StartsOk(w.db, job.defaultTtl, w.conn, a);
    }
    IssueSafe(w.db, job.defaultTtl, w.conn, a, fate);
    StepKeepsAttempt(w.db, job.defaultTtl, w.conn, a, fate);
    ClockGoesOn(w.db, After(w, Send(command, fate)).db);
  }

  lemma StartsOk(db: Db, defaultTtl: nat, conn: Conn, a: Attempt)
    ensures a.pc.AtDiscard? ==> AttemptOk(db, defaultTtl, conn, a)
  {
  }

  lemma ClockGoesOn(db: Db, db': Db)
    requires Evolves(db, db')
    ensures db.now <= db'.now
  {
  }

  lemma ElsewhereKeeps(job: Job, c: Control, w: World, change: KeyChange)
    requires WorldOk(job, w) && ControlOk(job, c, w)
    ensures var w' := After(w, Elsewhere(change)); WorldOk(job, w') && ControlOk(job, c, w') && Evolves(w.db, w'.db)
  {
    AlteredEvolves(w.db, change);
    ConnStable(w.db, Altered(w.db, change), job.defaultTtl, w.conn);
    if c.Inside? {
      AttemptStable(w.db, Altered(w.db, change), job.defaultTtl, w.conn, AttemptAt(job, c.number, c.pc));
    }
  }

  lemma ArrivalKeeps(job: Job, c: Control, w: World)
    requires WorldOk(job, w) && ControlOk(job, c, w)
    ensures var w' := After(w, LateArrival); WorldOk(job, w') && ControlOk(job, c, w') && Evolves(w.db, w'.db)
  {
    if w.conn.inflight.Some? {
      ExecuteSafe(w.db, job.defaultTtl, w.conn.(inflight := None), w.conn.inflight.value);
      if c.Inside? {
        assert c.pc.AtDiscard? || c.pc.AtWatch? || c.pc.AtUnwatch?;
      }
    }
  }

  // ----- What an answer stands for -------------------------------------------------------------

  /** Something that happened in one turn. */
  datatype Fact =
    | Wrote(answer: Answer)         // EXEC replaced the record it was prepared from
    | Read(raw: Option<Raw>)        // the call read this under its key
    | Failed                        // a command failed that must not
    | Refused                       // no new connection could be had
    | Conflicted(attempt: nat)      // EXEC gave up, in this attempt of the call

  function ContentsOf(db: Db, id: string): Option<Raw> {
    match Lookup(db, id)
    case None => None
    case Some(entry) => Some(entry.raw)
  }

  /** The turn replaced the record `t` was prepared from by what its operation makes of it, and nothing else. */
  ghost predicate Commits(job: Job, w: World, w': World, t: Ticket, answer: Answer) {
    && t.call == job.call && t.id == job.id && t.op == job.op
    && ContentsOf(w.db, job.id) == Some(Record(t.read))
    && Prepare(job.op, job.id, t.read) == Write(answer.record, answer.payload)
    && t.readAt <= w.db.now
    && t.ttl == WriteTtl(TtlReply(Lookup(w.db, job.id), t.readAt), job.defaultTtl)
    && w'.db == Put(w.db, job.id, Record(answer.record), t.ttl)
  }

  ghost predicate Shows(job: Job, w: World, turn: Turn, fact: Fact) {
    match fact
    case Wrote(answer) =>
      turn.Send? && turn.command.Exec? && Commits(job, w, After(w, turn), turn.command.issuer, answer)
    case Read(raw) =>
      && ((turn.Send? && turn.command == Get(job.id)) || turn == LoadAgain(false))
      && ContentsOf(w.db, job.id) == raw
    case Failed =>
      || (&& turn.Send? && !turn.command.Discard? && !turn.command.Unwatch?
          && CanIssue(w.conn, turn.fate) && Reply(w, turn.command, turn.fate).Error?)
      || turn == LoadAgain(true)
    case Refused => turn == Replace(false)
    case Conflicted(_) => turn.Send? && turn.command.Exec? && After(w, turn).db == w.db && !WatchHolds(w.db, w.conn)
  }

  /** Every attempt begins with a DISCARD. */
  function Attempts(turns: seq<Turn>): nat {
    if turns == [] then 0
    else
      var last := turns[|turns| - 1];
      Attempts(turns[..|turns| - 1]) + if last.Send? && last.command.Discard? then 1 else 0
  }

  ghost predicate Happened(job: Job, w: World, turns: seq<Turn>, fact: Fact) {
    exists i :: 0 <= i < |turns| && HappenedAt(job, w, turns, fact, i)
  }

  ghost predicate HappenedAt(job: Job, w: World, turns: seq<Turn>, fact: Fact, i: nat)
    requires i < |turns|
  {
    && Shows(job, Replay(w, turns[..i]), turns[i], fact)
    && (fact.Conflicted? ==> fact.attempt == Attempts(turns[..i]))
  }

  lemma HappenedStays(job: Job, w: World, turns: seq<Turn>, turn: Turn, fact: Fact)
    requires Happened(job, w, turns, fact)
    ensures Happened(job, w, turns + [turn], fact)
  {
    hide Shows, Replay;
    var i :| 0 <= i < |turns| && HappenedAt(job, w, turns, fact, i);
    assert (turns + [turn])[..i] == turns[..i] && (turns + [turn])[i] == turns[i];
    assert HappenedAt(job, w, turns + [turn], fact, i);
  }

  lemma HappensNow(job: Job, w: World, turns: seq<Turn>, turn: Turn, fact: Fact)
    requires Shows(job, Replay(w, turns), turn, fact) && (fact.Conflicted? ==> fact.attempt == Attempts(turns))
    ensures Happened(job, w, turns + [turn], fact)
  {
    hide Shows, Replay;
    assert (turns + [turn])[..|turns|] == turns && (turns + [turn])[|turns|] == turn;
    assert HappenedAt(job, w, turns + [turn], fact, |turns|);
  }

  /** What justifies each error that is not one of the connection, by the value the call read. */
  predicate Excuses(op: Op, id: string, raw: Option<Raw>, error: StoreError) {
    match raw
    case None => error.NotFound?
    case Some(Corrupt) => error.Serialization?
    case Some(Record(r)) => Prepare(op, id, r) == Reject(error)
  }

  ghost predicate Excused(job: Job, w: World, turns: seq<Turn>, error: StoreError) {
    exists raw :: Excuses(job.op, job.id, raw, error) && Happened(job, w, turns, Read(raw))
  }

  /** What each result of a call stands for. */
  ghost predicate ResultBacked(job: Job, w: World, turns: seq<Turn>, result: Result<Answer, StoreError>) {
    match result
    case Ok(answer) =>
      || Happened(job, w, turns, Wrote(answer))
      || (job.op.Reconcile? && answer.payload == None && Happened(job, w, turns, Read(Some(Record(answer.record)))))
    case Err(Storage) =>
      && Happened(job, w, turns, Failed)
      && (Attempts(turns) == 16 || Happened(job, w, turns, Refused))
    case Err(Unavailable) =>
      !job.op.Reconcile? && Attempts(turns) == 16 && Happened(job, w, turns, Conflicted(16))
    case Err(error) => Excused(job, w, turns, error)
  }

  ghost predicate AttemptBacked(job: Job, w: World, turns: seq<Turn>, result: AttemptResult) {
    match result
    case Success(_, _) => false
    case Unchanged(record) => job.op.Reconcile? && Happened(job, w, turns, Read(Some(Record(record))))
    case Conflict => Happened(job, w, turns, Conflicted(Attempts(turns)))
    case Failure(error) => if error.Storage? then Happened(job, w, turns, Failed)
      else !error.Unavailable? && Excused(job, w, turns, error)
  }

  ghost predicate Backed(job: Job, w: World, turns: seq<Turn>, c: Control) {
    match c
    case Astray => true
    case Inside(number, pc) =>
      && Attempts(turns) == number + 1 <= MAX_ATTEMPTS && !pc.AtDiscard?
      && (pc.AtUnwatch? ==> !pc.result.Conflict? && AttemptBacked(job, w, turns, pc.result))
    case Outside(phase) =>
      match phase
      case Trying(number) => Attempts(turns) == number < MAX_ATTEMPTS
      case Broken(number) => Attempts(turns) == number + 1 <= MAX_ATTEMPTS && Happened(job, w, turns, Failed)
      case Reloading => job.op.Reconcile? && Attempts(turns) == MAX_ATTEMPTS
      case Finished(result) => Attempts(turns) <= MAX_ATTEMPTS && ResultBacked(job, w, turns, result)
      case Dropped => true
  }

  lemma ExcusedStays(job: Job, w: World, turns: seq<Turn>, turn: Turn, error: StoreError)
    requires Excused(job, w, turns, error)
    ensures Excused(job, w, turns + [turn], error)
  {
    hide Happened, Excuses;
    var raw :| Excuses(job.op, job.id, raw, error) && Happened(job, w, turns, Read(raw));
    HappenedStays(job, w, turns, turn, Read(raw));
  }

  lemma AttemptsGrow(turns: seq<Turn>, turn: Turn)
    ensures Attempts(turns + [turn]) == Attempts(turns) + if turn.Send? && turn.command.Discard? then 1 else 0
  {
    assert (turns + [turn])[..|turns|] == turns;
  }

  lemma ResultStays(job: Job, w: World, turns: seq<Turn>, turn: Turn, result: Result<Answer, StoreError>)
    requires ResultBacked(job, w, turns, result) && !(turn.Send? && turn.command.Discard?)
    ensures ResultBacked(job, w, turns + [turn], result)
  {
    hide Happened, Excused;
    AttemptsGrow(turns, turn);
    forall fact | Happened(job, w, turns, fact)
      ensures Happened(job, w, turns + [turn], fact)
    {
      HappenedStays(job, w, turns, turn, fact);
    }
    if result.Err? && Excused(job, w, turns, result.error) {
      ExcusedStays(job, w, turns, turn, result.error);
    }
  }

  lemma AttemptStays(job: Job, w: World, turns: seq<Turn>, turn: Turn, result: AttemptResult)
    requires AttemptBacked(job, w, turns, result) && !result.Conflict?
    ensures AttemptBacked(job, w, turns + [turn], result)
  {
    hide Happened, Excused;
    forall fact | Happened(job, w, turns, fact)
      ensures Happened(job, w, turns + [turn], fact)
    {
      HappenedStays(job, w, turns, turn, fact);
    }
    if result.Failure? && Excused(job, w, turns, result.error) {
      ExcusedStays(job, w, turns, turn, result.error);
    }
  }

  /** A turn of somebody else leaves what is backed as it is. */
  lemma BackedStays(job: Job, w: World, turns: seq<Turn>, turn: Turn, c: Control)
    requires Backed(job, w, turns, c) && !(turn.Send? && turn.command.Discard?)
    ensures Backed(job, w, turns + [turn], c)
  {
    hide Happened, ResultBacked, AttemptBacked;
    AttemptsGrow(turns, turn);
    match c
    case Inside(_, AtUnwatch(result)) => AttemptStays(job, w, turns, turn, result);
    case Outside(Broken(_)) => HappenedStays(job, w, turns, turn, Failed);
    case Outside(Finished(result)) => ResultStays(job, w, turns, turn, result);
    case _ =>
  }

  /** The result of an attempt backs what its call makes of it. */
  lemma SettleBacked(job: Job, w: World, turns: seq<Turn>, number: nat, result: AttemptResult)
    requires Attempts(turns) == number + 1 <= MAX_ATTEMPTS
    requires if result.Success? then Happened(job, w, turns, Wrote(Answer(result.record, result.payload)))
             else AttemptBacked(job, w, turns, result)
    ensures Backed(job, w, turns, Outside(Settle(job.op, number, result)))
  {
    hide Happened, Excused;
  }

  // ----- One command ---------------------------------------------------------------------------

  /** What a reply shows to the attempt that gets it. */
  lemma ReplyShows(job: Job, w: World, number: nat, pc: Pc, fate: Fate)
    requires WorldOk(job, w) && AttemptOk(w.db, job.defaultTtl, w.conn, AttemptAt(job, number, pc))
    requires CanIssue(w.conn, fate)
    ensures var a := AttemptAt(job, number, pc);
            var reply := Reply(w, CommandOf(a), fate);
            var turn := Send(CommandOf(a), fate);
            && (reply.Error? && !pc.AtDiscard? && !pc.AtUnwatch? ==> Shows(job, w, turn, Failed))
            && (pc.AtGet? && !reply.Error? ==> reply.Value? && Shows(job, w, turn, Read(reply.raw)))
            && (pc.AtTtl? && !reply.Error? ==> reply.Seconds?)
            && (pc.AtExec? && !reply.Error? ==>
                  && reply.ExecReply?
                  && (reply.committed ==> Shows(job, w, turn, Wrote(Answer(pc.ticket.written, pc.ticket.payload))))
                  && (!reply.committed ==> forall n :: Shows(job, w, turn, Conflicted(n))))
  {
    hide Prepare, Put, WriteTtl;
    if pc.AtExec? && !w.conn.lost {
      ExecCommits(w.db, job.defaultTtl, w.conn, pc.ticket);
    }
  }

  /** What the call read backs what it makes of it. */
  lemma GetBacked(job: Job, w: World, turns: seq<Turn>, raw: Option<Raw>, result: AttemptResult)
    requires Happened(job, w, turns, Read(raw)) && AfterGet(job.id, job.op, raw) == AtUnwatch(result)
    ensures AttemptBacked(job, w, turns, result)
  {
    hide Happened;
    if result.Failure? {
      assert Excuses(job.op, job.id, raw, result.error);
    }
  }

  /** The reply to the last command of an attempt, and what has happened by it. */
  ghost predicate Evident(job: Job, w: World, turns: seq<Turn>, pc: Pc, reply: Redis.Reply) {
    && (reply.Error? && !pc.AtDiscard? && !pc.AtUnwatch? ==> Happened(job, w, turns, Failed))
    && (pc.AtGet? && !reply.Error? ==> reply.Value? && Happened(job, w, turns, Read(reply.raw)))
    && (pc.AtTtl? && !reply.Error? ==> reply.Seconds?)
    && (pc.AtExec? && !reply.Error? ==>
          && reply.ExecReply?
          && (reply.committed ==> Happened(job, w, turns, Wrote(Answer(pc.ticket.written, pc.ticket.payload))))
          && (!reply.committed ==> Happened(job, w, turns, Conflicted(Attempts(turns)))))
  }

  lemma ReplyEvident(job: Job, w0: World, turns: seq<Turn>, number: nat, pc: Pc, fate: Fate)
    requires var w := Replay(w0, turns);
             && WorldOk(job, w) && CanIssue(w.conn, fate)
             && AttemptOk(w.db, job.defaultTtl, w.conn, AttemptAt(job, number, pc))
    ensures var command := CommandOf(AttemptAt(job, number, pc));
            Evident(job, w0, turns + [Send(command, fate)], pc, Reply(Replay(w0, turns), command, fate))
  {
    var w := Replay(w0, turns);
    var turn := Send(CommandOf(AttemptAt(job, number, pc)), fate);
    ReplyShows(job, w, number, pc, fate);
    assert pc.AtExec? ==> turn.command.Exec?;
    hide Replay, WorldOk, AttemptOk, Reply, Shows, Happened, CommandOf, Attempts;
    AttemptsGrow(turns, turn);
    forall fact | Shows(job, w, turn, fact) && (fact.Conflicted? ==> fact.attempt == Attempts(turns))
      ensures Happened(job, w0, turns + [turn], fact)
    {
      HappensNow(job, w0, turns, turn, fact);
    }
  }

  /** What an attempt makes of a reply is backed by it. */
  lemma HeardBacked(job: Job, w: World, turns: seq<Turn>, number: nat, pc: Pc, reply: Redis.Reply, now: nat)
    requires Evident(job, w, turns, pc, reply) && Attempts(turns) == number + 1 <= MAX_ATTEMPTS
    requires pc.AtUnwatch? ==> !pc.result.Conflict? && AttemptBacked(job, w, turns, pc.result)
    ensures Backed(job, w, turns, Heard(AttemptAt(job, number, pc), reply, now, job.defaultTtl))
  {
    var a := AttemptAt(job, number, pc);
    hide Happened, Settle, Prepare, Excused, Attempts;
    match React(a, reply, now, job.defaultTtl)
    case Continue(pc') =>
      if pc.AtGet? && pc'.AtUnwatch? {
        GetBacked(job, w, turns, reply.raw, pc'.result);
      }
    case End(result) => SettleBacked(job, w, turns, number, result);
  }

  /** A command of the call backs where it takes the call. */
  lemma SendBacked(job: Job, w0: World, turns: seq<Turn>, c: Control, fate: Fate)
    requires var w := Replay(w0, turns); WorldOk(job, w) && ControlOk(job, c, w) && CanIssue(w.conn, fate)
    requires Backed(job, w0, turns, c) && Acting(job, c).Some?
    ensures var turn := Send(CommandOf(Acting(job, c).value), fate);
            Backed(job, w0, turns + [turn], Follow(job, c, Replay(w0, turns), turn))
  {
    var w, a := Replay(w0, turns), Acting(job, c).value;
    var turn := Send(CommandOf(a), fate);
    StartsOk(w.db, job.defaultTtl, w.conn, a);
    ReplyEvident(job, w0, turns, a.number, a.pc, fate);
    AttemptsGrow(turns, turn);
    if a.pc.AtUnwatch? {
      AttemptStays(job, w0, turns, turn, a.pc.result);
    }
    hide Replay, WorldOk, ControlOk, AttemptOk, Reply, Evident, AttemptBacked, Heard;
    HeardBacked(job, w0, turns + [turn], a.number, a.pc, Reply(w, turn.command, fate), w.db.now);
  }

  /** What the call does between its attempts backs where it takes the call. */
  lemma BetweenBacked(job: Job, w0: World, turns: seq<Turn>, c: Control, turn: Turn)
    requires Backed(job, w0, turns, c) && (turn.Replace? || turn.LoadAgain?)
    ensures Backed(job, w0, turns + [turn], Follow(job, c, Replay(w0, turns), turn))
  {
    var w := Replay(w0, turns);
    AttemptsGrow(turns, turn);
    hide Replay, Happened;
    forall fact | Shows(job, w, turn, fact) && !fact.Conflicted?
      ensures Happened(job, w0, turns + [turn], fact)
    {
      HappensNow(job, w0, turns, turn, fact);
    }
    match turn
    case Replace(connected) =>
      if c.Outside? && c.phase.Broken? {
        HappenedStays(job, w0, turns, turn, Failed);
        assert !connected ==> Shows(job, w, turn, Refused);
      }
    case LoadAgain(fails) =>
      var raw := ContentsOf(w.db, job.id);
      assert if fails then Shows(job, w, turn, Failed) else Shows(job, w, turn, Read(raw));
      if c == Outside(Reloading) && !fails {
        var result := Reloaded(w.db, job.id, fails);
        if result.Err? {
          assert Excuses(job.op, job.id, raw, result.error);
        }
      }
  }

  lemma TurnBacked(job: Job, w0: World, turns: seq<Turn>, c: Control, turn: Turn)
    requires var w := Replay(w0, turns); WorldOk(job, w) && ControlOk(job, c, w)
    requires Backed(job, w0, turns, c)
    ensures Backed(job, w0, turns + [turn], Follow(job, c, Replay(w0, turns), turn))
  {
    hide Replay, WorldOk, ControlOk, Backed, CommandOf;
    if Follow(job, c, Replay(w0, turns), turn) == Astray {
      AstrayBacked(job, w0, turns + [turn]);
    } else {
      match turn
      case Send(_, fate) => SendBacked(job, w0, turns, c, fate);
      case Replace(_) => BetweenBacked(job, w0, turns, c, turn);
      case LoadAgain(_) => BetweenBacked(job, w0, turns, c, turn);
      case _ => BackedStays(job, w0, turns, turn, c);
    }
  }

  lemma AstrayBacked(job: Job, w: World, turns: seq<Turn>)
    ensures Backed(job, w, turns, Astray)
  {
  }

  // ----- Whole calls ---------------------------------------------------------------------------

  /**
   Whatever others do between its commands, a call that keeps to its program keeps the keys and its connection fine,
   changes no key it did not mean to, and what it answers stands for something that happened.
   */
  lemma {:induction false} TraceBacked(job: Job, w: World, turns: seq<Turn>)
    requires WorldOk(job, w) && AllDecent(job, w, turns) && Trace(job, START, w, turns) != Astray
    ensures var w' := Replay(w, turns);
            WorldOk(job, w') && ControlOk(job, Trace(job, START, w, turns), w') && Evolves(w.db, w'.db)
    ensures Backed(job, w, turns, Trace(job, START, w, turns))
    decreases |turns|
  {
    if turns != [] {
      var front, last := turns[..|turns| - 1], turns[|turns| - 1];
      assert front + [last] == turns;
      hide WorldOk, ControlOk, Backed, Evolves;
      DecentFront(job, w, turns);
      AstrayForGood(job, Replay(w, front), last);
      TraceBacked(job, w, front);
      var c := Trace(job, START, w, front);
      TurnKeeps(job, c, Replay(w, front), last);
      TurnBacked(job, w, front, c, last);
      EvolvesTransitive(w.db, Replay(w, front).db, Replay(w, turns).db);
    }
  }

  lemma AstrayForGood(job: Job, w: World, turn: Turn)
    ensures Follow(job, Astray, w, turn) == Astray
  {
  }

  lemma DecentFront(job: Job, w: World, turns: seq<Turn>)
    requires turns != [] && AllDecent(job, w, turns)
    ensures AllDecent(job, w, turns[..|turns| - 1])
    ensures Decent(job, Replay(w, turns[..|turns| - 1]), turns[|turns| - 1])
  {
    hide Decent;
    var front := turns[..|turns| - 1];
    forall i | 0 <= i < |front|
      ensures Decent(job, Replay(w, front[..i]), front[i])
    {
      assert front[..i] == turns[..i];
    }
  }

  /** What a finished call stands for. */
  lemma FinishedBacked(job: Job, w: World, turns: seq<Turn>, result: Result<Answer, StoreError>)
    requires WorldOk(job, w) && AllDecent(job, w, turns) && Trace(job, START, w, turns) == Outside(Finished(result))
    ensures Attempts(turns) <= 16 && ResultBacked(job, w, turns, result)
    ensures Evolves(w.db, Replay(w, turns).db)
  {
    hide Replay, Evolves, AllDecent, WorldOk, Trace, ResultBacked;
    TraceBacked(job, w, turns);
  }
}
