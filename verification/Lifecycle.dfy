/**
 What the log of any schedule says about one record's life. A *generation* of a record is a stretch of the log
 in which only transitions touch it: between two blind writes, deletes or expiries.
 */
module Lifecycle {
  import opened Wrappers
  import opened Model
  import opened Transitions
  import opened Redis
  import opened Protocol
  import opened Invariant
  import opened Safety
  import Json

  ghost predicate Reachable(s: System) {
    exists s0, actions :: Initial(s0) && s == Run(s0, actions)
  }

  lemma ReachableInv(s: System)
    requires Reachable(s)
    ensures Inv(s)
  {
    hide Inv;
    var s0, actions :| Initial(s0) && s == Run(s0, actions);
    InitialInv(s0);
    RunKeeps(s0, actions);
  }

  /** A commit on record `id` at position `i` of the log. */
  ghost predicate CommitAt(s: System, id: string, i: nat) {
    i < |s.log| && s.log[i].id == id && s.log[i].cause.Committed?
  }

  ghost function OpAt(s: System, i: nat): Op
    requires i < |s.log| && s.log[i].cause.Committed?
  {
    s.log[i].cause.writer.op
  }

  /** Nothing but transitions touches the record strictly between the two positions. */
  ghost predicate OneGeneration(s: System, id: string, i: nat, j: nat) {
    && i < j <= |s.log|
    && forall k | i < k < j && s.log[k].id == id :: s.log[k].cause.Committed?
  }

  ghost predicate Untouched(s: System, id: string, i: nat, j: nat) {
    i < j <= |s.log| && forall k | i < k < j :: s.log[k].id != id
  }

  /** What is stored under `id` before position `i` of the log. */
  ghost function Before(s: System, id: string, i: nat): Option<Entry>
    requires i <= |s.log|
  {
    Current(s.origin, s.log[..i], id)
  }

  lemma BeforeStep(s: System, id: string, i: nat)
    requires i < |s.log|
    ensures Before(s, id, i + 1) == if s.log[i].id == id then s.log[i].after else Before(s, id, i)
  {
    assert s.log[..i + 1][..i] == s.log[..i];
  }

  lemma {:induction false} UntouchedStays(s: System, id: string, i: nat, j: nat)
    requires Untouched(s, id, i, j)
    ensures Before(s, id, j) == Before(s, id, i + 1)
    decreases j
  {
    if i + 1 < j {
      UntouchedStays(s, id, i, j - 1);
      BeforeStep(s, id, j - 1);
    }
  }

  /** The facts a commit rests on, and what they say about the lifecycle. */
  lemma CommitFacts(s: System, id: string, i: nat)
    requires Inv(s) && CommitAt(s, id, i)
    ensures CommitOk(s.defaultTtl, s.log[i])
    ensures var t := s.log[i].cause.writer;
            && s.log[i].before == Before(s, id, i)
            && t.id == id
            && Writes(t.op, id, t.read)
            && Rank(t.read) < Rank(t.written)
            && (t.op.Claim? <==> Rank(t.written) == 1)
            && FromCall(s, t)
  {
    var t := s.log[i].cause.writer;
    assert EventOk(s.defaultTtl, s.log[i]);
    WriteAdvances(t.op, id, t.read);
  }

  /** Once a record is terminal, no transition touches it for the rest of the generation. */
  lemma {:induction false} TerminalStays(s: System, id: string, i: nat, j: nat)
    requires Inv(s) && OneGeneration(s, id, i, j)
    requires var entry := Before(s, id, i + 1);
             entry.Some? && entry.value.raw.Record? && Rank(entry.value.raw.record) == 2
    ensures Untouched(s, id, i, j)
    decreases j
  {
    hide Inv, TicketOk, Prepare, Status;
    if i + 1 < j {
      TerminalStays(s, id, i, j - 1);
      UntouchedStays(s, id, i, j - 1);
      if s.log[j - 1].id == id {
        CommitFacts(s, id, j - 1);
        var t := s.log[j - 1].cause.writer;
        WritesExactly(t.op, id, t.read);
        assert false;
      }
    }
  }

  /**
   Two commits of one generation are a claim followed by a completion or a failure, with nothing in between, and
   the second replaces exactly what the first wrote.
   */
  lemma {:induction false} GenerationShape(s: System, id: string, i: nat, j: nat)
    requires Inv(s) && CommitAt(s, id, i) && CommitAt(s, id, j) && OneGeneration(s, id, i, j)
    ensures OpAt(s, i).Claim?
    ensures OpAt(s, j).Complete? || OpAt(s, j).Fail?
    ensures Untouched(s, id, i, j) && s.log[j].before == s.log[i].after
    decreases j - i
  {
    CommitFacts(s, id, i);
    CommitFacts(s, id, j);
    BeforeStep(s, id, i);
    var ti, tj := s.log[i].cause.writer, s.log[j].cause.writer;
    WritesExactly(ti.op, id, ti.read);
    WritesExactly(tj.op, id, tj.read);
    if Rank(ti.written) == 2 {
      TerminalStays(s, id, i, j);
      UntouchedStays(s, id, i, j);
    }
    forall k | i < k < j
      ensures s.log[k].id != id
    {
      if s.log[k].id == id {
        GenerationShape(s, id, i, k);
        GenerationShape(s, id, k, j);
        assert false;
      }
    }
    UntouchedStays(s, id, i, j);
  }

  // ----- Theorems ------------------------------------------------------------------------------

  /** A generation has at most one claim, at most one terminal commit, and no third commit of any kind. */
  lemma LifecycleSafety(s: System, id: string, i: nat, j: nat)
    requires Reachable(s) && CommitAt(s, id, i) && CommitAt(s, id, j) && OneGeneration(s, id, i, j)
    ensures OpAt(s, i).Claim? && !OpAt(s, j).Claim? && !OpAt(s, j).Reconcile?
    ensures Rank(s.log[i].cause.writer.read) == 0 && Rank(s.log[j].cause.writer.read) == 1
    ensures Rank(s.log[j].cause.writer.written) == 2
    ensures forall k :: OneGeneration(s, id, j, k) ==> !CommitAt(s, id, k)
  {
    ReachableInv(s);
    GenerationShape(s, id, i, j);
    CommitFacts(s, id, i);
    CommitFacts(s, id, j);
    WritesExactly(OpAt(s, i), id, s.log[i].cause.writer.read);
    WritesExactly(OpAt(s, j), id, s.log[j].cause.writer.read);
    forall k | OneGeneration(s, id, j, k)
      ensures !CommitAt(s, id, k)
    {
      if CommitAt(s, id, k) {
        GenerationShape(s, id, j, k);
        assert false;
      }
    }
  }

  /** However many attempts it makes and replies it loses, a call takes effect at most once in a generation. */
  lemma CallCommitsOnce(s: System, id: string, i: nat, j: nat)
    requires Reachable(s) && CommitAt(s, id, i) && CommitAt(s, id, j) && OneGeneration(s, id, i, j)
    ensures s.log[i].cause.writer.call != s.log[j].cause.writer.call
  {
    ReachableInv(s);
    GenerationShape(s, id, i, j);
    CommitFacts(s, id, i);
    CommitFacts(s, id, j);
  }

  /** A claim, completion or failure that answers with a record has committed exactly that record. */
  lemma AnswerIsCommitted(s: System, call: nat)
    requires Reachable(s) && call in s.calls && !s.calls[call].op.Reconcile?
    requires s.calls[call].phase.Finished? && s.calls[call].phase.result.Ok?
    ensures var answer := s.calls[call].phase.result.value;
            exists i: nat ::
              && CommitAt(s, s.calls[call].id, i)
              && s.log[i].cause.writer.call == call
              && OpAt(s, i) == s.calls[call].op
              && s.log[i].after.Some?
              && s.log[i].after.value.raw == Record(answer.record)
              && Prepare(OpAt(s, i), s.calls[call].id, s.log[i].cause.writer.read) == Write(answer.record, answer.payload)
  {
    ReachableInv(s);
    var answer := s.calls[call].phase.result.value;
    assert Justified(s.log, call, answer);
    var i :| 0 <= i < |s.log| && Justifies(s.log[i], call, answer);
    assert EventOk(s.defaultTtl, s.log[i]) && FromCall(s, s.log[i].cause.writer);
    assert CommitAt(s, s.calls[call].id, i);
  }

  /** A generation that a blind write opened, up to a commit of it. */
  ghost predicate Opens(s: System, id: string, start: nat, j: nat) {
    && start < j
    && CommitAt(s, id, j)
    && OneGeneration(s, id, start, j)
    && s.log[start].id == id
    && s.log[start].after.Some?
    && s.log[start].after.value.raw.Record?
    && !s.log[start].cause.Committed?
  }

  ghost function Opening(s: System, start: nat): StoredResponse
    requires start < |s.log| && s.log[start].after.Some? && s.log[start].after.value.raw.Record?
  {
    s.log[start].after.value.raw.record
  }

  lemma OpeningIsRead(s: System, id: string, start: nat, j: nat)
    requires Inv(s) && Opens(s, id, start, j) && Untouched(s, id, start, j)
    ensures s.log[j].cause.writer.read == Opening(s, start)
  {
    CommitFacts(s, id, j);
    BeforeStep(s, id, start);
    UntouchedStays(s, id, start, j);
  }

  /** The first commit of a generation, if not this one, is a claim of the opening record. */
  lemma EarlierCommitIsClaim(s: System, id: string, start: nat, j: nat) returns (i: nat)
    requires Inv(s) && Opens(s, id, start, j) && !Untouched(s, id, start, j)
    ensures start < i < j && Opens(s, id, start, i) && OpAt(s, i).Claim? && !OpAt(s, j).Claim?
    ensures Untouched(s, id, start, i) && s.log[i].after == s.log[j].before
  {
    i :| start < i < j && s.log[i].id == id;
    GenerationShape(s, id, i, j);
    if k :| start < k < i && s.log[k].id == id {
      GenerationShape(s, id, k, i);
      assert false;
    }
  }

  /** A job queued by a blind write is completed only after it was claimed in that same generation. */
  lemma CompletionFollowsClaim(s: System, id: string, start: nat, j: nat)
    requires Reachable(s) && Opens(s, id, start, j) && OpAt(s, j).Complete?
    requires Status(Opening(s, start)) == Some("queued")
    ensures exists i :: start < i < j && CommitAt(s, id, i) && OpAt(s, i).Claim?
  {
    ReachableInv(s);
    if Untouched(s, id, start, j) {
      OpeningIsRead(s, id, start, j);
      CommitFacts(s, id, j);
      WritesExactly(OpAt(s, j), id, Opening(s, start));
      assert false;
    } else {
      var i := EarlierCommitIsClaim(s, id, start, j);
    }
  }

  /** A successful claim hands out exactly what the blind write that opened the generation stored. */
  lemma ClaimReturnsOpeningPayload(s: System, id: string, start: nat, j: nat)
    requires Reachable(s) && Opens(s, id, start, j) && OpAt(s, j).Claim?
    ensures var opening, t := Opening(s, start), s.log[j].cause.writer;
            && opening.pendingUpstreamRequest.Some?
            && t.payload == Some(ClaimPayload(
                 opening.upstream, opening.pendingUpstreamRequest.value, opening.upstreamAuthorization))
            && t.written.pendingUpstreamRequest == opening.pendingUpstreamRequest
            && t.written.upstreamAuthorization == opening.upstreamAuthorization
            && forall key | key !in {"id", "status", "background"} ::
                 Json.Get(t.written.response, key) == Json.Get(opening.response, key)
  {
    ReachableInv(s);
    if !Untouched(s, id, start, j) {
      var i := EarlierCommitIsClaim(s, id, start, j);
      assert false;
    }
    OpeningIsRead(s, id, start, j);
    CommitFacts(s, id, j);
    WriteKeepsPayload(Claim, id, Opening(s, start));
    forall key | key !in {"id", "status", "background"}
      ensures Json.Get(s.log[j].cause.writer.written.response, key) == Json.Get(Opening(s, start).response, key)
    {
      ClaimKeepsBody(id, Opening(s, start), key);
    }
  }

  /** What the last commit of a generation stores: the caller's completed body, or why the job failed. */
  lemma GenerationEnds(s: System, id: string, j: nat)
    requires Reachable(s) && CommitAt(s, id, j) && !OpAt(s, j).Claim?
    ensures s.log[j].after.Some? && s.log[j].after.value.raw.Record?
    ensures var op, response := OpAt(s, j), s.log[j].after.value.raw.record.response;
            match op
            case Complete(body) =>
              && Json.GetText(response, "id") == Some(id) && Json.GetText(response, "status") == Some("completed")
              && Json.Get(response, "background") == Some(Json.Bool(true))
              && forall key | key !in {"id", "status", "background"} :: Json.Get(response, key) == Json.Get(body, key)
            case Fail(message) => Fails(response, id, message)
            case _ => Fails(response, id, "background response stale")
  {
    ReachableInv(s);
    CommitFacts(s, id, j);
    var t := s.log[j].cause.writer;
    WriteAdvances(t.op, id, t.read);
    FailureTellsWhy(t.op, id, t.read);
    hide Inv, Fails;
    if t.op.Complete? {
      forall key | key !in {"id", "status", "background"}
        ensures Json.Get(t.written.response, key) == Json.Get(t.op.body, key)
      {
        CompletionKeepsBody(id, t.read, t.op.body, key);
      }
    }
  }

  /** Through a whole generation the input, upstream and enqueue time stay; the secrets go with the last commit. */
  lemma GenerationKeepsRecord(s: System, id: string, start: nat, j: nat)
    requires Reachable(s) && Opens(s, id, start, j)
    ensures var opening, written := Opening(s, start), s.log[j].cause.writer.written;
            && written.input == opening.input
            && written.upstream == opening.upstream
            && written.enqueuedAt == opening.enqueuedAt
            && (Rank(written) == 2 ==> written.pendingUpstreamRequest == None && written.upstreamAuthorization == None)
  {
    ReachableInv(s);
    CommitFacts(s, id, j);
    WriteKeepsPayload(OpAt(s, j), id, s.log[j].cause.writer.read);
    if Untouched(s, id, start, j) {
      OpeningIsRead(s, id, start, j);
    } else {
      var i := EarlierCommitIsClaim(s, id, start, j);
      OpeningIsRead(s, id, start, i);
      CommitFacts(s, id, i);
      WriteKeepsPayload(OpAt(s, i), id, s.log[i].cause.writer.read);
    }
  }

  /** An EXEC that commits while its reply is lost: the call only knows that its connection broke. */
  lemma LostExecStep(s: System, server: nat)
    requires Inv(s) && Holding(s, server) && s.servers[server].attempt.value.pc.AtExec?
    requires !s.servers[server].conn.lost && WatchHolds(s.db, s.servers[server].conn)
    ensures var a := s.servers[server].attempt.value;
            var t := a.pc.ticket;
            var s1 := StepServer(s, server, ReplyLost);
            && t.call == a.call && t.call in s1.calls && s1.calls[t.call] == Call(server, a.id, a.op, Broken(a.number))
            && LockFree(s1, server)
            && s1.db == Put(s.db, t.id, Record(t.written), t.ttl)
            && s1.log == s.log + [Change(s.db, s1.db, t.id, Committed(t, t))]
  {
    hide LogMatches, AnswersOk, TicketsFromCalls, ZombiesOk, Prepare, Execute, RunQueue;
    var Server(conn, attempt) := s.servers[server];
    assert ServerOk(s, s.servers[server]) && HolderOk(s, server, attempt.value);
    ExecCommits(s.db, s.defaultTtl, conn, attempt.value.pc.ticket);
  }

  /**
   An error does not mean no effect: whenever an EXEC would commit, losing its reply and failing to reconnect leaves
   the call with a storage error and the record changed.
   */
  lemma ErrorMayHideCommit(s: System, server: nat)
    requires Inv(s) && Holding(s, server) && s.servers[server].attempt.value.pc.AtExec?
    requires !s.servers[server].conn.lost && WatchHolds(s.db, s.servers[server].conn)
    ensures var t := s.servers[server].attempt.value.pc.ticket;
            var s2 := Apply(StepServer(s, server, ReplyLost), Reset(t.call, false));
            && t.call in s2.calls && s2.calls[t.call].phase == Finished(Err(Storage))
            && s2.log == s.log + [Change(s.db, s2.db, t.id, Committed(t, t))]
            && Lookup(s2.db, t.id) == Some(Entry(Record(t.written), Some(s.db.now + 1000 * t.ttl)))
  {
    hide Inv, StepServer;
    LostExecStep(s, server);
  }
}
