/** The pure record-to-record steps of the background lifecycle, and what each of them keeps. */
module Transitions {
  import opened Wrappers
  import opened Model
  import Json

  datatype StoreError =
    | NotFound
    | FailedPrecondition
    | InvalidArgument
    | Serialization
    | Storage
    | Unavailable

  datatype ClaimPayload = ClaimPayload(
    upstream: string,
    pendingUpstreamRequest: Json.Value,
    upstreamAuthorization: Option<string>)

  /** The four optimistic transitions, with the arguments their closures capture. */
  datatype Op =
    | Claim
    | Complete(body: Json.Value)
    | Fail(message: string)
    | Reconcile(now: I64, staleSeconds: I64)

  /** What a transition decides to do with the record it read. */
  datatype Decision =
    | Write(record: StoredResponse, payload: Option<ClaimPayload>)
    | Keep
    | Reject(error: StoreError)

  function FailedBody(id: string, message: string): Json.Value {
    Json.Object(map[
      "id" := Json.Text(id),
      "object" := Json.Text("response"),
      "status" := Json.Text("failed"),
      "background" := Json.Bool(true),
      "error" := Json.Object(map["message" := Json.Text(message), "type" := Json.Text("server_error")])])
  }

  function Stamped(body: Json.Value, id: string, status: string): Json.Value
    requires body.Object?
  {
    Json.Put(Json.Put(Json.Put(body, "id", Json.Text(id)), "status", Json.Text(status)), "background", Json.Bool(true))
  }

  function Cleared(stored: StoredResponse, body: Json.Value): StoredResponse {
    stored.(response := body, pendingUpstreamRequest := None, upstreamAuthorization := None)
  }

  function PrepareClaim(stored: StoredResponse, id: string): Decision {
    if IsTerminal(stored) then Reject(FailedPrecondition)
    else if IsInProgress(stored) then Reject(FailedPrecondition)
    else if !IsClaimable(stored) then Reject(FailedPrecondition)
    else
      Write(stored.(response := Stamped(stored.response, id, "in_progress")),
            Some(ClaimPayload(stored.upstream, stored.pendingUpstreamRequest.value, stored.upstreamAuthorization)))
  }

  function PrepareComplete(stored: StoredResponse, id: string, body: Json.Value): Decision {
    if !body.Object? then Reject(InvalidArgument)
    else if IsTerminal(stored) then Reject(FailedPrecondition)
    else if !IsInProgress(stored) then Reject(FailedPrecondition)
    else Write(Cleared(stored, Stamped(body, id, "completed")), None)
  }

  function PrepareFail(stored: StoredResponse, id: string, message: string): Decision {
    if IsTerminal(stored) then Reject(FailedPrecondition)
    else if !IsClaimable(stored) && !IsInProgress(stored) then Reject(FailedPrecondition)
    else Write(Cleared(stored, FailedBody(id, message)), None)
  }

  function ApplyStaleFailure(stored: StoredResponse, id: string): StoredResponse {
    Cleared(stored, FailedBody(id, "background response stale"))
  }

  function PrepareReconcile(stored: StoredResponse, id: string, now: I64, staleSeconds: I64): Decision {
    if !ShouldReconcileStale(stored) || !IsStaleEnqueued(stored.enqueuedAt, now, staleSeconds) then Keep
    else Write(ApplyStaleFailure(stored, id), None)
  }

  function Prepare(op: Op, id: string, stored: StoredResponse): Decision {
    match op
    case Claim => PrepareClaim(stored, id)
    case Complete(body) => PrepareComplete(stored, id, body)
    case Fail(message) => PrepareFail(stored, id, message)
    case Reconcile(now, staleSeconds) => PrepareReconcile(stored, id, now, staleSeconds)
  }

  /** The record DeleteResponse leaves behind for a job that is still in flight. */
  function Tombstone(stored: StoredResponse, id: string): StoredResponse {
    Cleared(stored, Json.Object(map[
      "id" := Json.Text(id),
      "object" := Json.Text("response"),
      "status" := Json.Text("deleted"),
      "background" := Json.Bool(true),
      "deleted" := Json.Bool(true)]))
  }

  // ----- The lifecycle order -------------------------------------------------------------------

  /** Queued, then in progress, then terminal; anything else stands outside the lifecycle. */
  function Rank(stored: StoredResponse): int {
    if Status(stored) == Some("queued") then 0
    else if IsInProgress(stored) then 1
    else if IsTerminal(stored) then 2
    else -1
  }

  /** The ranks by the text of the status alone. */
  lemma RankExactly(stored: StoredResponse)
    ensures var status := Json.GetText(stored.response, "status");
            && (Rank(stored) == 0 <==> status == Some("queued"))
            && (Rank(stored) == 1 <==> status == Some("in_progress"))
            && (Rank(stored) == 2 <==> status in {Some("deleted"), Some("cancelled"), Some("completed"), Some("failed")})
            && -1 <= Rank(stored) <= 2
  {
  }

  predicate Writes(op: Op, id: string, stored: StoredResponse) {
    Prepare(op, id, stored).Write?
  }

  function Target(op: Op): string {
    match op
    case Claim => "in_progress"
    case Complete(_) => "completed"
    case _ => "failed"
  }

  /** Exactly when each transition goes through, in terms of the lifecycle rank. */
  lemma WritesExactly(op: Op, id: string, stored: StoredResponse)
    ensures op.Claim? ==> (Writes(op, id, stored) <==> Rank(stored) == 0 && stored.pendingUpstreamRequest.Some?)
    ensures op.Complete? ==> (Writes(op, id, stored) <==> Rank(stored) == 1 && op.body.Object?)
    ensures op.Fail? ==> (Writes(op, id, stored)
                          <==> Rank(stored) == 1 || (Rank(stored) == 0 && stored.pendingUpstreamRequest.Some?))
    ensures op.Reconcile? ==> (Writes(op, id, stored)
                               <==> Rank(stored) == 0 && IsStaleEnqueued(stored.enqueuedAt, op.now, op.staleSeconds))
  {
  }

  /** What each transition answers when it does not write: which rejection, and when the record is kept as it is. */
  lemma RefusesExactly(op: Op, id: string, stored: StoredResponse)
    ensures var status, decision := Json.GetText(stored.response, "status"), Prepare(op, id, stored);
            match op
            case Claim =>
              if status == Some("queued") && stored.pendingUpstreamRequest.Some? then decision.Write?
              else decision == Reject(FailedPrecondition)
            case Complete(body) =>
              if !body.Object? then decision == Reject(InvalidArgument)
              else if status == Some("in_progress") then decision.Write?
              else decision == Reject(FailedPrecondition)
            case Fail(_) =>
              if status == Some("in_progress") || (status == Some("queued") && stored.pendingUpstreamRequest.Some?)
              then decision.Write?
              else decision == Reject(FailedPrecondition)
            case Reconcile(now, staleSeconds) =>
              if && status == Some("queued") && stored.enqueuedAt.Some?
                 && (now - stored.enqueuedAt.value >= staleSeconds || staleSeconds == I64_MIN)
              then decision.Write?
              else decision == Keep
  {
    if op.Reconcile? && stored.enqueuedAt.Some? {
      StaleIsExactAge(stored.enqueuedAt.value, op.now, op.staleSeconds);
    }
  }

  /** Every write raises the rank, lands on the status of its operation and names the record it is stored under. */
  lemma WriteAdvances(op: Op, id: string, stored: StoredResponse)
    requires Writes(op, id, stored)
    ensures var record := Prepare(op, id, stored).record;
            && Status(record) == Json.GetText(record.response, "status") == Some(Target(op))
            && (op.Claim? ==> Json.GetText(record.response, "status") == Some("in_progress"))
            && (op.Complete? ==> Json.GetText(record.response, "status") == Some("completed"))
            && (op.Fail? || op.Reconcile? ==> Json.GetText(record.response, "status") == Some("failed"))
            && Json.GetText(record.response, "id") == Some(id)
            && Json.Get(record.response, "background") == Some(Json.Bool(true))
            && Rank(stored) < Rank(record)
            && (op.Claim? <==> Rank(record) == 1)
  {
  }

  /** What was stored beside the response is kept, and the secrets survive exactly until the job is over. */
  lemma WriteKeepsPayload(op: Op, id: string, stored: StoredResponse)
    requires Writes(op, id, stored)
    ensures var record := Prepare(op, id, stored).record;
            && record.input == stored.input
            && record.upstream == stored.upstream
            && record.enqueuedAt == stored.enqueuedAt
            && (op.Claim? ==>
                  && record.pendingUpstreamRequest == stored.pendingUpstreamRequest
                  && record.upstreamAuthorization == stored.upstreamAuthorization
                  && Prepare(op, id, stored).payload == Some(ClaimPayload(
                       record.upstream, record.pendingUpstreamRequest.value, record.upstreamAuthorization)))
            && (!op.Claim? ==> record.pendingUpstreamRequest == None && record.upstreamAuthorization == None)
  {
  }

  /** Fields of the caller's completed body other than the three the store owns are stored untouched. */
  lemma CompletionKeepsBody(id: string, stored: StoredResponse, body: Json.Value, key: string)
    requires Writes(Complete(body), id, stored)
    requires key !in {"id", "status", "background"}
    ensures Json.Get(Prepare(Complete(body), id, stored).record.response, key) == Json.Get(body, key)
  {
  }

  /** A claim changes nothing else in the response either. */
  lemma ClaimKeepsBody(id: string, stored: StoredResponse, key: string)
    requires Writes(Claim, id, stored)
    requires key !in {"id", "status", "background"}
    ensures Json.Get(Prepare(Claim, id, stored).record.response, key) == Json.Get(stored.response, key)
  {
  }

  /** The response of a failed job says why it failed, and nothing else. */
  ghost predicate Fails(response: Json.Value, id: string, message: string) {
    && (forall key :: Json.Get(response, key).Some? ==> key in {"id", "object", "status", "background", "error"})
    && Json.GetText(response, "id") == Some(id)
    && Json.GetText(response, "object") == Some("response")
    && Json.GetText(response, "status") == Some("failed")
    && Json.Get(response, "background") == Some(Json.Bool(true))
    && Json.Get(response, "error").Some?
    && var error := Json.Get(response, "error").value;
       && (forall key :: Json.Get(error, key).Some? ==> key in {"message", "type"})
       && Json.GetText(error, "message") == Some(message)
       && Json.GetText(error, "type") == Some("server_error")
  }

  lemma FailedBodyFails(id: string, message: string)
    ensures Fails(FailedBody(id, message), id, message)
  {
  }

  /** A failure stores the caller's message, and a reconcile that the job was stale. */
  lemma FailureTellsWhy(op: Op, id: string, stored: StoredResponse)
    requires Writes(op, id, stored)
    ensures op.Fail? ==> Fails(Prepare(op, id, stored).record.response, id, op.message)
    ensures op.Reconcile? ==> Fails(Prepare(op, id, stored).record.response, id, "background response stale")
  {
    hide FailedBody, Fails;
    FailedBodyFails(id, if op.Fail? then op.message else "background response stale");
  }

  /** What a tombstone keeps of the record it replaces: everything but the response and the secrets. */
  ghost predicate Entombs(stone: StoredResponse, stored: StoredResponse, id: string) {
    && IsDeletedTombstone(stone) && !IsInFlight(stone)
    && (forall key :: Json.Get(stone.response, key).Some? ==> key in {"id", "object", "status", "background", "deleted"})
    && Json.GetText(stone.response, "object") == Some("response")
    && Json.GetText(stone.response, "status") == Some("deleted")
    && Json.Get(stone.response, "background") == Some(Json.Bool(true))
    && Json.Get(stone.response, "deleted") == Some(Json.Bool(true))
    && Json.GetText(stone.response, "id") == Some(id)
    && stone.pendingUpstreamRequest == None && stone.upstreamAuthorization == None
    && stone.input == stored.input && stone.upstream == stored.upstream && stone.enqueuedAt == stored.enqueuedAt
  }

  /** A tombstone stops every transition, however it came to be written. */
  lemma TombstoneStopsTransitions(stored: StoredResponse, id: string, op: Op, other: StoredResponse)
    requires IsDeletedTombstone(other)
    ensures Entombs(Tombstone(stored, id), stored, id)
    ensures !Writes(op, id, other)
  {
  }
}
