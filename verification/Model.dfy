/** The stored record and the predicates on it that guard the background lifecycle. */
module Model {
  import opened Wrappers
  import Json

  const I64_MIN: int := -0x8000_0000_0000_0000
  const I64_MAX: int := 0x7FFF_FFFF_FFFF_FFFF

  type I64 = x: int | I64_MIN <= x <= I64_MAX

  datatype StoredResponse = StoredResponse(
    upstream: string,
    response: Json.Value,
    input: seq<Json.Value>,
    pendingUpstreamRequest: Option<Json.Value>,
    upstreamAuthorization: Option<string>,
    enqueuedAt: Option<I64>)

  function Status(stored: StoredResponse): Option<string> {
    Json.GetText(stored.response, "status")
  }

  predicate IsDeletedTombstone(stored: StoredResponse) {
    Status(stored) == Some("deleted")
  }

  predicate IsTerminal(stored: StoredResponse) {
    || IsDeletedTombstone(stored)
    || Status(stored) in {Some("cancelled"), Some("completed"), Some("failed")}
  }

  predicate IsClaimable(stored: StoredResponse) {
    stored.pendingUpstreamRequest.Some? && Status(stored) == Some("queued")
  }

  predicate IsInProgress(stored: StoredResponse) {
    Status(stored) == Some("in_progress")
  }

  predicate IsInFlight(stored: StoredResponse) {
    || stored.pendingUpstreamRequest.Some?
    || Status(stored) in {Some("queued"), Some("in_progress")}
  }

  predicate ShouldReconcileStale(stored: StoredResponse) {
    IsInFlight(stored) && Status(stored) == Some("queued")
  }

  /** Subtraction of 64-bit signed integers that stops at the ends of the range. */
  function SaturatingSub(a: I64, b: I64): I64 {
    if a - b < I64_MIN then I64_MIN else if a - b > I64_MAX then I64_MAX else a - b
  }

  predicate IsStaleEnqueued(enqueuedAt: Option<I64>, now: I64, staleSeconds: I64) {
    enqueuedAt.Some? && SaturatingSub(now, enqueuedAt.value) >= staleSeconds
  }

  /** Once stale, a record stays stale as the clock goes on, however far apart the times are. */
  lemma StaleIsMonotone(enqueuedAt: Option<I64>, now: I64, later: I64, staleSeconds: I64)
    requires now <= later
    requires IsStaleEnqueued(enqueuedAt, now, staleSeconds)
    ensures IsStaleEnqueued(enqueuedAt, later, staleSeconds)
  {
    assert SaturatingSub(now, enqueuedAt.value) <= SaturatingSub(later, enqueuedAt.value);
  }

  /** Saturation never changes the verdict, except for the one threshold below which nothing lies. */
  lemma StaleIsExactAge(enqueuedAt: I64, now: I64, staleSeconds: I64)
    ensures IsStaleEnqueued(Some(enqueuedAt), now, staleSeconds)
            <==> now - enqueuedAt >= staleSeconds || staleSeconds == I64_MIN
  {
  }
}
