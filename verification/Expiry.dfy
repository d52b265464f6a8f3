/** How far the transitions of a record move its expiry. */
module Expiry {
  import opened Wrappers
  import opened Redis
  import opened Protocol
  import opened Safety
  import opened Lifecycle

  /** A commit that carried over an expiry, with the milliseconds left when its TTL was read. */
  ghost predicate CarriesExpiry(s: System, id: string, i: nat) {
    && CommitAt(s, id, i)
    && s.log[i].before.Some? && s.log[i].before.value.deadline.Some?
    && s.log[i].after.Some? && s.log[i].after.value.deadline.Some?
  }

  ghost function OldDeadline(s: System, id: string, i: nat): nat
    requires CarriesExpiry(s, id, i)
  {
    s.log[i].before.value.deadline.value
  }

  ghost function NewDeadline(s: System, id: string, i: nat): nat
    requires CarriesExpiry(s, id, i)
  {
    s.log[i].after.value.deadline.value
  }

  /** Milliseconds between reading the TTL and carrying out EXEC. */
  ghost function Gap(s: System, i: nat): int
    requires i < |s.log| && s.log[i].cause.Committed?
  {
    s.log[i].at - s.log[i].cause.writer.readAt
  }

  ghost function Left(s: System, id: string, i: nat): int
    requires CarriesExpiry(s, id, i)
  {
    OldDeadline(s, id, i) - s.log[i].cause.writer.readAt
  }

  /** The expiry written for `left` remaining milliseconds, against those milliseconds. */
  lemma RoundedTtl(left: nat, defaultTtl: nat)
    ensures var ttl := WriteTtl((left + 500) / 1000, defaultTtl);
            && ttl >= 1
            && -500 < 1000 * ttl - left <= 1000
            && (left >= 500 ==> 1000 * ttl - left <= 500)
            && (left >= 500 && left % 1000 < 500 ==> 1000 * ttl == left - left % 1000)
            && (left < 500 || left % 1000 >= 500 ==> 1000 * ttl > left)
  {
    var q, r := left / 1000, left % 1000;
    assert left == 1000 * q + r;
    if r < 500 {
      assert (left + 500) / 1000 == q;
    } else {
      assert (left + 500) / 1000 == q + 1;
    }
  }

  /** What a transition makes of the expiry it finds: the remaining time to the nearest second, but at least one. */
  lemma TtlCarriedOver(entry: Entry, now: nat, defaultTtl: nat)
    requires defaultTtl >= 1
    ensures var ttl := WriteTtl(TtlReply(Some(entry), now), defaultTtl);
            && ttl >= 1
            && (entry.deadline.None? ==> ttl == defaultTtl)
            && (entry.deadline.Some? && entry.deadline.value < now ==> ttl == defaultTtl)
            && (entry.deadline.Some? && entry.deadline.value >= now ==>
                  var left := entry.deadline.value - now;
                  if left < 500 then ttl == 1 else left - 500 < 1000 * ttl <= left + 500)
  {
  }

  lemma CommitTimes(s: System, id: string, i: nat)
    requires Inv(s) && CarriesExpiry(s, id, i)
    ensures 0 <= Gap(s, i) <= Left(s, id, i)
    ensures NewDeadline(s, id, i) == s.log[i].at + 1000 * WriteTtl((Left(s, id, i) + 500) / 1000, s.defaultTtl)
  {
    CommitFacts(s, id, i);
  }

  /**
   One commit moves an expiry later by at most a second beyond the gap between its TTL and its EXEC, and earlier by
   less than half a second.
   */
  lemma CommitDrift(s: System, id: string, i: nat)
    requires Reachable(s) && CarriesExpiry(s, id, i)
    ensures Gap(s, i) - 500 < NewDeadline(s, id, i) - OldDeadline(s, id, i) <= Gap(s, i) + 1000
  {
    ReachableInv(s);
    CommitTimes(s, id, i);
    RoundedTtl(Left(s, id, i), s.defaultTtl);
  }

  /**
   Exactly when a commit brings the expiry forward: TTL rounded the remaining time down, and EXEC followed before
   the part that was rounded off had gone by. It never happens with whole seconds left.
   */
  lemma CommitBringsForward(s: System, id: string, i: nat)
    requires Reachable(s) && CarriesExpiry(s, id, i)
    ensures NewDeadline(s, id, i) < OldDeadline(s, id, i)
            <==> Left(s, id, i) >= 1000 && Gap(s, i) < Left(s, id, i) % 1000 < 500
    ensures Left(s, id, i) % 1000 == 0 ==> NewDeadline(s, id, i) >= OldDeadline(s, id, i)
  {
    hide Inv, Reachable, WriteTtl;
    ReachableInv(s);
    CommitTimes(s, id, i);
    RoundedTtl(Left(s, id, i), s.defaultTtl);
  }

  /** A record without expiry gets the configured one, counted from the commit. */
  lemma CommitSetsExpiry(s: System, id: string, i: nat)
    requires Reachable(s) && CommitAt(s, id, i)
    ensures s.log[i].after.Some? && s.log[i].after.value.deadline.Some?
    ensures s.log[i].after.value.deadline.value >= s.log[i].at + 1000
    ensures s.log[i].before.Some? && s.log[i].before.value.deadline.None? ==>
              s.log[i].after.value.deadline.value == s.log[i].at + 1000 * s.defaultTtl
  {
    ReachableInv(s);
    CommitFacts(s, id, i);
  }

  /** The two commits a generation can have add at most two seconds to the gaps they leave. */
  lemma GenerationDrift(s: System, id: string, i: nat, j: nat)
    requires Reachable(s) && CarriesExpiry(s, id, i) && CarriesExpiry(s, id, j) && OneGeneration(s, id, i, j)
    ensures NewDeadline(s, id, j) - OldDeadline(s, id, i) <= Gap(s, i) + Gap(s, j) + 2000
    ensures NewDeadline(s, id, j) - OldDeadline(s, id, i) > Gap(s, i) + Gap(s, j) - 1000
  {
    ReachableInv(s);
    GenerationShape(s, id, i, j);
    CommitDrift(s, id, i);
    CommitDrift(s, id, j);
  }
}
