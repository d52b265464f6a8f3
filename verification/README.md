# Background responses: records, transitions and the work queue

A model of the store behind background responses, in two state machines over a small abstract Redis, with proofs
about every schedule of them.

**Records** (`Model`, `Transitions`, `Redis`, `Protocol`, `Invariant`, `Safety`). Any number of servers claim,
complete, fail and stale-reconcile records. Each transition is DISCARD, WATCH, GET, a pure record-to-record step, TTL,
MULTI, SETEX and EXEC on the server's one mutex-guarded connection, in up to sixteen attempts, with a new connection
after a storage error. The machine works command by command: servers interleave freely, an attempt can be abandoned at
any await with its current command still on its way, links break, replies get lost, keys expire, and store, update,
enqueue, delete and tombstone requests write blindly in between. An action that is not enabled changes nothing, so a
statement about all sequences of actions is a statement about all schedules. `Lifecycle`, `Errors`, `Deletion`,
`Expiry` and `Refinement` state what follows, and `Undisturbed` shows that calls do get there. A *generation* of a
record is a stretch in which only transitions touch it, that is, between two blind writes, deletes or expiries.

**One call** (`CallTrace`, `ResponseStore`, `Simulation`). `ResponseStore` is the transition loop as one server runs it,
imperatively, with everybody else acting between any two of its commands. Each method states where in the program of the
call it leads, turn by turn; `CallTrace` is that program, and what its answers stand for. `Simulation` shows that every
call in every schedule of the system is such a call.

**Queue** (`StreamId`, `Paging`, `Cursor`, `WorkQueue`, `QueueTheorems`, `Batches`, `Claiming`). A stream of strictly
increasing identifiers of which a suffix is retained, one consumer group with its last delivered identifier and its
claimed but unacknowledged entries, and the shared autoclaim cursor that claim requests read, advance and write back
through a script. `Claiming` is the claim request as one client runs it, imperatively, with other clients and command
failures between any two commands; how each of its commands fares is a parameter. A ghost account of what was asked,
rescued, read, loaded and acknowledged fixes its answer.

**Both** (`Delivery`, `Compliance`). Jobs that are stored and then published, claimed entries whose records are loaded, and
acknowledgements, over the two machines together.

`Metrics` is the escaping of Prometheus label values (text exposition format 0.0.4).

## What is assumed of Redis and its client

- Any write, delete or expiry of a watched key makes EXEC give up. DISCARD outside MULTI is an error that leaves
  watches in place; WATCH inside MULTI is an error; WATCH of a key already watched keeps the first stamp.
- TTL answers in whole seconds rounded to the nearest: milliseconds plus 500, divided by 1000. A key is gone once its
  deadline has passed. SETEX counts from the moment it is carried out, for EXEC from the moment of EXEC.
- A lost link shows as an error on the next command, after which the client's connection is a fresh one. A command
  whose caller went away may still be carried out, before any later command of that connection.
- XAUTOCLAIM looks at up to ten entries per wanted one and drops entries the stream no longer holds, as Redis 7 does.
- The script compares numbers as doubles, rounding to nearest and to even.

## Where a stronger claim is false

- A transition can bring an expiry forward, by less than half a second, because TTL rounds down below the half second.
  `Expiry.CommitBringsForward` says exactly when; it never happens with whole seconds left. A run in which it does is
  `Undisturbed.ClaimBringsExpiryForward`.
- An error answer does not mean that nothing happened: a claim whose EXEC lost its answer refuses its own result when it
  tries again (`Undisturbed.LostClaimIsRefused` for any claim, `Undisturbed.ErrorHidesCommit` for one run), and a failed
  reconnect hides a commit too (`Lifecycle.ErrorMayHideCommit`). It does mean so when every EXEC of the call was answered:
  `Errors.ErrorMeansNoEffect`.
- An update checks for the record and then writes blindly, so it can bring back one deleted in between:
  `Deletion.BlindWriteLands`. A delete is final for as long as no such write lands.
- A second delete removes the tombstone of the first: `Deletion.SecondDeleteErases`. The record stays gone either way.
- A claim request that writes its cursor back after another one reset it moves the cursor over entries that nobody
  looked at since. `QueueTheorems.LateWriteMisses` says exactly which entries are missed and when none is;
  `QueueTheorems.LateWriteHappens` is one run.
- A request that does not scan writes back what it read. That is harmless unless it read the start: then it resets the
  cursor (`QueueTheorems.WriteBackWithoutScan`).
- The script orders identifiers correctly up to components of 2^53 and no further (`Cursor.ExactUpTo`). Beyond, it drops
  an advance, and it also moves the cursor back (`Cursor.InexactComparison`).
- The successor of an identifier wraps at the top of the 64-bit sequence range in a release build, and a build with
  overflow checks stops there. It is above its argument exactly below the top: `StreamId.AfterIsLeastAbove`. Without
  exclusive range starts a page after one that ends at the top counts entries again, and a first page after an identifier
  at the top starts too early. `Paging.PendingCountExactly` says exactly when the count of waiting entries ends with the
  right number, `Paging.InProgressCountExactly` likewise for the working ones, and `Paging.TopPageRepeats` is a family of
  streams on which the count never ends.

## Model

| member | source | states |
|---|---|---|
| Model.StaleIsMonotone | crates/core/src/model.rs:141-146 | once a record is stale it stays stale as the clock goes on, also where the subtraction saturates |
| Model.StaleIsExactAge | crates/core/src/model.rs:141-146 | saturation changes the verdict only for the one smallest threshold |
| Json.GetTextExactly | crates/core/src/model.rs:59-61 | a status or other field reads as a text exactly when it is there and holds that text |
| Transitions.WritesExactly | crates/core/src/store.rs:498-601 | for each of the four transitions, the exact records on which it goes through, by lifecycle rank |
| Transitions.RankExactly | crates/core/src/model.rs:63-85 | the ranks by the text of the status: queued, in progress, and deleted, cancelled, completed or failed |
| Transitions.RefusesExactly | crates/core/src/store.rs:448-601 | by the text of the status alone: when each transition writes, which rejection it gives otherwise, and that a reconcile keeps the record instead |
| Transitions.WriteAdvances | crates/core/src/store.rs:518-601 | every write raises the rank, lands on its operation's status and names the record by the key it is stored under |
| Transitions.WriteKeepsPayload | crates/core/src/store.rs:509-532 | beside the response, input, upstream and enqueue time are kept; a claim keeps and hands out request and authorization; every other write clears both |
| Transitions.CompletionKeepsBody | crates/core/src/store.rs:556-564 | a completion stores the caller's body untouched outside id, status and background |
| Transitions.ClaimKeepsBody | crates/core/src/store.rs:527-530 | a claim leaves every field of the response but id, status and background as it was |
| Transitions.FailureTellsWhy | crates/core/src/store.rs:587-596 | a failure stores the given message as a server error, a reconcile that the job was stale, and neither stores any other field |
| Transitions.TombstoneStopsTransitions | crates/core/src/store.rs:259-275 | what the delete of a running job leaves is the deleted response and nothing else of it, reads as deleted and not in flight, keeps input, upstream and enqueue time, holds no secrets, and stops every transition |
| Expiry.TtlCarriedOver | crates/core/src/store.rs:611-618 | the written expiry is the remaining time to the nearest second but at least one, and the configured one where there was none or it has passed |
| Invariant.ExecCommits | crates/core/src/store.rs:382-416 | an EXEC that commits carries out exactly its own attempt's one write, over exactly the record that attempt read |
| Invariant.ExecuteSafe | crates/core/src/store.rs:354-417 | no command does anything to the keys but the one commit of the ticket it carries |
| Invariant.StepKeepsAttempt | crates/core/src/store.rs:354-417 | whatever becomes of a command, the attempt knows behind its watch what its next command needs |
| Invariant.AttemptStable | crates/core/src/store.rs:364-374 | what an attempt knows behind its watch survives anything others do to the keys |
| Safety.ActionKeeps | crates/core/src/store.rs:171-221 | every action of the system, commands, failures, abandonment, reconnects and blind writes, keeps the invariant |
| Safety.RunKeeps | crates/core/src/store.rs:308-352 | the invariant holds after every schedule |
| Refinement.ActionRefines | crates/core/src/store.rs:354-417 | each action amounts to at most one step of a store whose transitions are atomic, and no EXEC commits another attempt's write |
| Refinement.RefinesAtomicStore | crates/core/src/store.rs:308-417 | after any schedule the stored records are those of the atomic store after the logged steps |
| Lifecycle.TerminalStays | crates/core/src/store.rs:502-506 | a terminal record is not touched by any transition for the rest of its generation |
| Lifecycle.GenerationShape | crates/core/src/store.rs:498-601 | two commits of a generation are a claim directly followed by a completion or failure of what it wrote |
| Lifecycle.LifecycleSafety | crates/core/src/store.rs:498-601 | at most one claim and one terminal commit in a generation, with ranks rising from queued to in progress to terminal |
| Lifecycle.CallCommitsOnce | crates/core/src/store.rs:319-351 | one call takes effect at most once in a generation, over all its attempts and lost replies |
| Lifecycle.AnswerIsCommitted | crates/core/src/store.rs:395-416 | a claim, completion or failure that answers with a record committed exactly that record and payload |
| Lifecycle.CompletionFollowsClaim | crates/core/src/store.rs:545-554 | a job queued by a blind write is completed only after a claim in the same generation |
| Lifecycle.ClaimReturnsOpeningPayload | crates/core/src/store.rs:518-532 | a claim hands out the upstream, request and authorization of the write that opened the generation, and keeps them stored, with every field of its response but id, status and background |
| Lifecycle.GenerationKeepsRecord | crates/core/src/store.rs:556-600 | through a generation input, upstream and enqueue time stay, and a terminal record holds no request or authorization |
| Lifecycle.GenerationEnds | crates/core/src/store.rs:556-600 | the commit that ends a job stores the completed body of its caller, or the reason of the failure and nothing else |
| Lifecycle.LostExecStep | crates/core/src/store.rs:404-412 | an EXEC whose reply is lost commits all the same, and its call only learns of a broken connection |
| Lifecycle.ErrorMayHideCommit | crates/core/src/store.rs:335-344 | when the reconnect after a lost EXEC answer fails too, the call ends in a storage error and the record is changed |
| Errors.ActionTells | crates/core/src/store.rs:319-351 | every action keeps: a commit is answered with the record it wrote, or its call has an EXEC without an answer |
| Errors.CommitIsAnswered | crates/core/src/store.rs:395-416 | after any schedule a commit shows in its call's answer, or the call has an EXEC without an answer |
| Errors.ErrorMeansNoEffect | crates/core/src/store.rs:326-347 | an error, or no answer at all, means no effect when every EXEC of the call was answered |
| Undisturbed.StaleAttemptConflicts | crates/core/src/store.rs:319-333 | whatever is left on the connection, an attempt behind a stale watch ends in a conflict and touches nothing, and leaves a fresh connection |
| Undisturbed.UndisturbedCallCommits | crates/core/src/store.rs:319-417 | whatever earlier calls left on the connection, short of a command still on its way, a call nobody disturbs commits what it prepares from the stored record and answers with it, in one attempt, or in two exactly behind a stale watch |
| Undisturbed.UndisturbedCallEnds | crates/core/src/store.rs:364-380 | on such a connection a call that finds nothing, corrupt bytes, a record it has to refuse or one it has to keep says so after one attempt and touches nothing |
| Undisturbed.EndsWith | crates/core/src/store.rs:319-333 | and its answer is then not found, a serialization error, the refusal, or the record that was kept |
| Undisturbed.UndisturbedCallRefuses | crates/core/src/store.rs:364-380 | in particular a call that has to refuse the stored record says so after one attempt and touches nothing |
| Undisturbed.LostClaimIsRefused | crates/core/src/store.rs:335-344 | any such claim with an attempt to spare, whose EXEC loses its answer, can end in a failed precondition though it took effect |
| Undisturbed.ErrorHidesCommit | crates/core/src/store.rs:335-344 | one run from an empty store in which that happens |
| Deletion.ActionEffect | crates/core/src/store.rs:73-150 | the one modification an action logs is exactly what happened to the keys |
| Deletion.BlindWriteLands | crates/core/src/store.rs:73-141 | the write of a store or update lands whatever happened since its request, with the given or the configured expiry |
| Deletion.DeleteMakesGone | crates/server/src/service.rs:144-158 | whatever happens between its read and its write, a delete leaves a tombstone of what it saw, with the configured expiry, exactly when its load found a record not deleted that has a pending request or is queued or in progress, and otherwise nothing |
| Deletion.UpdateExactly | crates/core/src/store.rs:128-141 | an update is written exactly when its load found a record that is not deleted, a store whatever is there, and neither with an expiry of zero |
| Deletion.GoneStays | crates/core/src/store.rs:364-374 | no action but the landing write of a store brings a gone record back, and no transition commits on it |
| Deletion.DeletionIsFinal | crates/server/src/service.rs:135-159 | over any schedule in which no store of it lands, a gone record stays gone, and no transition commits on it however early it began |
| Deletion.SecondDeleteErases | crates/core/src/store.rs:115-117 | a delete of what is gone removes the tombstone, because a tombstone reads as not found |
| Deletion.ReconcileNeverClobbers | crates/core/src/store.rs:440-494 | a stale failure only replaces a record that is queued and stale at the moment of its commit |
| Expiry.RoundedTtl | crates/core/src/store.rs:611-618 | the written expiry against the remaining milliseconds: when it is above, when below, and by how much |
| Expiry.CommitDrift | crates/core/src/store.rs:382-401 | one commit moves an expiry by more than minus half a second and at most a second, beyond the gap between TTL and EXEC |
| Expiry.CommitBringsForward | crates/core/src/store.rs:464-482 | exactly when a commit brings the expiry forward; never with whole seconds left |
| Undisturbed.ClaimBringsExpiryForward | crates/core/src/store.rs:382-401 | one run in which a claim does so, from two seconds to 1.7 |
| Expiry.CommitSetsExpiry | crates/core/src/store.rs:611-618 | every committed record expires at least a second later, and one that had no expiry gets the configured one |
| Expiry.GenerationDrift | crates/core/src/store.rs:382-401 | the two commits of a generation add at most two seconds to their gaps |
| CallTrace.TurnKeeps | crates/core/src/store.rs:354-417 | whatever turn a call or others take, the call knows behind its watch what its next command needs |
| CallTrace.TraceBacked | crates/core/src/store.rs:308-417 | so it does over any turns that keep to the program of the call, and wherever the call has got to stands for something that happened |
| CallTrace.FinishedBacked | crates/core/src/store.rs:319-351 | what each answer of a finished call stands for: the commit of the record, the value read, a failed command with no attempt or connection left, or sixteen attempts of which the last one ended in a conflict |
| Simulation.ActionIsChange | crates/core/src/store.rs:73-150 | every action of the system does to the keys, stamps and clock what one move of the loop's environment does, or nothing |
| Simulation.ActionIsTurns | crates/core/src/store.rs:308-417 | every action of the system fixes, for any call still waited for, turns by which the loop leads it to where it got to |
| Simulation.RunIsTurns | crates/core/src/store.rs:308-417 | so does every schedule, turn by turn of its actions in order |
| Simulation.FinishedCallIsBacked | crates/core/src/store.rs:319-351 | for every call finished by a schedule there is an action of it that started the call; the turns that the actions after that one fix lead the call to its answer, in at most sixteen attempts, and its answer stands for something that happened in them |
| ResponseStore.TransitionClient.Send | crates/core/src/store.rs:364-412 | one command, which must be the next of the program, leads the call to where its reply takes it |
| ResponseStore.TransitionClient.WriteBack | crates/core/src/store.rs:382-393 | TTL and the rest of the attempt lead the call to what the attempt's result means |
| ResponseStore.TransitionClient.RunTransaction | crates/core/src/store.rs:395-416 | MULTI, SETEX and EXEC lead the call there, and success carries the record they wrote |
| ResponseStore.TransitionClient.TransitionAttempt | crates/core/src/store.rs:354-417 | the commands of one attempt, in order, lead the call to what its result means |
| ResponseStore.TransitionClient.ResetConnection | crates/core/src/store.rs:299-306 | the connection is a fresh one and the next attempt due, or the call is over |
| ResponseStore.TransitionClient.Reload | crates/core/src/store.rs:215-220 | the last answer of a reconcile is the record stored at that moment, whatever it is |
| ResponseStore.TransitionClient.TransitionAtomic | crates/core/src/store.rs:308-352 | the turns from the old state to the new one keep to the program and end in this very answer; at most sixteen attempts; the answer stands for something that happened in those turns |
| StreamId.RoundTrip | crates/core/src/queue.rs:635-638 | parsing the printed form of any identifier gives it back |
| StreamId.LessTextIsTotalOrder | crates/core/src/queue.rs:647-654 | the comparison of identifiers as text is a strict total order on printed identifiers |
| StreamId.AfterIsLeastAbove | crates/core/src/queue.rs:630-633 | the successor is the least identifier above exactly below the top of the sequence range |
| StreamId.RangeStartAdmits | crates/core/src/queue.rs:615-628 | in either range mode the start text admits exactly the identifiers above |
| Paging.NextPageStarts | crates/core/src/queue.rs:338-339 | the next page starts right behind the last entry of this one exactly when the range can start exclusively or that entry has a successor |
| Paging.FirstPageStarts | crates/core/src/queue.rs:326-327 | exactly when the first page starts with what is newer |
| Paging.PendingCountExactly | crates/core/src/queue.rs:313-342 | exactly when the loop over pages ends with the number of newer entries; whenever it ends it counts at least those |
| Paging.InProgressCountExactly | crates/core/src/queue.rs:344-385 | the loop over claimed entries counts at least those not below the stream whenever it ends, and exactly those if and only if no page that starts too early adds such an entry again; never with exclusive range starts |
| Paging.TopPageRepeats | crates/core/src/queue.rs:630-633 | a millisecond whose entries end at the top of the sequence range and fill a whole number of pages is read again without end, once a page starts in step with it |
| Paging.CountPending | crates/core/src/queue.rs:313-342 | wherever the loop ends, for any stream, last delivered identifier, page size and range mode, its total is at least the number of newer entries, and that number exactly when no page starts too early |
| Paging.TombstonedExactly | crates/core/src/queue.rs:640-645 | a claimed entry counts as trimmed exactly when it is below the start of the stream, or the stream is empty |
| Paging.CountInProgress | crates/core/src/queue.rs:344-385 | likewise for the claimed entries not below the stream |
| Cursor.ExactComparison | crates/core/src/queue.rs:668-675 | up to 2^53 the script's comparison is the order of identifiers |
| Cursor.ExactUpTo | crates/core/src/queue.rs:668-675 | the script orders all identifiers with components up to a bound correctly exactly when the bound is at most 2^53 |
| Cursor.InexactComparison | crates/core/src/queue.rs:668-675 | just beyond, it drops an advance, and it moves the cursor back |
| Cursor.StoredIsGreatest | crates/core/src/queue.rs:656-680 | after any writes the stored cursor is the greatest written since the last reset |
| WorkQueue.ScanFrom | crates/core/src/queue.rs:412-432 | XAUTOCLAIM takes at most the wanted count, only from the stretch it went through, and drops only trimmed entries |
| WorkQueue.ScanTakes | crates/core/src/queue.rs:412-432 | of the stretch it goes through it takes exactly the idle entries and drops exactly the trimmed ones |
| WorkQueue.ScanStretch | crates/core/src/queue.rs:412-432 | it stops only when it is through, has looked at as many entries as it may, or has as many as wanted |
| WorkQueue.ReadsExactly | crates/core/src/queue.rs:474-507 | a group read hands out the first entries above the last delivered one, as many as wanted or there are, and claims them |
| WorkQueue.EnqueueKeeps | crates/core/src/queue.rs:77-96 | adding with any amount of trimming keeps the queue invariant |
| WorkQueue.RescueKeeps | crates/core/src/queue.rs:412-432 | a scan keeps every entry still in the stream claimed |
| WorkQueue.ActionKeeps | crates/core/src/queue.rs:77-216 | every queue action keeps entries in order, and each delivered and retained one claimed or acknowledged, never both |
| WorkQueue.RunKeeps | crates/core/src/queue.rs:77-216 | so does every interleaving |
| QueueTheorems.ProcessableIsInStream | crates/core/src/queue.rs:640-645 | a claimed entry is not below the start of the stream exactly when it is still in the stream |
| QueueTheorems.CountsSplit | crates/core/src/queue.rs:277-311 | waiting and working entries are disjoint and make up what the stream holds unacknowledged |
| QueueTheorems.WorkloadConserved | crates/core/src/queue.rs:277-385 | the two counts add up to the retained unacknowledged entries after any run |
| QueueTheorems.Stats | crates/core/src/queue.rs:277-311 | wherever the loops end, the counts and their sum are at least the waiting, working and retained unacknowledged entries, with equality exactly when the pages of each loop add nothing twice |
| QueueTheorems.StatsEnd | crates/core/src/queue.rs:277-311 | with exclusive range starts both loops end, with the right counts, after any run |
| QueueTheorems.NothingIsLost | crates/core/src/queue.rs:398-410 | in the queue, a delivered and retained entry is claimed or acknowledged, and never both |
| Delivery.AtLeastOnce | crates/core/src/queue.rs:525-570 | a delivered and retained entry is claimed unless the RPC acknowledged it, or a claim did whose own load found the record missing or corrupt at that moment, after the store that preceded the entry |
| QueueTheorems.LeavesOnlyAcknowledged | crates/core/src/queue.rs:398-432 | in the queue, an entry stops being claimed only by an acknowledgement or by a scan after the stream dropped it |
| Delivery.LeavesOnlyForReason | crates/core/src/queue.rs:530-545 | that acknowledgement is the RPC's, or of a worker whose load found the record missing or corrupt |
| Delivery.MovesKeep | crates/core/src/queue.rs:509-577 | every run of records and queue keeps a truthful load behind each internal acknowledgement, and a store before each published entry |
| Delivery.LostJobWasRemoved | crates/server/src/service.rs:161-180 | a published job that a claim acknowledged had its record deleted or expired after the store that preceded its entry, and was never corrupt |
| QueueTheorems.DeliveryCovers | crates/core/src/queue.rs:165-182 | new deliveries land above every cursor in use |
| QueueTheorems.RescueCovers | crates/core/src/queue.rs:141-152 | the cursor a scan hands back covers what it went through on top of what its start covered |
| QueueTheorems.CursorCoversRun | crates/server/src/service.rs:196-228 | coverage is kept over every run in which each write of the cursor is harmless: its writer read it after the last reset, resets it, or writes nothing the script prefers |
| QueueTheorems.CursorCovers | crates/server/src/service.rs:196-228 | in such a run no claimed entry below the stored cursor was missed since that reset |
| QueueTheorems.LateWriteMisses | crates/server/src/service.rs:218-228 | which entries any other write misses, and that coverage breaks exactly when there is one |
| QueueTheorems.LateWriteHappens | crates/server/src/service.rs:196-228 | one run of two requests in which that happens |
| QueueTheorems.CursorOnlyAdvances | crates/core/src/queue.rs:656-680 | between two resets no action moves the stored cursor back |
| QueueTheorems.WriteBackWithoutScan | crates/server/src/service.rs:196-228 | a request that does not scan changes nothing by writing back, except that one that read the start resets the cursor |
| Batches.LoadRecord | crates/core/src/store.rs:96-108 | when a load answers with a storage error, with nothing, with a serialization error, and with which record |
| Batches.FourClasses | crates/core/src/queue.rs:509-577 | the jobs are the hydrated entries and the pending jobs the deferred ones, in order, and the acknowledged and skipped ones make up the rest |
| Batches.JobsAreLoaded | crates/core/src/queue.rs:563-569 | each job carries an entry and the record loaded for it |
| Batches.BatchHolds | crates/core/src/queue.rs:525-570 | by the loads alone: the jobs are one for each entry whose record was loaded, the pending jobs one for each whose load got no answer, in order |
| Batches.JobsMembers | crates/core/src/queue.rs:564-570 | an entry whose record was loaded leads to its job with that record, and nothing else is among the jobs |
| Batches.PendingMembers | crates/core/src/queue.rs:545-561 | an entry whose load got no answer leads to its pending job, and nothing else is among the pending jobs |
| Claiming.AsksHold | crates/core/src/queue.rs:530-545 | acknowledgements are asked for one by one, in order, for exactly the entries whose record is missing or corrupt |
| Batches.BatchOfIsSound | crates/core/src/queue.rs:509-577 | the jobs and pending jobs made of a list of entries are distinct, no more than the entries, and the legacy identifier list mirrors the pending jobs |
| Claiming.TakenInOrder | crates/core/src/queue.rs:412-432 | a scan takes entries in stream order |
| Claiming.UndeliveredIsNew | crates/core/src/queue.rs:474-507 | a group read returns entries above everything delivered before it |
| Batches.HalvesJoin | crates/core/src/queue.rs:159-211 | the rescued and the newly read half share no entry, because the first was delivered before the second was read |
| Claiming.BothAreClaim | crates/core/src/queue.rs:154-215 | a claim of both halves is accounted for by one scan, one read for exactly the rest, loads that come after the scan or read that took their entries, and acknowledgements that come after the loads they settle, whether or not the read was answered |
| Claiming.RescueIsClaim | crates/core/src/queue.rs:141-167 | so is a claim that ends with its first half, because the scan failed or nothing is left to read |
| Claiming.AcknowledgesOnlyLost | crates/core/src/queue.rs:530-545 | before every acknowledgement by a claim, whatever it answers, is a moment at which the store held what its load answered, missing or corrupt, and before that the scan or read that took the entry |
| Compliance.ClaimComplies | crates/core/src/queue.rs:530-545 | each of them settles an entry of the claim for what the store held under its key at an earlier moment of the claim, when the entry had been delivered |
| Compliance.AcknowledgementIsMoves | crates/core/src/queue.rs:530-545 | such a load and acknowledgement are, with anything in between, moves of records and queue together |
| Compliance.ClaimIsMoves | crates/core/src/queue.rs:530-545 | so the load, the moves of others from there to the acknowledgement, and the acknowledgement are one run of records and queue that ends with the queue as the claim left it |
| Claiming.BackgroundQueue.Acknowledge | crates/core/src/queue.rs:398-410 | an XACK that is answered succeeds exactly when the entry was claimed as it was carried out, and is an error otherwise; carried out, it leaves the entry unclaimed; unanswered, it is a storage error |
| Claiming.BackgroundQueue.LoadOnce | crates/core/src/store.rs:96-108 | one load, which answers with what the store held at the moment before exactly when the command is answered |
| Claiming.BackgroundQueue.LoadWithRetries | crates/core/src/queue.rs:579-600 | only storage errors are retried, three loads at most, each a step of its own; an unanswered load means three failed ones, and any other answer is what the store held at that moment |
| Claiming.BackgroundQueue.JobFromEntry | crates/core/src/queue.rs:525-570 | by its load alone, one entry adds a job, a pending job with its identifier, an acknowledgement asked for with its reason, or nothing |
| Claiming.BackgroundQueue.JobsFromStreamIds | crates/core/src/queue.rs:509-577 | never an error; the jobs, pending jobs and acknowledgements asked for are exactly those of the entries, by their loads, in order |
| Claiming.BackgroundQueue.Autoclaim | crates/core/src/queue.rs:412-432 | at most one scan and nothing else, answered exactly when the command is; an answer is what it took, at most the count, in order, all delivered before |
| Claiming.BackgroundQueue.ReadGroup | crates/core/src/queue.rs:434-507 | at most one read and nothing else, answered exactly when the command is; an answer is what it delivered, at most the count, in order, none delivered before |
| Claiming.BackgroundQueue.RescueJobs | crates/core/src/queue.rs:141-163 | the rescued half: one scan exactly if rescuing is wanted, then the jobs and only the acknowledgements its loads call for; a failed scan fails the claim |
| Claiming.BackgroundQueue.ReadJobs | crates/core/src/queue.rs:165-211 | the half read anew: one read, then only acknowledgements its loads call for |
| Claiming.BackgroundQueue.ClaimJobs | crates/core/src/queue.rs:133-216 | the answer is an error exactly when the scan failed, or the read failed and nothing was rescued, and otherwise the jobs and pending jobs of the rescued half followed by those of the fetched half; the read is asked for exactly when the rescued half leaves something of the count, and for just that |
| Claiming.BackgroundQueue.GetAutoclaimCursor | crates/core/src/queue.rs:114-119 | one read of the shared cursor, asked for and answered with it, the start if there is none, exactly when the command is answered |
| Claiming.BackgroundQueue.SetAutoclaimCursor | crates/core/src/queue.rs:121-131 | one write of the request's cursor through the script, asked for, carried out unless the command is lost, and successful exactly when it is answered |
| Claiming.BackgroundQueue.ClaimBackgroundJobs | crates/server/src/service.rs:182-249 | the cursor is asked for first, then a claim for the clamped count follows, and writing the cursor back is asked for once after a claimed batch and never otherwise |
| Claiming.BatchWithinLimit | crates/server/src/service.rs:193-193 | such an answer holds at most the wanted count and at most a hundred entries, each once |
| Claiming.Clamped | crates/server/src/service.rs:193-193 | one for zero, the wanted count up to a hundred, and a hundred above |
| Metrics.EscapeIsOnePass | crates/server/src/metrics.rs:156-161 | the three whole-text replacements amount to one pass over the characters |
| Metrics.EscapeReadsBack | crates/server/src/metrics.rs:156-161 | every value is read back from its escaped form, which has no raw line feed and no quote a reader would take as the end |

## Left out

- Transport, sockets, timeouts, blocking reads and the delay between retries: commands are single steps that may fail.
- JSON text: a stored value either parses as a record or is corrupt. Numbers in JSON are integers.
- The lag figure reported by the server, taken for the pending count where present (crates/core/src/queue.rs:290-291).
- Liveness: sixteen conflicts in a row and a stream that grows while it is paged are possible; the counts are of one
  snapshot.
- A job that was stored but whose entry was never added, because the request ended in between, is not tracked.
- Consumer groups other than one created at the start of the stream, and more than one group.
- Redis 6 behaviour of XAUTOCLAIM, which hands out trimmed entries instead of dropping them.
- Who owns a claimed entry and for how long: which entries a scan finds idle is arbitrary.
- The `reconciled` flag, which compares two records and may be set by any concurrent change.
- Error texts, request validation, the conversion of records for the wire, identifier generation, configuration
  parsing, version detection, logging and the HTTP endpoints.
- An expiry too large for SETEX, and a store or update with an expiry of zero, which is rejected before any effect.
- Paging.CountPending: says nothing of streams on which the loop over pages never ends. `Paging.PendingCountExactly` says
  that it ends with exclusive range starts and wherever no page starts too early; `Paging.TopPageRepeats` is a family on
  which it does not.
- Paging.CountInProgress: likewise.
- QueueTheorems.Stats: likewise; `QueueTheorems.StatsEnd` has both loops end with exclusive range starts.
- ResponseStore.TransitionClient.TransitionAtomic: does not bound the time between attempts or say that a conflict
  must end, because other clients may always come first.
- Claiming.BackgroundQueue.Acknowledge: the environment may acknowledge the same entry first; then the answer is the
  error for an entry that is not claimed.
