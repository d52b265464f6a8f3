/** The whole protocol refines a store in which every transition is a single step. */
module Refinement {
  import opened Transitions
  import opened Redis
  import opened Protocol
  import opened Invariant
  import opened Safety
  import opened Lifecycle
  import opened Deletion

  /** The steps of the simple store: a transition looks at the record and either writes or does nothing. */
  datatype Atomic =
    | Transition(id: string, op: Op)
    | Overwrite(id: string, raw: Raw)
    | Erase(id: string)

  function Perform(m: map<string, Raw>, step: Atomic): map<string, Raw> {
    match step
    case Transition(id, op) =>
      if id in m && m[id].Record? && Writes(op, id, m[id].record)
      then m[id := Record(Prepare(op, id, m[id].record).record)]
      else m
    case Overwrite(id, raw) => m[id := raw]
    case Erase(id) => m - {id}
  }

  function PerformAll(m: map<string, Raw>, steps: seq<Atomic>): map<string, Raw>
    decreases |steps|
  {
    if steps == [] then m else Perform(PerformAll(m, steps[..|steps| - 1]), steps[|steps| - 1])
  }

  function Contents(entries: map<string, Entry>): map<string, Raw> {
    map id | id in entries :: entries[id].raw
  }

  /** The simple step behind a logged modification; for a commit, only which call on which record. */
  function StepOf(e: Event): Atomic {
    match e.cause
    case Committed(_, writer) => Transition(e.id, writer.op)
    case _ => if e.after.Some? then Overwrite(e.id, e.after.value.raw) else Erase(e.id)
  }

  function StepsOf(log: seq<Event>): (steps: seq<Atomic>)
    ensures |steps| == |log|
  {
    seq(|log|, i requires 0 <= i < |log| => StepOf(log[i]))
  }

  ghost predicate Agrees(m: map<string, Raw>, origin: map<string, Entry>, log: seq<Event>) {
    forall id ::
      && (id in m <==> Current(origin, log, id).Some?)
      && (id in m ==> m[id] == Current(origin, log, id).value.raw)
  }

  /** One simple step changes the contents exactly as the log records. */
  lemma PerformMatches(defaultTtl: nat, m: map<string, Raw>, origin: map<string, Entry>, log: seq<Event>, e: Event)
    requires Agrees(m, origin, log) && EventOk(defaultTtl, e) && e.before == Current(origin, log, e.id)
    ensures var m' := Perform(m, StepOf(e));
            && (e.id in m' <==> e.after.Some?)
            && (e.id in m' ==> m'[e.id] == e.after.value.raw)
            && forall id | id != e.id :: (id in m' <==> id in m) && (id in m' ==> m'[id] == m[id])
  {
    hide Prepare, Current;
    if e.cause.Committed? {
      var t := e.cause.writer;
      assert e.id in m && m[e.id] == Record(t.read);
      assert Prepare(t.op, e.id, t.read) == Write(t.written, t.payload);
      assert StepOf(e) == Transition(e.id, t.op);
    }
  }

  lemma PerformAgrees(defaultTtl: nat, m: map<string, Raw>, origin: map<string, Entry>, log: seq<Event>, e: Event)
    requires Agrees(m, origin, log) && EventOk(defaultTtl, e) && e.before == Current(origin, log, e.id)
    ensures Agrees(Perform(m, StepOf(e)), origin, log + [e])
  {
    PerformMatches(defaultTtl, m, origin, log, e);
    hide Perform, EventOk;
    forall id
      ensures Current(origin, log + [e], id) == if e.id == id then e.after else Current(origin, log, id)
    {
      CurrentPrefix(origin, log, e, id);
    }
  }

  lemma {:induction false} ReplayAgrees(defaultTtl: nat, origin: map<string, Entry>, log: seq<Event>)
    requires LogOk(defaultTtl, origin, log)
    ensures Agrees(PerformAll(Contents(origin), StepsOf(log)), origin, log)
    decreases |log|
  {
    if log != [] {
      var front, e := log[..|log| - 1], log[|log| - 1];
      assert log == front + [e];
      assert LogOk(defaultTtl, origin, front) by {
        forall i | 0 <= i < |front|
          ensures EventOk(defaultTtl, front[i]) && front[i].before == Current(origin, front[..i], front[i].id)
        {
          assert front[i] == log[i] && front[..i] == log[..i];
        }
      }
      ReplayAgrees(defaultTtl, origin, front);
      assert StepsOf(log)[..|log| - 1] == StepsOf(front);
      PerformAgrees(defaultTtl, PerformAll(Contents(origin), StepsOf(front)), origin, front, e);
    }
  }

  /**
   After any schedule, the stored records are what the simple store holds after performing the logged steps one at a
   time, each transition deciding by itself from the record it finds.
   */
  lemma RefinesAtomicStore(s: System)
    requires Reachable(s)
    ensures Contents(s.db.entries) == PerformAll(Contents(s.origin), StepsOf(s.log))
  {
    ReachableInv(s);
    ReplayAgrees(s.defaultTtl, s.origin, s.log);
    var m := PerformAll(Contents(s.origin), StepsOf(s.log));
    forall id
      ensures id in m <==> id in s.db.entries
      ensures id in m ==> m[id] == s.db.entries[id].raw
    {
      assert Current(s.origin, s.log, id) == Lookup(s.db, id);
    }
  }

  /** Each single action performs at most one step of the simple store; no EXEC carries a write of another attempt. */
  lemma ActionRefines(s: System, action: Action)
    requires Reachable(s)
    ensures var s' := Apply(s, action);
            || (s'.log == s.log && Contents(s'.db.entries) == Contents(s.db.entries))
            || (&& |s'.log| == |s.log| + 1
                && Contents(s'.db.entries) == Perform(Contents(s.db.entries), StepOf(s'.log[|s.log|]))
                && (s'.log[|s.log|].cause.Committed? ==>
                      s'.log[|s.log|].cause.issuer == s'.log[|s.log|].cause.writer))
  {
    hide Apply, Inv, Perform, Reachable, Contents, StepOf;
    ReachableInv(s);
    ReachableStep(s, action);
    ActionLogs(s, action);
    ActionEffect(s, action, "");
    RefinesAtomicStore(s);
    RefinesAtomicStore(Apply(s, action));
    var s' := Apply(s, action);
    if s'.log != s.log {
      assert StepsOf(s'.log)[..|s.log|] == StepsOf(s.log);
    }
  }

  lemma ReachableStep(s: System, action: Action)
    requires Reachable(s)
    ensures Reachable(Apply(s, action))
  {
    hide Apply;
    var s0, actions :| Initial(s0) && s == Run(s0, actions);
    RunAppend(s0, actions, action);
  }

  lemma {:induction false} RunAppend(s: System, actions: seq<Action>, action: Action)
    ensures Run(s, actions + [action]) == Apply(Run(s, actions), action)
    decreases |actions|
  {
    if actions == [] {
      assert Run(s, [action]) == Run(Apply(s, action), []) by {
        assert [action][1..] == [];
      }
      assert actions + [action] == [action];
    } else {
      assert (actions + [action])[1..] == actions[1..] + [action];
      RunAppend(Apply(s, actions[0]), actions[1..], action);
    }
  }
}
