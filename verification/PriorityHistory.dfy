/**
 Field, static priority and load weight of a task at any point of a run, read
 off the steps that led there; and through them what a forked child owes to its
 parent's calls of my_set_process_priority.
 */
module PriorityHistory {
  import opened Common
  import opened Priority

  // ---- the last write of the field and of static_prio ----

  /** The last request for t that the system call accepted among the first n steps, 0 if there is none. */
  function FieldOf(steps: seq<Step>, t: nat, n: nat): int
    requires n <= |steps|
  {
    if n == 0 then 0
    else
      var a := steps[n - 1];
      if a.Enter? && a.t == t && 101 <= a.request <= 139 then a.request else FieldOf(steps, t, n - 1)
  }

  /** What sched_fork() makes of the parent's static priority. */
  function Inherited(base: int, policy: Policy, reset: bool): int
  {
    if !reset then base
    else if policy == Deadline || RtPolicy(policy) then NiceToPrio(0)
    else if base < NiceToPrio(0) then NiceToPrio(0)
    else base
  }

  /** t is the child that step a makes in state s. */
  predicate Born(s: State, a: Step, t: nat) { a.Fork? && a.t < t == |s.tasks| }

  /** The static priority that the last write left: a request at a pick, a renice, setscheduler, or the fork that
      made t. */
  function StaticOf(trace: seq<State>, steps: seq<Step>, t: nat, n: nat): int
    requires n <= |steps| < |trace|
  {
    if n == 0 then (if t < |trace[0].tasks| then trace[0].tasks[t].staticPrio else 0)
    else
      var s, a, was := trace[n - 1], steps[n - 1], StaticOf(trace, steps, t, n - 1);
      if Born(s, a, t) then
        Inherited(StaticOf(trace, steps, a.t, n - 1), s.tasks[a.t].policy, s.tasks[a.t].resetOnFork)
      else if a.t != t then was
      else
        match a
        case Pick(_) => if FieldOf(steps, t, n - 1) != 0 then FieldOf(steps, t, n - 1) else was
        case Renice(_, nice) => if MIN_NICE <= nice <= MAX_NICE then NiceToPrio(nice) else was
        case SetScheduler(_, attr, _) => if FairPolicy(attr.policy) then NiceToPrio(attr.nice) else was
        case _ => was
  }

  /** Nobody enters the call for a task that is not there yet. */
  lemma {:induction false} FieldUnborn(trace: seq<State>, steps: seq<Step>, t: nat, n: nat)
    requires Run(trace, steps) && n <= |steps| && |trace[n].tasks| <= t
    ensures FieldOf(steps, t, n) == 0
  {
    if n == 0 {
    } else {
      assert Follows(trace, steps, n - 1);
      FieldUnborn(trace, steps, t, n - 1);
    }
  }

  lemma {:induction false} FieldExact(trace: seq<State>, steps: seq<Step>, t: nat, n: nat)
    requires Run(trace, steps) && n <= |steps| && t < |trace[n].tasks|
    ensures trace[n].tasks[t].fixed == FieldOf(steps, t, n)
  {
    if n == 0 {
    } else {
      assert Follows(trace, steps, n - 1);
      if t < |trace[n - 1].tasks| {
        FieldExact(trace, steps, t, n - 1);
      } else {
        FieldUnborn(trace, steps, t, n - 1);
      }
    }
  }

  /** At every point of every run a task's static priority is what the last write among the steps left. */
  lemma {:induction false} StaticExact(trace: seq<State>, steps: seq<Step>, t: nat, n: nat)
    requires Run(trace, steps) && n <= |steps| && t < |trace[n].tasks|
    ensures trace[n].tasks[t].staticPrio == StaticOf(trace, steps, t, n)
  {
    if n == 0 {
    } else {
      var s, a := trace[n - 1], steps[n - 1];
      assert Follows(trace, steps, n - 1);
      RunInv(trace, steps, n - 1);
      assert InRange(s.tasks[a.t]);
      if t < |s.tasks| {
        StaticExact(trace, steps, t, n - 1);
        FieldExact(trace, steps, t, n - 1);
      } else {
        StaticExact(trace, steps, a.t, n - 1);
      }
    }
  }

  // ---- the child ----

  /** Which static priorities of the parent a fork tells apart. */
  lemma ChildSeesStatic(p: Task, base: int)
    requires ChildOf(p).Some?
    ensures ChildOf(p.(staticPrio := base)) == ChildOf(p) <==>
      Inherited(base, p.policy, p.resetOnFork) == Inherited(p.staticPrio, p.policy, p.resetOnFork)
  {
  }

  /** Over any run: a child starts with field 0 and inherits what the last write of its parent's static priority
      left. */
  lemma ChildInherits(trace: seq<State>, steps: seq<Step>, n: nat)
    requires Run(trace, steps) && n < |steps| && steps[n].Fork? && |trace[n + 1].tasks| > |trace[n].tasks|
    ensures steps[n].t < |trace[n].tasks|
    ensures
      var p, c := trace[n].tasks[steps[n].t], trace[n + 1].tasks[|trace[n].tasks|];
      && c.fixed == 0 && c.call.Outside?
      && c.staticPrio == Inherited(StaticOf(trace, steps, steps[n].t, n), p.policy, p.resetOnFork)
      && (Agrees(c) <==> Agrees(p) || p.resetOnFork)
  {
    assert Follows(trace, steps, n);
    StaticExact(trace, steps, steps[n].t, n);
    ChildAgreesIff(trace[n].tasks[steps[n].t]);
  }

  // ---- load weight and static priority of one task ----

  /** The step computes t's load weight from its static priority. */
  predicate Weighs(p: Task, a: Step)
  {
    match a
    case Renice(_, nice) => PrioToNice(p.staticPrio) != nice && MIN_NICE <= nice <= MAX_NICE
    case SetScheduler(_, attr, _) => !Unchanged(p, attr)
    case _ => false
  }

  /** The static priority that t's load weight was last computed from. */
  function BaseOf(trace: seq<State>, steps: seq<Step>, t: nat, n: nat): int
    requires n <= |steps| < |trace|
  {
    if n == 0 then StaticOf(trace, steps, t, 0)
    else
      var s, a := trace[n - 1], steps[n - 1];
      if Born(s, a, t) && !s.tasks[a.t].resetOnFork then BaseOf(trace, steps, a.t, n - 1)
      else if Born(s, a, t) || (a.t == t < |s.tasks| && Weighs(s.tasks[t], a)) then StaticOf(trace, steps, t, n)
      else BaseOf(trace, steps, t, n - 1)
  }

  lemma {:induction false} WeightExact(trace: seq<State>, steps: seq<Step>, t: nat, n: nat)
    requires Run(trace, steps) && AllAgree(trace[0]) && n <= |steps| && t < |trace[n].tasks|
    ensures FairPolicy(trace[n].tasks[t].policy) ==>
      var base := BaseOf(trace, steps, t, n);
      trace[n].tasks[t].weight == Entry(base - MAX_RT_PRIO) && trace[n].tasks[t].normalPrio == base
  {
    if n == 0 {
      assert Agrees(trace[0].tasks[t]);
    } else {
      var s, a := trace[n - 1], steps[n - 1];
      assert Follows(trace, steps, n - 1);
      StaticExact(trace, steps, t, n);
      if t < |s.tasks| {
        WeightExact(trace, steps, t, n - 1);
      } else {
        WeightExact(trace, steps, a.t, n - 1);
      }
    }
  }

  /** At every point of every run a fair task is scheduled by its static priority exactly when the last write of that
      priority and the last computation of its weight used the same value. */
  lemma AgreesExact(trace: seq<State>, steps: seq<Step>, t: nat, n: nat)
    requires Run(trace, steps) && AllAgree(trace[0]) && n <= |steps| && t < |trace[n].tasks|
    ensures Agrees(trace[n].tasks[t]) <==>
      (FairPolicy(trace[n].tasks[t].policy) ==> StaticOf(trace, steps, t, n) == BaseOf(trace, steps, t, n))
  {
    StaticExact(trace, steps, t, n);
    WeightExact(trace, steps, t, n);
  }

  // ---- a request that reaches the child ----

  function Requester(reset: bool): Task { Task(Normal, 0, 120, 120, 120, Entry(20), 0, reset, Outside) }

  function ChildSteps(): seq<Step> { [Enter(0, 139), Pick(0), Return(0), Fork(0)] }

  function ChildTrace(reset: bool): seq<State>
  {
    var p := Requester(reset);
    var q := p.(fixed := 139);
    var r := q.(staticPrio := 139);
    var c := if reset then Task(Normal, 0, 139, 139, 139, Entry(39), 0, false, Outside) else r.(fixed := 0);
    [State([p], []), State([q.(call := Stored(139))], []), State([r.(call := Picked(139))], []), State([r], [(0, 1)]),
     State([r, c], [(0, 1)])]
  }

  /** A nice-0 task asks for 139 and forks: the child is at 139, with reset-on-fork by weight and priority too. */
  lemma RequestReachesChild(reset: bool)
    ensures Run(ChildTrace(reset), ChildSteps())
    ensures
      var c, plain := ChildTrace(reset)[4].tasks[1], ChildOf(Requester(reset)).value;
      && c.fixed == 0 && c.staticPrio == 139 && plain.staticPrio == 120
      && plain.weight == Entry(20) && plain.prio == 120
      && (if reset then c.weight == Entry(39) && c.prio == 139 else c.weight == Entry(20) && c.prio == 120)
  {
    forall n | 0 <= n < 4 ensures Follows(ChildTrace(reset), ChildSteps(), n) { assert n in {0, 1, 2, 3}; }
  }
}
