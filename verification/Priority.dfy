/**
 The my_set_process_priority system call and its hook in __schedule(), among the
 other writers of a task's priority fields: set_user_nice(), the parameters of
 sched_setscheduler(), priority inheritance and sched_fork().
 */
module Priority {
  import opened Common

  const MAX_RT_PRIO := 100
  const MIN_NICE := -20
  const MAX_NICE := 19

  datatype Policy = Normal | Batch | Idle | Fifo | RoundRobin | Deadline

  predicate RtPolicy(p: Policy) { p == Fifo || p == RoundRobin }

  predicate FairPolicy(p: Policy) { p == Normal || p == Batch }

  function NiceToPrio(nice: int): int { nice + 120 }

  function PrioToNice(prio: int): int { prio - 120 }

  /** The load weight: the idle weight, or an entry of the 40-entry weight table. */
  datatype Weight = IdleWeight | Entry(index: int)

  /** Where a task is in the system call. */
  datatype Call =
    | Outside
    | Stored(request: int)      // field written, in schedule()
    | Picked(request: int)      // picked again since

  datatype Task = Task(
    policy: Policy, rtPriority: int, staticPrio: int, normalPrio: int, prio: int, weight: Weight,
    fixed: int,                                     // my_fixed_priority
    resetOnFork: bool, call: Call)

  datatype State = State(tasks: seq<Task>, returned: seq<(nat, int)>)   // which call returned what

  datatype Attr = Attr(policy: Policy, rtPriority: int, nice: int, resetOnFork: bool)

  datatype Step =
    | Enter(t: nat, request: int)
    | Pick(t: nat)                                  // __schedule() chose t as next
    | Return(t: nat)
    | Renice(t: nat, nice: int)
    | SetScheduler(t: nat, attr: Attr, boost: int)
    | Boost(t: nat, prio: int)                      // rt_mutex_setprio()
    | Fork(t: nat)

  // ---- the functions of the scheduler ----

  function NormalPrio(p: Task): int
  {
    if p.policy == Deadline then -1
    else if RtPolicy(p.policy) then MAX_RT_PRIO - 1 - p.rtPriority
    else NiceToPrio(PrioToNice(p.staticPrio))
  }

  function SetLoadWeight(p: Task): Task
  {
    p.(weight := if p.policy == Idle then IdleWeight else Entry(p.staticPrio - MAX_RT_PRIO))
  }

  /** The hook in __schedule(). */
  function Hook(p: Task): Task
  {
    if p.staticPrio != 0 && 101 <= p.fixed <= 139 then p.(staticPrio := p.fixed) else p
  }

  function SetUserNice(p: Task, nice: int): Task
  {
    if PrioToNice(p.staticPrio) == nice || nice < MIN_NICE || nice > MAX_NICE then p
    else
      var q := p.(staticPrio := NiceToPrio(nice));
      if p.policy == Deadline || RtPolicy(p.policy) then q
      else
        var r := SetLoadWeight(q);
        var n := NormalPrio(r);
        r.(normalPrio := n, prio := if r.prio < MAX_RT_PRIO then r.prio else n)
  }

  /** The request changes none of the parameters that matter under its policy. */
  predicate Unchanged(p: Task, a: Attr)
  {
    && a.policy == p.policy && !(FairPolicy(a.policy) && a.nice != PrioToNice(p.staticPrio))
    && !(RtPolicy(a.policy) && a.rtPriority != p.rtPriority) && a.policy != Deadline
  }

  /** __sched_setscheduler() once its checks passed; boost is the best waiter's priority, large if there is none. */
  function SetParams(p: Task, a: Attr, boost: int): Task
  {
    if Unchanged(p, a) then p.(resetOnFork := a.resetOnFork)
    else
      var q := p.(policy := a.policy, rtPriority := a.rtPriority, resetOnFork := a.resetOnFork,
                  staticPrio := if FairPolicy(a.policy) then NiceToPrio(a.nice) else p.staticPrio);
      var r := SetLoadWeight(q.(normalPrio := NormalPrio(q)));
      var newPrio := if a.policy == Deadline then -1
                     else if RtPolicy(a.policy) then MAX_RT_PRIO - 1 - a.rtPriority else NiceToPrio(a.nice);
      r.(prio := if boost < newPrio then boost else newPrio)
  }

  /** sched_fork() on the copy of the parent, and the reset of the field at the end of copy_process(). */
  function ChildOf(parent: Task): Option<Task>
  {
    var c := parent.(prio := parent.normalPrio, call := Outside);
    var d := if !parent.resetOnFork then c
             else
               var e := if c.policy == Deadline || RtPolicy(c.policy)
                        then c.(policy := Normal, staticPrio := NiceToPrio(0), rtPriority := 0)
                        else if PrioToNice(c.staticPrio) < 0 then c.(staticPrio := NiceToPrio(0)) else c;
               SetLoadWeight(e.(prio := e.staticPrio, normalPrio := e.staticPrio)).(resetOnFork := false);
    if d.prio < 0 then None else Some(d.(fixed := 0))
  }

  // ---- steps ----

  predicate AttrOk(a: Attr)
  {
    MIN_NICE <= a.nice <= MAX_NICE
      && (if RtPolicy(a.policy) then 1 <= a.rtPriority < MAX_RT_PRIO else a.rtPriority == 0)
  }

  predicate Enabled(s: State, a: Step)
  {
    a.t < |s.tasks| &&
    match a
    case Enter(t, _) => s.tasks[t].call.Outside?
    case Return(t) => s.tasks[t].call.Picked?
    case SetScheduler(_, attr, _) => AttrOk(attr)
    case Fork(t) => s.tasks[t].call.Outside?
    case _ => true
  }

  function Apply(s: State, a: Step): State
    requires Enabled(s, a)
  {
    var p := s.tasks[a.t];
    match a
    case Enter(t, request) =>
      if request < 101 || request > 139 then s.(returned := s.returned + [(t, 0)])
      else s.(tasks := s.tasks[t := p.(fixed := request, call := Stored(request))])
    case Pick(t) =>
      var q := Hook(p);
      s.(tasks := s.tasks[t := if q.call.Outside? then q else q.(call := Picked(q.call.request))])
    case Return(t) => s.(tasks := s.tasks[t := p.(call := Outside)], returned := s.returned + [(t, 1)])
    case Renice(t, nice) => s.(tasks := s.tasks[t := SetUserNice(p, nice)])
    case SetScheduler(t, attr, boost) => s.(tasks := s.tasks[t := SetParams(p, attr, boost)])
    case Boost(t, prio) => s.(tasks := s.tasks[t := p.(prio := prio)])
    case Fork(t) => if ChildOf(p).None? then s else s.(tasks := s.tasks + [ChildOf(p).value])
  }

  // ---- the invariant ----

  predicate InRange(p: Task)
  {
    && (p.fixed == 0 || 101 <= p.fixed <= 139)
    && 100 <= p.staticPrio <= 139
    && (p.weight.Entry? ==> 0 <= p.weight.index < 40)
    && (!p.call.Outside? ==> p.fixed == p.call.request != 0)
  }

  predicate Inv(s: State) { forall t :: 0 <= t < |s.tasks| ==> InRange(s.tasks[t]) }

  predicate Init(s: State) { Inv(s) && s.returned == [] && forall t :: 0 <= t < |s.tasks| ==> s.tasks[t].fixed == 0 }

  lemma StepInv(s: State, a: Step)
    requires Inv(s) && Enabled(s, a)
    ensures Inv(Apply(s, a))
  {
    var r := Apply(s, a);
    assert InRange(s.tasks[a.t]);
    forall t | 0 <= t < |r.tasks| ensures InRange(r.tasks[t]) {
      if t < |s.tasks| { assert InRange(s.tasks[t]); }
    }
  }

  predicate Follows(trace: seq<State>, steps: seq<Step>, n: nat)
    requires |trace| == |steps| + 1 && n < |steps|
  {
    Enabled(trace[n], steps[n]) && trace[n + 1] == Apply(trace[n], steps[n])
  }

  predicate Run(trace: seq<State>, steps: seq<Step>)
  {
    |trace| == |steps| + 1 && Init(trace[0]) && forall n :: 0 <= n < |steps| ==> Follows(trace, steps, n)
  }

  lemma {:induction false} RunInv(trace: seq<State>, steps: seq<Step>, n: nat)
    requires Run(trace, steps) && n <= |steps|
    ensures Inv(trace[n])
  {
    if n == 0 {
    } else {
      RunInv(trace, steps, n - 1);
      assert Follows(trace, steps, n - 1);
      StepInv(trace[n - 1], steps[n - 1]);
    }
  }

  // ---- what the system call does ----

  /** The step writes t's static_prio from outside the system call. */
  predicate Writes(a: Step, t: nat) { a.t == t && (a.Renice? || a.SetScheduler?) }

  function Written(p: Task, a: Step): int
    requires Writes(a, a.t)
  {
    if a.Renice? then SetUserNice(p, a.nice).staticPrio else SetParams(p, a.attr, a.boost).staticPrio
  }

  /** What the last write of t's static_prio before step n left: the hook's at pick k, or a later one applied to what
      it met. */
  function LastWritten(trace: seq<State>, steps: seq<Step>, t: nat, k: nat, n: nat): int
    requires k < n <= |steps| < |trace| && t < |trace[k].tasks| && !trace[k].tasks[t].call.Outside?
    decreases n
  {
    if n == k + 1 then trace[k].tasks[t].call.request
    else if Writes(steps[n - 1], t) && t < |trace[n - 1].tasks| then Written(trace[n - 1].tasks[t], steps[n - 1])
    else LastWritten(trace, steps, t, k, n - 1)
  }

  /** k is the last pick of t before n. */
  predicate LastPick(steps: seq<Step>, t: nat, k: nat, n: nat)
  {
    k < n <= |steps| && steps[k] == Pick(t) && forall i :: k < i < n ==> steps[i] != Pick(t)
  }

  /** A task outside the call, or still to be picked in it, is not picked without a pick. */
  lemma {:induction false} UnpickedStays(trace: seq<State>, steps: seq<Step>, t: nat, m: nat, n: nat)
    requires Run(trace, steps) && m <= n <= |steps| && t < |trace[m].tasks| && !trace[m].tasks[t].call.Picked?
    requires forall i :: m <= i < n ==> steps[i] != Pick(t)
    ensures t < |trace[n].tasks| && !trace[n].tasks[t].call.Picked?
    decreases n
  {
    if m == n {
    } else {
      UnpickedStays(trace, steps, t, m, n - 1);
      assert Follows(trace, steps, n - 1);
    }
  }

  /** Between the last pick and a point where the call is still picked, the call stays and static_prio is the last
      write. */
  lemma {:induction false} SincePick(trace: seq<State>, steps: seq<Step>, t: nat, k: nat, m: nat, n: nat)
    requires Run(trace, steps) && LastPick(steps, t, k, n) && k < m <= n
    requires t < |trace[k].tasks| && !trace[k].tasks[t].call.Outside?
    requires t < |trace[n].tasks| && trace[n].tasks[t].call.Picked?
    ensures t < |trace[m].tasks| && trace[m].tasks[t].call == Picked(trace[k].tasks[t].call.request)
    ensures trace[m].tasks[t].staticPrio == LastWritten(trace, steps, t, k, m)
    decreases m
  {
    RunInv(trace, steps, m - 1);
    assert Follows(trace, steps, m - 1);
    if m - 1 == k {
      assert InRange(trace[k].tasks[t]);
    } else {
      SincePick(trace, steps, t, k, m - 1, n);
      if steps[m - 1] == Return(t) { UnpickedStays(trace, steps, t, m, n); }
    }
  }

  /** A call that is picked was picked: there is a last pick, made while it was under way. */
  lemma {:induction false} PickBefore(trace: seq<State>, steps: seq<Step>, t: nat, n: nat) returns (k: nat)
    requires Run(trace, steps) && n <= |steps| && t < |trace[n].tasks| && trace[n].tasks[t].call.Picked?
    ensures LastPick(steps, t, k, n) && t < |trace[k].tasks| && !trace[k].tasks[t].call.Outside?
    decreases n
  {
    assert n > 0;
    assert Follows(trace, steps, n - 1);
    if steps[n - 1] == Pick(t) {
      k := n - 1;
    } else {
      k := PickBefore(trace, steps, t, n - 1);
    }
  }

  /** A call returns with static_prio as requested exactly when the last Renice or SetScheduler after its last pick,
      if any, left just that value. */
  lemma ReturnExact(trace: seq<State>, steps: seq<Step>, t: nat, n: nat) returns (k: nat)
    requires Run(trace, steps) && n < |steps| && steps[n] == Return(t)
    ensures LastPick(steps, t, k, n) && t < |trace[k].tasks| && !trace[k].tasks[t].call.Outside?
    ensures t < |trace[n + 1].tasks| && trace[n + 1].returned == trace[n].returned + [(t, 1)]
    ensures
      var q, request := trace[n + 1].tasks[t], trace[k].tasks[t].call.request;
      q.fixed == request && 101 <= request <= 139
        && (q.staticPrio == request <==> LastWritten(trace, steps, t, k, n) == request)
  {
    assert Follows(trace, steps, n);
    k := PickBefore(trace, steps, t, n);
    SincePick(trace, steps, t, k, n, n);
    RunInv(trace, steps, n);
    assert InRange(trace[n].tasks[t]);
  }

  lemma {:induction false} NoWriteSince(trace: seq<State>, steps: seq<Step>, t: nat, k: nat, n: nat)
    requires k < n <= |steps| < |trace| && t < |trace[k].tasks| && !trace[k].tasks[t].call.Outside?
    requires forall i :: k < i < n ==> !Writes(steps[i], t)
    ensures LastWritten(trace, steps, t, k, n) == trace[k].tasks[t].call.request
    decreases n
  {
    if n == k + 1 {
    } else {
      NoWriteSince(trace, steps, t, k, n - 1);
    }
  }

  /** So a call that nobody disturbs after the pick returns 1 with static_prio as requested. */
  lemma CallReturns(trace: seq<State>, steps: seq<Step>, t: nat, k: nat, n: nat)
    requires Run(trace, steps) && n < |steps| && steps[n] == Return(t) && LastPick(steps, t, k, n)
    requires t < |trace[k].tasks| && !trace[k].tasks[t].call.Outside? && forall i :: k < i < n ==> !Writes(steps[i], t)
    ensures t < |trace[n + 1].tasks| && trace[n + 1].returned == trace[n].returned + [(t, 1)]
    ensures trace[n + 1].tasks[t].staticPrio == trace[n + 1].tasks[t].fixed == trace[k].tasks[t].call.request
  {
    NoWriteSince(trace, steps, t, k, n);
    var j := ReturnExact(trace, steps, t, n);
    assert steps[j] == steps[k] == Pick(t);
  }

  /** The system call and the hook change no priority the scheduler acts on. */
  lemma CallFrame(s: State, a: Step, t: nat)
    requires Enabled(s, a) && (a.Enter? || a.Pick? || a.Return?) && t < |s.tasks|
    ensures
      var p, q := s.tasks[t], Apply(s, a).tasks[t];
      q.prio == p.prio && q.normalPrio == p.normalPrio && q.weight == p.weight && q.policy == p.policy
  {
    match a
    case Enter(_, _) =>
    case Pick(_) =>
    case Return(_) =>
  }

  /** A child does not copy its parent's field or a boost of its parent; the field reaches it only through
      static_prio. */
  lemma ChildIgnoresField(p: Task, x: int, boosted: int)
    ensures ChildOf(p.(fixed := x, prio := boosted)) == ChildOf(p)
    ensures ChildOf(p).Some? ==>
      var c := ChildOf(p).value; c.fixed == 0 && c.call.Outside? && c.prio == c.normalPrio
  {
  }

  /** With reset-on-fork there is always a child: an ordinary task, not favoured, weighted by its static priority. */
  lemma ChildReset(p: Task)
    requires InRange(p) && p.resetOnFork
    ensures ChildOf(p).Some?
    ensures
      var c := ChildOf(p).value;
      && InRange(c) && c.policy != Deadline && !RtPolicy(c.policy) && PrioToNice(c.staticPrio) >= 0
      && c.prio == c.normalPrio == c.staticPrio == NormalPrio(c) && !c.resetOnFork && Agrees(c)
  {
  }

  /** A child is scheduled by its static priority exactly when its parent is or the fork recomputes its weight. */
  lemma ChildAgreesIff(p: Task)
    requires ChildOf(p).Some?
    ensures Agrees(ChildOf(p).value) <==> Agrees(p) || p.resetOnFork
  {
  }

  /** A nice value set while the field is set is undone at the next pick, unless it is the same. */
  lemma ReniceLastsIff(p: Task, nice: int)
    requires InRange(p) && MIN_NICE <= nice <= MAX_NICE
    ensures PrioToNice(Hook(SetUserNice(p, nice)).staticPrio) == nice <==> p.fixed == 0 || p.fixed == NiceToPrio(nice)
  {
  }

  /** A renice gives a fair task its weight except where the hook has written that nice value already: then it
      returns early. */
  lemma ReniceWeighsIff(p: Task, nice: int)
    requires InRange(p) && FairPolicy(p.policy) && MIN_NICE <= nice <= MAX_NICE
    ensures SetUserNice(p, nice).weight == Entry(NiceToPrio(nice) - MAX_RT_PRIO) <==>
      PrioToNice(p.staticPrio) != nice || p.weight == Entry(p.staticPrio - MAX_RT_PRIO)
  {
  }

  /** Picked with 139 requested, a nice-0 task cannot be reniced to 19: it keeps the weight of nice 0. */
  lemma ReniceIgnored()
    ensures
      var p := Hook(Task(Normal, 0, 120, 120, 120, Entry(20), 139, false, Outside));
      InRange(p) && p.staticPrio == 139 && SetUserNice(p, 19) == p && p.weight == Entry(20)
  {
  }

  /** sched_setscheduler() names no nice value and takes the one static_prio stands for. */
  function Legacy(p: Task, policy: Policy, rtPriority: int, reset: bool): Attr
  {
    Attr(policy, rtPriority, PrioToNice(p.staticPrio), reset)
  }

  /** Such a call makes a task be scheduled by its static priority exactly when it changes the policy, or it was so
      already. */
  lemma LegacyAdoptsIff(p: Task, policy: Policy, reset: bool, boost: int)
    requires InRange(p) && FairPolicy(policy)
    ensures Agrees(SetParams(p, Legacy(p, policy, 0, reset), boost)) <==> policy != p.policy || Agrees(p)
  {
  }

  // ---- load weight and static priority ----

  /** A fair task is scheduled by the weight of its static priority. */
  predicate Agrees(p: Task)
  {
    FairPolicy(p.policy) ==> p.weight == Entry(p.staticPrio - MAX_RT_PRIO) && p.normalPrio == p.staticPrio
  }

  predicate AllAgree(s: State) { forall t :: 0 <= t < |s.tasks| ==> Agrees(s.tasks[t]) }

  /** The hook is about to write a different static priority into a fair task. */
  predicate Detaches(s: State, a: Step)
    requires Enabled(s, a)
  {
    a.Pick? && FairPolicy(s.tasks[a.t].policy) && s.tasks[a.t].fixed != 0
      && s.tasks[a.t].fixed != s.tasks[a.t].staticPrio
  }

  lemma StepAgrees(s: State, a: Step)
    requires Inv(s) && Enabled(s, a) && AllAgree(s)
    ensures AllAgree(Apply(s, a)) <==> !Detaches(s, a)
  {
    var r := Apply(s, a);
    assert InRange(s.tasks[a.t]) && Agrees(s.tasks[a.t]);
    if Detaches(s, a) {
      assert !Agrees(r.tasks[a.t]);
    } else {
      forall t | 0 <= t < |r.tasks| ensures Agrees(r.tasks[t]) {
        if t < |s.tasks| { assert Agrees(s.tasks[t]); }
      }
    }
  }

  predicate AgreeUpTo(trace: seq<State>, n: nat)
    requires n < |trace|
  {
    AllAgree(trace[n]) && (n == 0 || AgreeUpTo(trace, n - 1))
  }

  predicate NeverDetached(trace: seq<State>, steps: seq<Step>, n: nat)
    requires n <= |steps| < |trace|
  {
    n == 0 || (NeverDetached(trace, steps, n - 1)
      && !(Enabled(trace[n - 1], steps[n - 1]) && Detaches(trace[n - 1], steps[n - 1])))
  }

  /** Over a run, weight and static priority agree throughout exactly when the hook never writes a different value. */
  lemma {:induction false} RunAgreesIff(trace: seq<State>, steps: seq<Step>, n: nat)
    requires Run(trace, steps) && n <= |steps| && AllAgree(trace[0])
    ensures AgreeUpTo(trace, n) <==> NeverDetached(trace, steps, n)
  {
    if n == 0 {
    } else {
      RunAgreesIff(trace, steps, n - 1);
      RunInv(trace, steps, n - 1);
      assert Follows(trace, steps, n - 1);
      if AllAgree(trace[n - 1]) { StepAgrees(trace[n - 1], steps[n - 1]); }
    }
  }

  /** A nice-0 task asks for 139: it reads as nice 19 from then on and keeps the weight and priority of nice 0. */
  lemma RequestWithoutEffect()
    ensures
      var p := Task(Normal, 0, 120, 120, 120, Entry(20), 0, false, Outside);
      var s := State([p], []);
      && Init(s) && AllAgree(s) && Enabled(s, Enter(0, 139)) && Enabled(Apply(s, Enter(0, 139)), Pick(0))
      && var q := Apply(Apply(s, Enter(0, 139)), Pick(0)).tasks[0];
      q.staticPrio == 139 && q.prio == 120 && q.weight == Entry(20)
  {
  }
}
