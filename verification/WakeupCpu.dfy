/**
 The same wakeup protocol with every waker on a CPU of its own. A waker holds
 the task's pi_lock with interrupts off, so its CPU stays where it is meanwhile.
 It follows that ttwu_queue_wakelist() never queues to the waker's own CPU.
 */
module WakeupCpu {
  import opened Wakeup

  /** on[t] is the CPU of the waker that holds t's pi_lock. */
  datatype World = World(s: State, on: seq<Cpu>)

  /** One step, taken on behalf of a waker on CPU c where it begins a wakeup. */
  datatype Move = Move(a: Step, c: Cpu)

  predicate Busy(w: World, t: TaskId) { t < |w.s.tasks| == |w.on| && w.s.tasks[t].wake != NoWaker }

  predicate ShareCache(llc: Cpu -> nat, c: Cpu, d: Cpu) { c == d || llc(c) == llc(d) }

  /** ttwu_queue_cond() on an active CPU. */
  predicate QueueCond(llc: Cpu -> nat, here: Cpu, cpu: Cpu, onCpu: bool, running: nat)
  {
    !ShareCache(llc, here, cpu) || (onCpu && running <= 1)
  }

  /** The test that ttwu_queue_wakelist() makes for t passes. */
  predicate Lists(w: World, llc: Cpu -> nat, t: TaskId, a: QueueAct)
    requires t < |w.s.tasks| == |w.on| && w.s.tasks[t].cpu < |w.s.rqs|
  {
    var cpu := w.s.tasks[t].cpu;
    QueueCond(llc, w.on[t], cpu, a.ListOnCpu?, |w.s.rqs[cpu].queue|)
  }

  /** Where a waker can begin: its CPU does not hold its runqueue lock, and it wakes another task than its own. */
  predicate CanWake(s: State, c: Cpu, t: TaskId) { RqFree(s, c) && s.rqs[c].curr != t }

  predicate WorldEnabled(w: World, llc: Cpu -> nat, m: Move)
  {
    && |w.on| == |w.s.tasks| && Enabled(w.s, m.a)
    && match m.a
       case ScheduleStep(c, _) => forall t :: 0 <= t < |w.on| && Busy(w, t) ==> w.on[t] != c
       case WakeStep(t, wake) => wake.LockPi? ==> CanWake(w.s, m.c, t)
       case QueueStep(t, queue) => queue.ListOnCpu? || queue.List? ==> Lists(w, llc, t, queue)
       case _ => true
  }

  function WorldApply(w: World, llc: Cpu -> nat, m: Move): World
    requires WorldEnabled(w, llc, m)
  {
    World(Apply(w.s, m.a), if m.a.WakeStep? && m.a.wake.LockPi? then w.on[m.a.t := m.c] else w.on)
  }

  /** A wakelist entry is about to be made on the waker's own CPU: the warning fires. */
  predicate Warns(w: World, llc: Cpu -> nat, t: TaskId, a: QueueAct)
  {
    && |w.on| == |w.s.tasks| && QueueEnabled(w.s, t, a) && (a.ListOnCpu? || a.List?)
    && Lists(w, llc, t, a) && w.s.tasks[t].cpu == w.on[t]
  }

  // ---- invariant ----

  predicate WakerPlaced(w: World, t: TaskId)
    requires t < |w.s.tasks| == |w.on|
  {
    w.s.tasks[t].wake != NoWaker ==>
      CanWake(w.s, w.on[t], t) && (w.s.tasks[t].wake.SawOnCpu? ==> w.s.tasks[t].cpu != w.on[t])
  }

  predicate AllPlaced(w: World)
  {
    |w.on| == |w.s.tasks| && forall t :: 0 <= t < |w.on| ==> WakerPlaced(w, t)
  }

  /** A task on a CPU is that CPU's current task, or the one it is switching from. */
  lemma OnCpuHere(s: State, t: TaskId)
    requires Inv(s) && t < |s.tasks| && s.tasks[t].onCpu
    ensures s.tasks[t].cpu < |s.rqs| && !CanWake(s, s.tasks[t].cpu, t)
  {
    assert TaskPlaced(s, t) && TaskOk(s.tasks[t]);
  }

  /** Steps outside __schedule() change no program point and no current task. */
  lemma PcKept(s: State, a: Step, c: Cpu, u: TaskId)
    requires Enabled(s, a) && !a.ScheduleStep? && c < |s.rqs| && u < |s.tasks|
    ensures var r := Apply(s, a); |r.tasks| == |s.tasks| && |r.rqs| == |s.rqs|
    ensures Apply(s, a).rqs[c].curr == s.rqs[c].curr && Apply(s, a).tasks[u].pc == s.tasks[u].pc
  {
    match a
    case TaskStep(t, self) => TaskPc(s.tasks[t], self);
    case WakeStep(t, wake) =>
    case QueueStep(t, queue) => QueuePc(s.rqs[s.tasks[t].cpu], t, s.tasks[t], queue);
    case MoveStep(t, move) => MovePc(s, t, move, c, u);
  }

  lemma TaskPc(k: Task, a: TaskAct)
    requires TaskEnabled(k, a)
    ensures TaskApply(k, a).pc == k.pc && TaskApply(k, a).wake == k.wake && TaskApply(k, a).cpu == k.cpu
  {
    match a
    case SetState(_) =>
    case SetIowait(_) =>
    case Publish =>
    case TestCondition =>
    case Abandon =>
    case WakeSelf(_, _) =>
  }

  lemma QueuePc(r: Rq, t: TaskId, k: Task, a: QueueAct)
    requires QueueReady(k, a)
    ensures QueueRq(r, t, k, a).curr == r.curr && QueueRecord(k, a).pc == k.pc
    ensures k.wake != NoWaker && !QueueRecord(k, a).wake.SawOnCpu?
  {
    match a
    case ListOnCpu =>
    case LowerIowait =>
    case SetCpu =>
    case List =>
    case Activate =>
  }

  lemma MovePc(s: State, t: TaskId, a: MoveAct, c: Cpu, u: TaskId)
    requires MoveEnabled(s, t, a) && c < |s.rqs| && u < |s.tasks|
    ensures var r := MoveApply(s, t, a); |r.tasks| == |s.tasks| && |r.rqs| == |s.rqs|
    ensures MoveApply(s, t, a).rqs[c].curr == s.rqs[c].curr
    ensures var k := MoveApply(s, t, a).tasks[u]; k.pc == s.tasks[u].pc && k.wake == s.tasks[u].wake
    ensures u != t ==> MoveApply(s, t, a).tasks[u] == s.tasks[u]
  {
    match a
    case Drain(_) =>
    case MoveOut(_) =>
    case MoveIn =>
  }

  /** A CPU with a waker on it stays as it is. */
  lemma CpuKept(w: World, llc: Cpu -> nat, m: Move, c: Cpu, t: TaskId)
    requires WorldEnabled(w, llc, m) && CanWake(w.s, c, t) && Inv(w.s)
    requires m.a.ScheduleStep? ==> m.a.c != c
    ensures CanWake(Apply(w.s, m.a), c, t)
  {
    if m.a.ScheduleStep? {
      OtherCpu(w.s, m.a.c, m.a.sched, c);
    } else {
      PcKept(w.s, m.a, c, w.s.rqs[c].curr);
    }
  }

  /** __schedule() on d writes the records of its current task, the one it picks and the one it finishes. */
  lemma ScheduleTouches(s: State, d: Cpu, a: ScheduleAct, c: Cpu, u: TaskId)
    requires ScheduleEnabled(s, d, a) && c < |s.rqs| && c != d && u < |s.tasks| && u != s.rqs[d].curr
    requires (a.Pick? ==> u != a.next) && (a.Finish? ==> u != CurrentPc(s, d).prev)
    ensures var r := ScheduleApply(s, d, a); |r.tasks| == |s.tasks| && |r.rqs| == |s.rqs|
    ensures ScheduleApply(s, d, a).tasks[u] == s.tasks[u] && ScheduleApply(s, d, a).rqs[c] == s.rqs[c]
  {
    match a
    case Lock =>
    case Load(_) =>
    case Decide(_) =>
    case RaiseIowait =>
    case Pick(_) =>
    case Finish =>
    case Unlock =>
  }

  lemma OtherCpu(s: State, d: Cpu, a: ScheduleAct, c: Cpu)
    requires Inv(s) && ScheduleEnabled(s, d, a) && RqFree(s, c) && c != d
    ensures RqFree(ScheduleApply(s, d, a), c) && ScheduleApply(s, d, a).rqs[c].curr == s.rqs[c].curr
  {
    assert RqOk(s, c) && RqOk(s, d);
    if a.Pick? { assert TaskPlaced(s, a.next); }
    ScheduleTouches(s, d, a, c, s.rqs[c].curr);
  }

  /** Only its waker changes how far a wakeup is; __schedule() and the task itself leave task_cpu alone. */
  lemma WakeKept(s: State, a: Step, t: TaskId)
    requires Enabled(s, a) && t < |s.tasks|
    ensures |Apply(s, a).tasks| == |s.tasks|
    ensures !((a.WakeStep? || a.QueueStep?) && a.t == t) ==> Apply(s, a).tasks[t].wake == s.tasks[t].wake
    ensures !((a.MoveStep? || a.QueueStep?) && a.t == t) ==> Apply(s, a).tasks[t].cpu == s.tasks[t].cpu
  {
    match a
    case TaskStep(u, self) => TaskPc(s.tasks[u], self);
    case ScheduleStep(c, sched) => ScheduleWake(s, c, sched, t);
    case WakeStep(u, wake) =>
    case QueueStep(u, queue) =>
    case MoveStep(u, move) => MovePc(s, u, move, 0, t);
  }

  lemma ScheduleWake(s: State, c: Cpu, a: ScheduleAct, t: TaskId)
    requires ScheduleEnabled(s, c, a) && t < |s.tasks|
    ensures |ScheduleApply(s, c, a).tasks| == |s.tasks|
    ensures ScheduleApply(s, c, a).tasks[t].wake == s.tasks[t].wake
      && ScheduleApply(s, c, a).tasks[t].cpu == s.tasks[t].cpu
  {
    match a
    case Lock =>
    case Load(_) =>
    case Decide(_) =>
    case RaiseIowait =>
    case Pick(_) =>
    case Finish =>
    case Unlock =>
  }

  /** While the waker is on its WF_ON_CPU path nobody moves the task. */
  lemma CpuOfWoken(s: State, a: Step, t: TaskId)
    requires Inv(s) && Enabled(s, a) && t < |s.tasks| && s.tasks[t].wake.SawOnCpu?
    ensures |Apply(s, a).tasks| == |s.tasks|
    ensures Apply(s, a).tasks[t].cpu == s.tasks[t].cpu
  {
    assert TaskOk(s.tasks[t]) && TaskPlaced(s, t);
    WakeKept(s, a, t);
  }

  lemma StepPlaced(w: World, llc: Cpu -> nat, m: Move, t: TaskId)
    requires Inv(w.s) && AllPlaced(w) && WorldEnabled(w, llc, m) && t < |w.on|
    ensures var r := WorldApply(w, llc, m); t < |r.s.tasks| == |r.on| && WakerPlaced(r, t)
  {
    assert WakerPlaced(w, t);
    WakeKept(w.s, m.a, t);
    var r := WorldApply(w, llc, m);
    if r.s.tasks[t].wake != NoWaker {
      if w.s.tasks[t].wake != NoWaker {
        assert Busy(w, t);
        CpuKept(w, llc, m, w.on[t], t);
      } else {
        WakeBegins(w.s, m.a, t);
        CpuKept(w, llc, m, m.c, t);
      }
    }
    if r.s.tasks[t].wake.SawOnCpu? { SawElsewhere(w, llc, m, t); }
  }

  /** Only LockPi begins a wakeup. */
  lemma WakeBegins(s: State, a: Step, t: TaskId)
    requires Enabled(s, a) && t < |s.tasks| == |Apply(s, a).tasks|
    requires s.tasks[t].wake == NoWaker && Apply(s, a).tasks[t].wake != NoWaker
    ensures a.WakeStep? && a.t == t && a.wake.LockPi?
  {
    WakeKept(s, a, t);
  }

  /** The waker sees on_cpu set on another CPU than its own. */
  lemma SawElsewhere(w: World, llc: Cpu -> nat, m: Move, t: TaskId)
    requires Inv(w.s) && WorldEnabled(w, llc, m) && t < |w.on| && WakerPlaced(w, t)
    requires t < |WorldApply(w, llc, m).s.tasks| && WorldApply(w, llc, m).s.tasks[t].wake.SawOnCpu?
    ensures WorldApply(w, llc, m).s.tasks[t].cpu != WorldApply(w, llc, m).on[t]
  {
    if w.s.tasks[t].wake.SawOnCpu? {
      CpuOfWoken(w.s, m.a, t);
    } else {
      SeesOnCpu(w.s, m.a, t);
      OnCpuHere(w.s, t);
    }
  }

  lemma SeesOnCpu(s: State, a: Step, t: TaskId)
    requires Enabled(s, a) && t < |s.tasks| == |Apply(s, a).tasks|
    requires !s.tasks[t].wake.SawOnCpu? && Apply(s, a).tasks[t].wake.SawOnCpu?
    ensures a == WakeStep(t, ReadOnCpu) && s.tasks[t].onCpu && Apply(s, a).tasks[t].cpu == s.tasks[t].cpu
  {
    WakeKept(s, a, t);
    if a.QueueStep? { QueuePc(s.rqs[s.tasks[a.t].cpu], a.t, s.tasks[a.t], a.queue); }
  }

  // ---- whole runs ----

  predicate Moves(trace: seq<World>, moves: seq<Move>, llc: Cpu -> nat, n: nat)
    requires n < |moves| && n + 1 < |trace|
  {
    WorldEnabled(trace[n], llc, moves[n]) && trace[n + 1] == WorldApply(trace[n], llc, moves[n])
  }

  ghost predicate WorldRun(trace: seq<World>, moves: seq<Move>, llc: Cpu -> nat)
  {
    && |trace| == |moves| + 1 && Init(trace[0].s) && |trace[0].on| == |trace[0].s.tasks|
    && forall n :: 0 <= n < |moves| ==> Moves(trace, moves, llc, n)
  }

  lemma {:induction false} WorldInv(trace: seq<World>, moves: seq<Move>, llc: Cpu -> nat, n: nat)
    requires WorldRun(trace, moves, llc) && n < |trace|
    ensures Inv(trace[n].s) && AllPlaced(trace[n])
  {
    if n == 0 {
      InitInv(trace[0].s);
    } else {
      WorldInv(trace, moves, llc, n - 1);
      var w, m := trace[n - 1], moves[n - 1];
      assert Moves(trace, moves, llc, n - 1);
      StepInv(w.s, m.a);
      forall t | 0 <= t < |trace[n].on|
        ensures |trace[n].on| == |trace[n].s.tasks| && WakerPlaced(trace[n], t)
      {
        StepPlaced(w, llc, m, t);
      }
    }
  }

  /** Over every run, for any number of wakers and whichever CPUs share caches: no waker queues to its own CPU. */
  lemma ListQuiet(trace: seq<World>, moves: seq<Move>, llc: Cpu -> nat, n: nat, t: TaskId, a: QueueAct)
    requires WorldRun(trace, moves, llc) && n < |trace|
    ensures !Warns(trace[n], llc, t, a)
  {
    WorldInv(trace, moves, llc, n);
    assert t < |trace[n].on| ==> WakerPlaced(trace[n], t);
  }
}
