/**
 Lifetime of address spaces over context switches: a kernel thread borrows the
 address space of the task it switches from, context_switch() grabs or hands
 over a reference, and finish_task_switch() drops what the runqueue parked in
 prev_mm after the runqueue lock is released.

 Each CPU passes context_switch(), the part of finish_task_switch() under the
 lock and the drop as separate steps, interleaved with forks, exits, and other
 holders of mm_users and mm_count references on every CPU.
 */
module LazyMm {
  import opened Counting

  datatype Ref = Null | To(m: nat)

  datatype Task = Task(mm: Ref, active: Ref)

  datatype Phase =
    | Running
    | Switched                 // switch_to() done, finish_task_switch() not begun
    | Finishing(mm: Ref)       // prev_mm read into a local and cleared

  datatype Cpu = Cpu(curr: nat, prevMm: Ref, phase: Phase)

  /** Life of the reference that all mm_users share: held, in __mmput() before its mmdrop(), dropped. */
  datatype Shared = Using | Tearing | Dropped

  datatype Mm = Mm(
    users: int,         // mm_users
    count: int,         // mm_count
    freed: bool,        // __mmdrop() ran
    shared: Shared,
    gets: nat,          // mmget() references outside task->mm
    pins: nat)          // other mmgrab() references

  datatype State = State(tasks: seq<Task>, cpus: seq<Cpu>, mms: seq<Mm>)

  datatype Step =
    | Switch(c: nat, next: nat)      // context_switch()
    | Finish(c: nat)                 // finish_task_switch() up to the unlock
    | FinishDrop(c: nat)             // its mmdrop_sched()
    | ForkShared(c: nat)             // copy_mm() with CLONE_VM
    | ForkCopied(c: nat)             // copy_mm() without it
    | ForkKernel(c: nat)             // copy_mm() from a kernel thread
    | ExitMm(c: nat)                 // the task turns into a borrower and still has to mmput()
    | MmGet(m: nat)
    | MmPut(m: nat)
    | MmPutDrop(m: nat)              // the mmdrop() that ends __mmput()
    | MmGrab(m: nat)
    | MmDrop(m: nat)

  const INIT_MM := 0
  const INIT_USERS := 2

  function Statics(m: nat): int { if m == INIT_MM then INIT_USERS else 0 }

  // ---- the references to an address space ----

  function Borrows(m: nat): Task -> int { (t: Task) => One(t.mm.Null? && t.active == To(m)) }

  function Uses(m: nat): Task -> int { (t: Task) => One(t.mm == To(m)) }

  function Parks(m: nat): Cpu -> int { (c: Cpu) => One(c.prevMm == To(m)) + One(c.phase == Finishing(To(m))) }

  predicate IsCurrent(s: State, t: nat) { exists c :: 0 <= c < |s.cpus| && s.cpus[c].curr == t }

  // ---- steps ----

  function Drop(mm: Mm): Mm { mm.(count := mm.count - 1, freed := mm.count == 1) }

  predicate OnCpu(s: State, c: nat)
  {
    c < |s.cpus| && s.cpus[c].curr < |s.tasks| && s.cpus[c].phase.Running?
  }

  predicate Enabled(s: State, a: Step)
  {
    match a
    case Switch(c, n) =>
      OnCpu(s, c) && n < |s.tasks| && !IsCurrent(s, n)
      && (s.tasks[s.cpus[c].curr].active.To? ==> s.tasks[s.cpus[c].curr].active.m < |s.mms|)
    case Finish(c) => c < |s.cpus| && s.cpus[c].phase.Switched?
    case FinishDrop(c) =>
      c < |s.cpus| && s.cpus[c].phase.Finishing? && (s.cpus[c].phase.mm.To? ==> s.cpus[c].phase.mm.m < |s.mms|)
    case ForkShared(c) => UserOn(s, c)
    case ForkCopied(c) => UserOn(s, c)
    case ForkKernel(c) => OnCpu(s, c) && s.tasks[s.cpus[c].curr].mm.Null?
    case ExitMm(c) => UserOn(s, c)
    case MmGet(m) => m < |s.mms| && s.mms[m].users > 0
    case MmPut(m) => m < |s.mms| && s.mms[m].gets > 0
    case MmPutDrop(m) => m < |s.mms| && s.mms[m].shared.Tearing?
    case MmGrab(m) => m < |s.mms| && s.mms[m].count > 0
    case MmDrop(m) => m < |s.mms| && s.mms[m].pins > 0
  }

  predicate UserOn(s: State, c: nat)
  {
    OnCpu(s, c) && s.tasks[s.cpus[c].curr].mm.To? && s.tasks[s.cpus[c].curr].mm.m < |s.mms|
  }

  function Apply(s: State, a: Step): State
    requires Enabled(s, a)
  {
    match a
    case Switch(c, n) => DoSwitch(s, c, n)
    case Finish(c) =>
      s.(cpus := s.cpus[c := s.cpus[c].(prevMm := Null, phase := Finishing(s.cpus[c].prevMm))])
    case FinishDrop(c) =>
      var r := s.cpus[c].phase.mm;
      s.(cpus := s.cpus[c := s.cpus[c].(phase := Running)],
         mms := if r.Null? then s.mms else s.mms[r.m := Drop(s.mms[r.m])])
    case ForkShared(c) =>
      var r := s.tasks[s.cpus[c].curr].mm;
      s.(tasks := s.tasks + [Task(r, r)], mms := s.mms[r.m := s.mms[r.m].(users := s.mms[r.m].users + 1)])
    case ForkCopied(c) =>
      var r := To(|s.mms|);
      s.(tasks := s.tasks + [Task(r, r)], mms := s.mms + [Mm(1, 1, false, Using, 0, 0)])
    case ForkKernel(c) => s.(tasks := s.tasks + [Task(Null, Null)])
    case ExitMm(c) =>
      var t := s.cpus[c].curr;
      var m := s.tasks[t].mm.m;
      s.(tasks := s.tasks[t := s.tasks[t].(mm := Null)],
         mms := s.mms[m := s.mms[m].(count := s.mms[m].count + 1, gets := s.mms[m].gets + 1)])
    case MmGet(m) => s.(mms := s.mms[m := s.mms[m].(users := s.mms[m].users + 1, gets := s.mms[m].gets + 1)])
    case MmPut(m) =>
      var mm := s.mms[m];
      s.(mms := s.mms[m := mm.(users := mm.users - 1, gets := mm.gets - 1,
                               shared := if mm.users == 1 then Tearing else mm.shared)])
    case MmPutDrop(m) => s.(mms := s.mms[m := Drop(s.mms[m]).(shared := Dropped)])
    case MmGrab(m) => s.(mms := s.mms[m := s.mms[m].(count := s.mms[m].count + 1, pins := s.mms[m].pins + 1)])
    case MmDrop(m) => s.(mms := s.mms[m := Drop(s.mms[m]).(pins := s.mms[m].pins - 1)])
  }

  /** The four cases of context_switch(). */
  function DoSwitch(s: State, c: nat, n: nat): State
    requires Enabled(s, Switch(c, n))
  {
    var p := s.cpus[c].curr;
    var prev := s.tasks[p];
    var next := s.tasks[n];
    if next.mm.Null? then
      if prev.mm.To? then
        s.(tasks := s.tasks[n := next.(active := prev.active)],
           mms := if prev.active.Null? then s.mms
                  else s.mms[prev.active.m := s.mms[prev.active.m].(count := s.mms[prev.active.m].count + 1)],
           cpus := s.cpus[c := s.cpus[c].(curr := n, phase := Switched)])
      else
        s.(tasks := s.tasks[n := next.(active := prev.active)][p := prev.(active := Null)],
           cpus := s.cpus[c := s.cpus[c].(curr := n, phase := Switched)])
    else if prev.mm.Null? then
      s.(tasks := s.tasks[p := prev.(active := Null)],
         cpus := s.cpus[c := Cpu(n, prev.active, Switched)])
    else
      s.(cpus := s.cpus[c := s.cpus[c].(curr := n, phase := Switched)])
  }

  // ---- the invariant ----

  predicate InRange(s: State, r: Ref) { r.To? ==> r.m < |s.mms| }

  predicate CpuOk(s: State, c: nat)
    requires c < |s.cpus|
  {
    var cpu := s.cpus[c];
    && cpu.curr < |s.tasks| && s.tasks[cpu.curr].active.To?
    && InRange(s, cpu.prevMm) && (cpu.prevMm.To? ==> cpu.phase.Switched?)
    && (cpu.phase.Finishing? ==> InRange(s, cpu.phase.mm))
  }

  /** A user task runs on its own address space; a kernel thread has one only while it is some CPU's current. */
  predicate TaskOk(s: State, t: nat)
    requires t < |s.tasks|
  {
    var task := s.tasks[t];
    && InRange(s, task.mm) && InRange(s, task.active)
    && (task.mm.To? ==> task.active == task.mm)
    && (task.mm.Null? && task.active.To? ==> IsCurrent(s, t))
  }

  predicate Apart(s: State)
  {
    forall c, d :: 0 <= c < |s.cpus| && 0 <= d < |s.cpus| && s.cpus[c].curr == s.cpus[d].curr ==> c == d
  }

  predicate Placed(s: State)
  {
    && (forall c :: 0 <= c < |s.cpus| ==> CpuOk(s, c))
    && (forall t :: 0 <= t < |s.tasks| ==> TaskOk(s, t))
    && Apart(s)
  }

  function References(s: State, m: nat): int
    requires m < |s.mms|
  {
    One(!s.mms[m].shared.Dropped?) + Sum(s.tasks, Borrows(m)) + Sum(s.cpus, Parks(m)) + s.mms[m].pins
  }

  predicate MmOk(s: State, m: nat)
    requires m < |s.mms|
  {
    var mm := s.mms[m];
    && mm.count == References(s, m)
    && mm.users == Sum(s.tasks, Uses(m)) + mm.gets + Statics(m)
    && mm.users >= 0 && (mm.shared.Using? <==> mm.users > 0)
    && (mm.freed <==> mm.count == 0)
  }

  predicate Inv(s: State)
  {
    Placed(s) && |s.mms| > 0 && forall m :: 0 <= m < |s.mms| ==> MmOk(s, m)
  }

  /** Boot: every CPU runs its idle thread on init_mm, whose two static users are never put. */
  predicate Init(s: State)
  {
    && s.mms == [Mm(INIT_USERS, 1 + |s.cpus|, false, Using, 0, 0)]
    && |s.tasks| == |s.cpus|
    && (forall c :: 0 <= c < |s.cpus| ==> s.cpus[c] == Cpu(c, Null, Running))
    && (forall t :: 0 <= t < |s.tasks| ==> s.tasks[t] == Task(Null, To(INIT_MM)))
  }

  // ---- sums under the updates the steps make ----

  lemma SumNonNegative(s: State, m: nat)
    ensures Sum(s.tasks, Borrows(m)) >= 0 && Sum(s.tasks, Uses(m)) >= 0 && Sum(s.cpus, Parks(m)) >= 0
    ensures forall t :: 0 <= t < |s.tasks| ==> Borrows(m)(s.tasks[t]) <= Sum(s.tasks, Borrows(m))
    ensures forall t :: 0 <= t < |s.tasks| ==> Uses(m)(s.tasks[t]) <= Sum(s.tasks, Uses(m))
    ensures forall c :: 0 <= c < |s.cpus| ==> Parks(m)(s.cpus[c]) <= Sum(s.cpus, Parks(m))
  {
    SumBounds(s.tasks, Borrows(m));
    SumBounds(s.tasks, Uses(m));
    SumBounds(s.cpus, Parks(m));
  }

  lemma {:induction false} SumAll<T>(s: seq<T>, f: T -> int)
    requires forall x :: x in s ==> f(x) == 1
    ensures Sum(s, f) == |s|
  {
    if s == [] {
    } else {
      SumAll(s[..|s| - 1], f);
    }
  }

  lemma InitInv(s: State)
    requires Init(s)
    ensures Inv(s)
  {
    SumAll(s.tasks, Borrows(INIT_MM));
    SumZero(s.tasks, Uses(INIT_MM));
    SumZero(s.cpus, Parks(INIT_MM));
    forall t | 0 <= t < |s.tasks| ensures TaskOk(s, t) { assert s.cpus[t].curr == t; }
  }

  /** The references to m after a context switch, against those before. */
  lemma SwitchReferences(s: State, c: nat, n: nat, m: nat)
    requires Inv(s) && Enabled(s, Switch(c, n)) && m < |s.mms|
    ensures MmOk(DoSwitch(s, c, n), m)
  {
    var p := s.cpus[c].curr;
    var prev := s.tasks[p];
    var next := s.tasks[n];
    var r := DoSwitch(s, c, n);
    assert CpuOk(s, c) && TaskOk(s, p) && TaskOk(s, n) && MmOk(s, m);
    assert s.cpus[c].prevMm.Null?;
    assert n != p;
    SumUpdate(s.cpus, Parks(m), c, r.cpus[c]);
    if next.mm.Null? {
      assert next.active.Null?;
      SumUpdate(s.tasks, Borrows(m), n, next.(active := prev.active));
      SumUpdate(s.tasks, Uses(m), n, next.(active := prev.active));
      if prev.mm.Null? {
        SumUpdate(s.tasks[n := next.(active := prev.active)], Borrows(m), p, prev.(active := Null));
        SumUpdate(s.tasks[n := next.(active := prev.active)], Uses(m), p, prev.(active := Null));
      } else {
        SumNonNegative(s, m);
      }
    } else if prev.mm.Null? {
      SumUpdate(s.tasks, Borrows(m), p, prev.(active := Null));
      SumUpdate(s.tasks, Uses(m), p, prev.(active := Null));
    }
  }

  lemma SwitchPlaced(s: State, c: nat, n: nat)
    requires Inv(s) && Enabled(s, Switch(c, n))
    ensures Placed(DoSwitch(s, c, n))
  {
    var r := DoSwitch(s, c, n);
    var p := s.cpus[c].curr;
    assert CpuOk(s, c) && TaskOk(s, p) && TaskOk(s, n);
    forall d | 0 <= d < |r.cpus| ensures CpuOk(r, d) { assert CpuOk(s, d); }
    forall t | 0 <= t < |r.tasks| ensures TaskOk(r, t) {
      assert TaskOk(s, t);
      if t == n {
        assert r.cpus[c].curr == n;
      } else if t != p && s.tasks[t].mm.Null? && s.tasks[t].active.To? {
        var d :| 0 <= d < |s.cpus| && s.cpus[d].curr == t;
        assert r.cpus[d].curr == t;
      }
    }
  }

  lemma FinishInv(s: State, a: Step)
    requires Inv(s) && Enabled(s, a) && (a.Finish? || a.FinishDrop?)
    ensures Inv(Apply(s, a))
  {
    var r := Apply(s, a);
    var c := a.c;
    assert CpuOk(s, c);
    forall m | 0 <= m < |r.mms| ensures MmOk(r, m) {
      assert MmOk(s, m);
      SumUpdate(s.cpus, Parks(m), c, r.cpus[c]);
      SumNonNegative(s, m);
    }
    FinishPlaced(s, a);
  }

  lemma FinishPlaced(s: State, a: Step)
    requires Inv(s) && Enabled(s, a) && (a.Finish? || a.FinishDrop?)
    ensures Placed(Apply(s, a))
  {
    var r := Apply(s, a);
    assert CpuOk(s, a.c);
    forall d | 0 <= d < |r.cpus| ensures CpuOk(r, d) { assert CpuOk(s, d); }
    SameTasks(s, r);
  }

  /** Tasks stay well placed when only counters, phases and prev_mm change. */
  lemma SameTasks(s: State, r: State)
    requires Placed(s) && r.tasks == s.tasks && |r.cpus| == |s.cpus| && |r.mms| >= |s.mms|
    requires forall c :: 0 <= c < |s.cpus| ==> r.cpus[c].curr == s.cpus[c].curr
    ensures forall t :: 0 <= t < |r.tasks| ==> TaskOk(r, t)
    ensures Apart(r)
  {
    forall t | 0 <= t < |r.tasks| ensures TaskOk(r, t) {
      assert TaskOk(s, t);
      CurrentSame(s, r, t);
    }
  }

  lemma CurrentSame(s: State, r: State, t: nat)
    requires |r.cpus| == |s.cpus| && forall c :: 0 <= c < |s.cpus| ==> r.cpus[c].curr == s.cpus[c].curr
    ensures IsCurrent(s, t) ==> IsCurrent(r, t)
  {
    if IsCurrent(s, t) {
      var c :| 0 <= c < |s.cpus| && s.cpus[c].curr == t;
      assert r.cpus[c].curr == t;
    }
  }

  lemma CountersInv(s: State, a: Step)
    requires Inv(s) && Enabled(s, a)
    requires a.MmGet? || a.MmPut? || a.MmPutDrop? || a.MmGrab? || a.MmDrop?
    ensures Inv(Apply(s, a))
  {
    var r := Apply(s, a);
    forall m | 0 <= m < |r.mms| ensures MmOk(r, m) {
      assert MmOk(s, m);
      SumNonNegative(s, m);
    }
    forall d | 0 <= d < |r.cpus| ensures CpuOk(r, d) { assert CpuOk(s, d); }
    SameTasks(s, r);
  }

  lemma NewTaskPlaced(s: State, r: State, task: Task)
    requires Placed(s) && r.tasks == s.tasks + [task] && r.cpus == s.cpus && |r.mms| >= |s.mms|
    requires InRange(r, task.mm) && task.active == task.mm
    ensures Placed(r)
  {
    forall d | 0 <= d < |r.cpus| ensures CpuOk(r, d) { assert CpuOk(s, d); }
    forall t | 0 <= t < |r.tasks| ensures TaskOk(r, t) {
      if t < |s.tasks| {
        assert TaskOk(s, t);
        CurrentSame(s, r, t);
      }
    }
  }

  lemma ForkInv(s: State, a: Step)
    requires Inv(s) && Enabled(s, a) && (a.ForkShared? || a.ForkCopied? || a.ForkKernel?)
    ensures Inv(Apply(s, a))
  {
    var r := Apply(s, a);
    assert CpuOk(s, a.c) && TaskOk(s, s.cpus[a.c].curr);
    var task := r.tasks[|s.tasks|];
    NewTaskPlaced(s, r, task);
    forall m | 0 <= m < |r.mms| ensures MmOk(r, m) {
      SumAppend(s.tasks, Borrows(m), task);
      SumAppend(s.tasks, Uses(m), task);
      if m < |s.mms| {
        assert MmOk(s, m);
        SumNonNegative(s, m);
      } else {
        FreshUnreferenced(s);
      }
    }
  }

  lemma FreshUnreferenced(s: State)
    requires Inv(s)
    ensures Sum(s.tasks, Borrows(|s.mms|)) == 0 && Sum(s.tasks, Uses(|s.mms|)) == 0 && Sum(s.cpus, Parks(|s.mms|)) == 0
  {
    forall t | 0 <= t < |s.tasks| ensures Borrows(|s.mms|)(s.tasks[t]) == 0 && Uses(|s.mms|)(s.tasks[t]) == 0 {
      assert TaskOk(s, t);
    }
    forall c | 0 <= c < |s.cpus| ensures Parks(|s.mms|)(s.cpus[c]) == 0 { assert CpuOk(s, c); }
    SumZero(s.tasks, Borrows(|s.mms|));
    SumZero(s.tasks, Uses(|s.mms|));
    SumZero(s.cpus, Parks(|s.mms|));
  }

  lemma ExitInv(s: State, c: nat)
    requires Inv(s) && Enabled(s, ExitMm(c))
    ensures Inv(Apply(s, ExitMm(c)))
  {
    var r := Apply(s, ExitMm(c));
    var p := s.cpus[c].curr;
    assert CpuOk(s, c) && TaskOk(s, p);
    forall m | 0 <= m < |r.mms| ensures MmOk(r, m) {
      assert MmOk(s, m);
      SumUpdate(s.tasks, Borrows(m), p, r.tasks[p]);
      SumUpdate(s.tasks, Uses(m), p, r.tasks[p]);
      SumNonNegative(s, m);
    }
    forall d | 0 <= d < |r.cpus| ensures CpuOk(r, d) { assert CpuOk(s, d); }
    forall t | 0 <= t < |r.tasks| ensures TaskOk(r, t) {
      assert TaskOk(s, t);
      assert r.cpus[c].curr == p;
      CurrentSame(s, r, t);
    }
  }

  lemma StepInv(s: State, a: Step)
    requires Inv(s) && Enabled(s, a)
    ensures Inv(Apply(s, a))
  {
    match a
    case Switch(c, n) =>
      SwitchPlaced(s, c, n);
      forall m | 0 <= m < |s.mms| ensures MmOk(DoSwitch(s, c, n), m) { SwitchReferences(s, c, n, m); }
    case Finish(c) => FinishInv(s, a);
    case FinishDrop(c) => FinishInv(s, a);
    case ForkShared(c) => ForkInv(s, a);
    case ForkCopied(c) => ForkInv(s, a);
    case ForkKernel(c) => ForkInv(s, a);
    case ExitMm(c) => ExitInv(s, c);
    case MmGet(m) => CountersInv(s, a);
    case MmPut(m) => CountersInv(s, a);
    case MmPutDrop(m) => CountersInv(s, a);
    case MmGrab(m) => CountersInv(s, a);
    case MmDrop(m) => CountersInv(s, a);
  }

  // ---- whole runs ----

  predicate Follows(trace: seq<State>, steps: seq<Step>, n: nat)
    requires |trace| == |steps| + 1 && n < |steps|
  {
    Enabled(trace[n], steps[n]) && trace[n + 1] == Apply(trace[n], steps[n])
  }

  predicate Run(trace: seq<State>, steps: seq<Step>)
  {
    |trace| == |steps| + 1 && Init(trace[0]) && forall n :: 0 <= n < |steps| ==> Follows(trace, steps, n)
  }

  lemma {:induction false} RunInv(trace: seq<State>, steps: seq<Step>, n: nat)
    requires Run(trace, steps) && n <= |steps|
    ensures Inv(trace[n])
  {
    if n == 0 {
      InitInv(trace[0]);
    } else {
      RunInv(trace, steps, n - 1);
      assert Follows(trace, steps, n - 1);
      StepInv(trace[n - 1], steps[n - 1]);
    }
  }

  // ---- what it means ----

  /** Somebody still refers to m: a user, __mmput(), a borrowing current task, a CPU's pending drop, another holder. */
  ghost predicate Referenced(s: State, m: nat)
    requires m < |s.mms|
  {
    || s.mms[m].users > 0 || s.mms[m].shared.Tearing? || s.mms[m].pins > 0
    || (exists t :: 0 <= t < |s.tasks| && s.tasks[t].mm.Null? && s.tasks[t].active == To(m))
    || (exists c :: 0 <= c < |s.cpus| && (s.cpus[c].prevMm == To(m) || s.cpus[c].phase == Finishing(To(m))))
  }

  /** The address space that CPU c has loaded for its current task exists. */
  predicate Loaded(s: State, c: nat)
    requires c < |s.cpus|
  {
    var t := s.cpus[c].curr;
    t < |s.tasks| && s.tasks[t].active.To? && s.tasks[t].active.m < |s.mms| && !s.mms[s.tasks[t].active.m].freed
  }

  /** The reference a dropping step gives up is one it owns. */
  predicate DropOwned(s: State, a: Step)
    requires Enabled(s, a)
  {
    match a
    case FinishDrop(c) => s.cpus[c].phase.mm.To? ==> s.mms[s.cpus[c].phase.mm.m].count > 0
    case MmPutDrop(m) => s.mms[m].count > 0 && m != INIT_MM
    case MmDrop(m) => s.mms[m].count > 0
    case _ => true
  }

  ghost predicate Safe(s: State)
  {
    && (forall c :: 0 <= c < |s.cpus| ==> Loaded(s, c))
    && (forall c :: 0 <= c < |s.cpus| && s.cpus[c].phase.Running? ==> s.cpus[c].prevMm.Null?)
    && (forall m: nat :: m < |s.mms| ==> (s.mms[m].freed <==> !Referenced(s, m)))
    && |s.mms| > INIT_MM && !s.mms[INIT_MM].freed
  }

  lemma FreedUnreferenced(s: State, m: nat)
    requires Inv(s) && m < |s.mms|
    ensures s.mms[m].freed ==> !Referenced(s, m)
  {
    assert MmOk(s, m);
    SumNonNegative(s, m);
  }

  lemma UnreferencedFreed(s: State, m: nat)
    requires Inv(s) && m < |s.mms| && !Referenced(s, m)
    ensures s.mms[m].freed
  {
    assert MmOk(s, m);
    forall t | t in s.tasks ensures Borrows(m)(t) == 0 {
      var i :| 0 <= i < |s.tasks| && s.tasks[i] == t;
    }
    forall c | c in s.cpus ensures Parks(m)(c) == 0 {
      var i :| 0 <= i < |s.cpus| && s.cpus[i] == c;
    }
    SumZero(s.tasks, Borrows(m));
    SumZero(s.cpus, Parks(m));
  }

  lemma CurrentLoaded(s: State, c: nat)
    requires Inv(s) && c < |s.cpus|
    ensures Loaded(s, c)
  {
    assert CpuOk(s, c);
    var t := s.cpus[c].curr;
    assert TaskOk(s, t);
    var m := s.tasks[t].active.m;
    assert MmOk(s, m);
    SumNonNegative(s, m);
    assert Borrows(m)(s.tasks[t]) == 1 || Uses(m)(s.tasks[t]) == 1;
  }

  lemma InvSafe(s: State)
    requires Inv(s)
    ensures Safe(s)
  {
    forall c | 0 <= c < |s.cpus| ensures Loaded(s, c) && (s.cpus[c].phase.Running? ==> s.cpus[c].prevMm.Null?) {
      CurrentLoaded(s, c);
      assert CpuOk(s, c);
    }
    forall m: nat | m < |s.mms| ensures s.mms[m].freed <==> !Referenced(s, m) {
      FreedUnreferenced(s, m);
      if !Referenced(s, m) { UnreferencedFreed(s, m); }
    }
    assert MmOk(s, INIT_MM);
    SumNonNegative(s, INIT_MM);
  }

  lemma InvDrops(s: State, a: Step)
    requires Inv(s) && Enabled(s, a)
    ensures DropOwned(s, a)
  {
    match a
    case FinishDrop(c) =>
      assert CpuOk(s, c);
      var r := s.cpus[c].phase.mm;
      if r.To? {
        assert MmOk(s, r.m);
        SumNonNegative(s, r.m);
        assert Parks(r.m)(s.cpus[c]) >= 1;
      }
    case MmPutDrop(m) => assert MmOk(s, m); SumNonNegative(s, m);
    case MmDrop(m) => assert MmOk(s, m); SumNonNegative(s, m);
    case _ =>
  }

  /** A freed address space is never touched again, so it is freed once. */
  lemma FreedStays(s: State, a: Step, m: nat)
    requires Inv(s) && Enabled(s, a) && m < |s.mms| && s.mms[m].freed
    ensures Apply(s, a).mms[m] == s.mms[m]
  {
    assert MmOk(s, m);
    SumNonNegative(s, m);
    match a
    case Switch(c, n) => CurrentLoaded(s, c);
    case FinishDrop(c) => InvDrops(s, a);
    case ForkShared(c) => CurrentLoaded(s, c); assert TaskOk(s, s.cpus[c].curr);
    case ExitMm(c) => CurrentLoaded(s, c); assert TaskOk(s, s.cpus[c].curr);
    case _ =>
  }

  /** Over every run: no CPU's current address space is freed, none leaks, none is dropped without a reference. */
  lemma RunSafe(trace: seq<State>, steps: seq<Step>, n: nat)
    requires Run(trace, steps) && n <= |steps|
    ensures Safe(trace[n])
    ensures n < |steps| ==> Enabled(trace[n], steps[n]) && DropOwned(trace[n], steps[n])
    ensures n < |steps| && steps[n].Switch? ==> trace[n].cpus[steps[n].c].prevMm.Null?
  {
    RunInv(trace, steps, n);
    InvSafe(trace[n]);
    if n < |steps| {
      assert Follows(trace, steps, n);
      InvDrops(trace[n], steps[n]);
    }
  }
}
