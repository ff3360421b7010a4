/**
 The sleep / switch / wakeup protocol of the scheduler core, as a state machine
 over any number of tasks, CPUs and wakers.

 Every step is one access that another CPU can observe without the lock that
 protects it, or one critical section under the runqueue lock. A task record
 holds the task_struct fields, the progress of that task through __schedule()
 (its own stack frame) and the progress of the one waker holding its pi_lock.
 */
module Wakeup {
  import opened Counting

  type TaskId = nat
  type Cpu = nat
  type Bits = set<StateBit>

  /** The bits of __state; TASK_RUNNING is none of them. */
  datatype StateBit =
    | Interruptible | Uninterruptible | Stopped | Traced | Parked | Dead
    | WakeKill | WakingBit | NoLoad | New | RtLockWait

  const TASK_RUNNING: Bits := {}
  const TASK_WAKING: Bits := {WakingBit}

  datatype OnRq = Off | Queued | Migrating(dest: Cpu)

  /** Where the task is in __schedule(): the part of its stack frame that matters. */
  datatype Pc =
    | Away                      // not on any CPU
    | Running                   // current, interrupts on, runqueue lock not held
    | Locked                    // in __schedule(), runqueue lock taken
    | Loaded(prevState: Bits)   // prev->__state read once
    | Sleeping                  // on_rq cleared, nr_iowait not yet raised
    | Picking                   // about to pick the next task
    | Leaving                   // switched out, on_cpu still set
    | Arriving(prev: TaskId)    // switched in, prev not finished yet
    | Unlocking                 // about to drop the runqueue lock

  /** The waker that holds the task's pi_lock inside try_to_wake_up(). */
  datatype Wake =
    | NoWaker
    | PiLocked(mask: Bits)
    | Matched                   // state & mask was non-zero
    | SawOnRq                   // on_rq was non-zero: ttwu_runnable()
    | SawOff                    // on_rq was zero
    | Waking                    // __state is TASK_WAKING
    | SawOnCpu                  // on_cpu was set: WF_ON_CPU wakelist path
    | Selected(dest: Cpu)       // migrating, nr_iowait not yet lowered
    | Accounted(dest: Cpu)      // nr_iowait lowered, task_cpu not yet changed
    | Placed(migrated: bool)    // ttwu_queue()

  /** The wait loop: publish the state, test the condition, schedule(). */
  datatype WaitLoop = NoWait | Published | Committed

  datatype Task = Task(
    idle: bool,
    state: Bits,
    onRq: OnRq,
    onCpu: bool,
    cpu: Cpu,
    inIowait: bool,
    contributes: bool,
    frozen: bool,
    remoteWakeup: bool,
    pc: Pc,
    wake: Wake,
    wait: WaitLoop,
    cond: bool,        // the condition this task waits for
    pending: nat,      // wakers that set the condition and have not entered try_to_wake_up() yet
    sleepState: Bits)  // the state its wait loop publishes

  datatype Rq = Rq(
    curr: TaskId,
    idle: TaskId,
    queue: set<TaskId>,
    wakelist: set<TaskId>,
    nrIowait: int,
    nrUninterruptible: int)

  datatype State = State(tasks: seq<Task>, rqs: seq<Rq>)

  /** What the current task of a CPU does to itself. */
  datatype TaskAct =
    | SetState(value: Bits)               // set_current_state() and its variants
    | SetIowait(on: bool)
    | Publish                             // head of the wait loop
    | TestCondition
    | Abandon                             // leave the wait loop on a signal or timeout
    | WakeSelf(mask: Bits, setter: bool)  // try_to_wake_up() with p == current

  /** __schedule() and finish_task_switch() on one CPU. */
  datatype ScheduleAct =
    | Lock
    | Load(preempt: bool)
    | Decide(signal: bool)
    | RaiseIowait
    | Pick(next: TaskId)
    | Finish
    | Unlock

  /** try_to_wake_up() of one task by another context; setter: it set the condition first. */
  datatype WakeAct =
    | SetCondition
    | ResetCondition
    | LockPi(mask: Bits, setter: bool)
    | Match
    | ReadOnRq
    | Runnable
    | Mark
    | ReadOnCpu
    | Select(dest: Cpu)

  /** The same waker, once the task is TASK_WAKING: placing it on a wakelist or a runqueue. */
  datatype QueueAct = ListOnCpu | LowerIowait | SetCpu | List | Activate

  /** sched_ttwu_pending() and the two halves of move_queued_task(). */
  datatype MoveAct = Drain(c: Cpu) | MoveOut(dest: Cpu) | MoveIn

  datatype Step =
    | TaskStep(t: TaskId, self: TaskAct)
    | ScheduleStep(c: Cpu, sched: ScheduleAct)
    | WakeStep(t: TaskId, wake: WakeAct)
    | QueueStep(t: TaskId, queue: QueueAct)
    | MoveStep(t: TaskId, move: MoveAct)

  predicate Hits(state: Bits, mask: Bits) { !(state !! mask) }

  /** No caller sleeps in, or wakes, the transient TASK_WAKING state. */
  predicate Legal(bits: Bits) { WakingBit !in bits }

  predicate InRange(s: State, t: TaskId) { t < |s.tasks| && s.tasks[t].cpu < |s.rqs| }

  predicate CpuInRange(s: State, c: Cpu) { c < |s.rqs| && s.rqs[c].curr < |s.tasks| }

  function CurrentPc(s: State, c: Cpu): Pc
    requires CpuInRange(s, c)
  {
    s.tasks[s.rqs[c].curr].pc
  }

  /** The runqueue lock is free: the local CPU is outside __schedule(), or its pick dropped the lock to balance. */
  predicate RqFree(s: State, c: Cpu)
  {
    CpuInRange(s, c) && CurrentPc(s, c) in {Running, Picking}
  }

  predicate SetterOk(k: Task, mask: Bits, setter: bool)
  {
    Legal(mask) && (setter ==> k.pending > 0 && Hits(k.sleepState, mask))
  }

  predicate TaskEnabled(k: Task, a: TaskAct)
  {
    && k.pc == Running
    && match a
       case SetState(value) => !k.idle && k.wait == NoWait && Legal(value)
       case SetIowait(_) => !k.idle
       case Publish => !k.idle
       case TestCondition => k.wait == Published
       case Abandon => k.wait != NoWait
       case WakeSelf(mask, setter) => SetterOk(k, mask, setter)
  }

  predicate ScheduleEnabled(s: State, c: Cpu, a: ScheduleAct)
  {
    && CpuInRange(s, c)
    && match a
       case Lock => CurrentPc(s, c) == Running
       case Load(preempt) => CurrentPc(s, c) == Locked && (s.tasks[s.rqs[c].curr].wait == Published ==> preempt)
       case Decide(_) => CurrentPc(s, c).Loaded?
       case RaiseIowait => CurrentPc(s, c) == Sleeping
       case Pick(next) =>
         CurrentPc(s, c) == Picking && next < |s.tasks| && (next == s.rqs[c].idle || next in s.rqs[c].queue)
       case Finish => CurrentPc(s, c).Arriving? && CurrentPc(s, c).prev < |s.tasks|
       case Unlock => CurrentPc(s, c) == Unlocking
  }

  predicate WakeReady(k: Task, a: WakeAct)
  {
    match a
    case SetCondition => true
    case ResetCondition => true
    case LockPi(mask, setter) => k.wake == NoWaker && SetterOk(k, mask, setter)
    case Match => k.wake.PiLocked?
    case ReadOnRq => k.wake == Matched
    case Runnable => k.wake == SawOnRq && !k.onRq.Migrating?
    case Mark => k.wake == SawOff
    case ReadOnCpu => k.wake == Waking && k.onCpu
    case Select(_) => k.wake == Waking && !k.onCpu
  }

  predicate WakeEnabled(s: State, t: TaskId, a: WakeAct)
  {
    && InRange(s, t) && WakeReady(s.tasks[t], a)
    && (a.Runnable? ==> RqFree(s, s.tasks[t].cpu))
    && (a.Select? ==> a.dest < |s.rqs|)
  }

  predicate QueueReady(k: Task, a: QueueAct)
  {
    match a
    case ListOnCpu => k.wake == SawOnCpu
    case LowerIowait => k.wake.Selected?
    case SetCpu => k.wake.Accounted?
    case List => k.wake.Placed?
    case Activate => k.wake.Placed?
  }

  predicate QueueEnabled(s: State, t: TaskId, a: QueueAct)
  {
    InRange(s, t) && QueueReady(s.tasks[t], a) && (a.Activate? ==> RqFree(s, s.tasks[t].cpu))
  }

  predicate MoveEnabled(s: State, t: TaskId, a: MoveAct)
  {
    && InRange(s, t)
    && var k := s.tasks[t];
       match a
       case Drain(c) => CpuInRange(s, c) && CurrentPc(s, c) == Running && t in s.rqs[c].wakelist
       case MoveOut(dest) =>
         k.onRq == Queued && !k.idle && !k.onCpu && RqFree(s, k.cpu) && dest < |s.rqs|
       case MoveIn => k.onRq.Migrating? && RqFree(s, k.cpu)
  }

  predicate Enabled(s: State, a: Step)
  {
    match a
    case TaskStep(t, self) => InRange(s, t) && TaskEnabled(s.tasks[t], self)
    case ScheduleStep(c, sched) => ScheduleEnabled(s, c, sched)
    case WakeStep(t, wake) => WakeEnabled(s, t, wake)
    case QueueStep(t, queue) => QueueEnabled(s, t, queue)
    case MoveStep(t, move) => MoveEnabled(s, t, move)
  }

  function PutTask(s: State, t: TaskId, k: Task): State
    requires t < |s.tasks|
  {
    s.(tasks := s.tasks[t := k])
  }

  function Put(s: State, t: TaskId, k: Task, c: Cpu, r: Rq): State
    requires t < |s.tasks| && c < |s.rqs|
  {
    State(s.tasks[t := k], s.rqs[c := r])
  }

  /** schedule() puts the current task to sleep: load contribution, then deactivate_task(DEQUEUE_SLEEP). */
  function Deactivated(k: Task, prevState: Bits): Task
  {
    k.(contributes := Uninterruptible in prevState && NoLoad !in prevState && !k.frozen,
       onRq := Off,
       pc := Sleeping)
  }

  /** activate_task() and ttwu_do_wakeup(): queued and running again. */
  function Activated(k: Task): Task { k.(onRq := Queued, state := TASK_RUNNING) }

  /** What ttwu_do_activate() does to the runqueue: the sleep is taken out of the counters. */
  function Activating(r: Rq, t: TaskId, k: Task, migrated: bool): Rq
  {
    r.(queue := r.queue + {t},
       nrUninterruptible := r.nrUninterruptible - (if k.contributes then 1 else 0),
       nrIowait := r.nrIowait - (if !migrated && k.inIowait then 1 else 0))
  }

  function TaskApply(k: Task, a: TaskAct): Task
    requires TaskEnabled(k, a)
  {
    match a
    case SetState(value) => k.(state := value)
    case SetIowait(on) => k.(inIowait := on)
    case Publish => k.(state := k.sleepState, wait := Published)
    case TestCondition => k.(wait := if k.cond then NoWait else Committed)
    case Abandon => k.(state := TASK_RUNNING, wait := NoWait)
    case WakeSelf(mask, setter) =>
      k.(pending := if setter then k.pending - 1 else k.pending,
         state := if Hits(k.state, mask) then TASK_RUNNING else k.state)
  }

  /** curr := next, prepare_task(next); the previous task keeps on_cpu until finish_task(). */
  function Switched(s: State, c: Cpu, next: TaskId): State
    requires CpuInRange(s, c) && next < |s.tasks|
  {
    var prev := s.rqs[c].curr;
    var s1 := PutTask(s, prev, s.tasks[prev].(pc := Leaving));
    Put(s1, next, s1.tasks[next].(onCpu := true, pc := Arriving(prev)), c, s.rqs[c].(curr := next))
  }

  /** finish_task(prev), then on towards dropping the runqueue lock. */
  function Finished(s: State, c: Cpu, prev: TaskId): State
    requires CpuInRange(s, c) && prev < |s.tasks|
  {
    var t := s.rqs[c].curr;
    var s1 := PutTask(s, prev, s.tasks[prev].(onCpu := false, pc := Away));
    PutTask(s1, t, s1.tasks[t].(pc := Unlocking))
  }

  function ScheduleApply(s: State, c: Cpu, a: ScheduleAct): State
    requires ScheduleEnabled(s, c, a)
  {
    var r := s.rqs[c];
    var t := r.curr;
    var k := s.tasks[t];
    match a
    case Lock => PutTask(s, t, k.(pc := Locked))
    case Load(preempt) => PutTask(s, t, k.(pc := if preempt then Picking else Loaded(k.state)))
    case Decide(signal) =>
      if k.pc.prevState == TASK_RUNNING then PutTask(s, t, k.(pc := Picking))
      else if signal then PutTask(s, t, k.(state := TASK_RUNNING, pc := Picking))
      else
        var k' := Deactivated(k, k.pc.prevState);
        Put(s, t, k', c, r.(queue := r.queue - {t},
                            nrUninterruptible := r.nrUninterruptible + (if k'.contributes then 1 else 0)))
    case RaiseIowait =>
      Put(s, t, k.(pc := Picking), c, r.(nrIowait := r.nrIowait + (if k.inIowait then 1 else 0)))
    case Pick(next) =>
      if next == t then PutTask(s, t, k.(pc := Unlocking))
      else Switched(s, c, next)
    case Finish => Finished(s, c, k.pc.prev)
    case Unlock => PutTask(s, t, k.(pc := Running))
  }

  /** How far the waker gets. */
  function WakeNext(k: Task, a: WakeAct): Wake
    requires WakeReady(k, a)
  {
    match a
    case SetCondition => k.wake
    case ResetCondition => k.wake
    case LockPi(mask, _) => PiLocked(mask)
    case Match => if Hits(k.state, k.wake.mask) then Matched else NoWaker
    case ReadOnRq => if k.onRq == Off then SawOff else SawOnRq
    case Runnable => if k.onRq == Queued then NoWaker else SawOff
    case Mark => Waking
    case ReadOnCpu => SawOnCpu
    case Select(dest) => if dest == k.cpu then Placed(false) else Selected(dest)
  }

  /** What it does to the task: state, condition and the wakers still to come. */
  function WakeRecord(k: Task, a: WakeAct): Task
    requires WakeReady(k, a)
  {
    k.(wake := WakeNext(k, a),
       state := if a.Mark? then TASK_WAKING else if a.Runnable? && k.onRq == Queued then TASK_RUNNING else k.state,
       cond := a.SetCondition? || (k.cond && !a.ResetCondition?),
       pending := if a.SetCondition? then k.pending + 1 else if a.LockPi? && a.setter then k.pending - 1 else k.pending)
  }

  function QueueRecord(k: Task, a: QueueAct): Task
    requires QueueReady(k, a)
  {
    match a
    case ListOnCpu => k.(remoteWakeup := false, wake := NoWaker)
    case LowerIowait => k.(wake := Accounted(k.wake.dest))
    case SetCpu => k.(cpu := k.wake.dest, wake := Placed(true))
    case List => k.(remoteWakeup := k.wake.migrated, wake := NoWaker)
    case Activate => Activated(k.(wake := NoWaker))
  }

  function QueueRq(r: Rq, t: TaskId, k: Task, a: QueueAct): Rq
    requires QueueReady(k, a)
  {
    match a
    case ListOnCpu => r.(wakelist := r.wakelist + {t})
    case LowerIowait => r.(nrIowait := r.nrIowait - (if k.inIowait then 1 else 0))
    case SetCpu => r
    case List => r.(wakelist := r.wakelist + {t})
    case Activate => Activating(r, t, k, k.wake.migrated)
  }

  function QueueApply(s: State, t: TaskId, a: QueueAct): State
    requires QueueEnabled(s, t, a)
  {
    var k := s.tasks[t];
    Put(s, t, QueueRecord(k, a), k.cpu, QueueRq(s.rqs[k.cpu], t, k, a))
  }

  function MoveApply(s: State, t: TaskId, a: MoveAct): State
    requires MoveEnabled(s, t, a)
  {
    var k := s.tasks[t];
    var r := s.rqs[k.cpu];
    match a
    case Drain(c) =>
      var q := s.rqs[c];
      Put(s, t, Activated(k).(cpu := c), c, Activating(q.(wakelist := q.wakelist - {t}), t, k, k.remoteWakeup))
    case MoveOut(dest) => Put(s, t, k.(onRq := Migrating(dest), cpu := dest), k.cpu, r.(queue := r.queue - {t}))
    case MoveIn => Put(s, t, k.(onRq := Queued), k.cpu, r.(queue := r.queue + {t}))
  }

  function Apply(s: State, a: Step): State
    requires Enabled(s, a)
  {
    match a
    case TaskStep(t, self) => PutTask(s, t, TaskApply(s.tasks[t], self))
    case ScheduleStep(c, sched) => ScheduleApply(s, c, sched)
    case WakeStep(t, wake) => PutTask(s, t, WakeRecord(s.tasks[t], wake))
    case QueueStep(t, queue) => QueueApply(s, t, queue)
    case MoveStep(t, move) => MoveApply(s, t, move)
  }

  /** Every CPU runs its idle task, every other task is queued on its CPU, nobody waits or wakes. */
  ghost predicate Init(s: State)
  {
    && (forall t :: 0 <= t < |s.tasks| ==>
          var k := s.tasks[t];
          && k.cpu < |s.rqs| && k.onRq == Queued && k.state == TASK_RUNNING
          && k.wake == NoWaker && k.wait == NoWait && k.sleepState != TASK_RUNNING && Legal(k.sleepState)
          && k.onCpu == k.idle && k.pc == (if k.idle then Running else Away)
          && (k.idle ==> s.rqs[k.cpu].idle == t))
    && (forall c :: 0 <= c < |s.rqs| ==>
          var r := s.rqs[c];
          && r.curr == r.idle < |s.tasks| && s.tasks[r.idle].idle && s.tasks[r.idle].cpu == c
          && r.wakelist == {} && r.nrIowait == 0 && r.nrUninterruptible == 0
          && r.queue == set t | 0 <= t < |s.tasks| && !s.tasks[t].idle && s.tasks[t].cpu == c)
  }

  // ---------------------------------------------------------------- invariant

  predicate LateWake(w: Wake)
  {
    w.Waking? || w.SawOnCpu? || w.Selected? || w.Accounted? || w.Placed?
  }

  /** Handed over to a wakelist: TASK_WAKING, and no waker holds it any more. */
  predicate Listed(k: Task) { k.state == TASK_WAKING && !LateWake(k.wake) }

  /** A wakeup already in flight will reach the sleeping task. */
  predicate WakeComing(k: Task)
  {
    || k.pending > 0
    || (k.wake.PiLocked? && Hits(k.sleepState, k.wake.mask))
    || k.wake.Matched? || k.wake.SawOnRq? || k.wake.SawOff?
  }

  /** __schedule()'s side of a record: on_cpu, on_rq and state against the task's own progress. */
  ghost predicate Located(k: Task)
  {
    && k.onCpu == !k.pc.Away?
    && (k.idle ==> k.state == TASK_RUNNING && k.onRq == Queued)
    && (k.pc.Running? || k.pc.Locked? || k.pc.Loaded? || k.pc.Arriving? || k.pc.Unlocking? ==> k.onRq == Queued)
    && (k.pc.Sleeping? ==> k.onRq == Off)
    && (k.onRq.Migrating? ==> k.pc.Away? && k.cpu == k.onRq.dest)
    && (k.pc.Loaded? ==> k.state == k.pc.prevState)
    && (k.onRq == Off ==> k.state != TASK_RUNNING)
    && (k.state == TASK_WAKING ==> k.onRq == Off)
  }

  /** try_to_wake_up()'s side of a record. */
  ghost predicate WakerOk(k: Task)
  {
    && (k.wake.PiLocked? ==> Legal(k.wake.mask))
    && (LateWake(k.wake) ==> k.state == TASK_WAKING)
    && (k.wake.SawOff? ==> k.onRq == Off)
    && (k.wake.Matched? || k.wake.SawOnRq? || k.wake.SawOff? ==> k.state != TASK_WAKING)
    && (k.wake.Selected? || k.wake.Accounted? || k.wake.Placed? ==> !k.onCpu)
    && (k.onCpu && Listed(k) ==> !k.remoteWakeup)
  }

  /** The wait loop's side of a record: a published sleep either sees the condition or is about to be woken. */
  ghost predicate WaitOk(k: Task)
  {
    && k.sleepState != TASK_RUNNING && Legal(k.sleepState)
    && (k.wait.Published? ==> k.onRq != Off && !k.pc.Loaded?)
    && (!k.wait.NoWait? ==> k.state == k.sleepState || k.state == TASK_RUNNING || k.state == TASK_WAKING)
    && (k.cond && k.wait.Committed? && k.state == k.sleepState ==> WakeComing(k))
  }

  ghost predicate TaskOk(k: Task) { Located(k) && WakerOk(k) && WaitOk(k) }

  /** How a task record and the runqueues agree. */
  ghost predicate TaskPlaced(s: State, t: TaskId)
    requires t < |s.tasks|
  {
    var k := s.tasks[t];
    && k.cpu < |s.rqs|
    && (forall c :: 0 <= c < |s.rqs| ==> (t in s.rqs[c].queue <==> !k.idle && k.onRq == Queued && k.cpu == c))
    && (forall c :: 0 <= c < |s.rqs| ==> (t in s.rqs[c].wakelist <==> Listed(k) && k.cpu == c))
    && (k.idle ==> s.rqs[k.cpu].idle == t)
    && (!k.pc.Away? && !k.pc.Leaving? ==> s.rqs[k.cpu].curr == t)
    && (k.wake.Selected? ==> k.wake.dest < |s.rqs|) && (k.wake.Accounted? ==> k.wake.dest < |s.rqs|)
    && (k.pc.Leaving? ==>
          s.rqs[k.cpu].curr < |s.tasks| && s.tasks[s.rqs[k.cpu].curr].pc == Arriving(t))
  }

  ghost predicate RqOk(s: State, c: Cpu)
    requires c < |s.rqs|
  {
    var r := s.rqs[c];
    && r.curr < |s.tasks| && r.idle < |s.tasks|
    && s.tasks[r.idle].idle && s.tasks[r.idle].cpu == c
    && (forall t :: t in r.queue || t in r.wakelist ==> t < |s.tasks|)
    && var k := s.tasks[r.curr];
       && k.cpu == c && !k.pc.Away? && !k.pc.Leaving?
       && (k.pc.Arriving? ==>
             k.pc.prev < |s.tasks| && k.pc.prev != r.curr
             && s.tasks[k.pc.prev].pc == Leaving && s.tasks[k.pc.prev].cpu == c)
  }

  /** Blocked in iowait on CPU c, raised in nr_iowait and not yet lowered by a wakeup. */
  function IowaitOn(c: Cpu): Task -> int
  {
    (k: Task) =>
      if k.inIowait && k.cpu == c && k.onRq == Off && !k.pc.Sleeping? && !IowaitSettled(k) then 1 else 0
  }

  /** A migrating wakeup lowered the old CPU's count; the wakelist entry remembers it. */
  predicate IowaitSettled(k: Task)
  {
    || k.wake.Accounted? || k.wake == Placed(true)
    || (Listed(k) && k.remoteWakeup)
  }

  function LoadSleeper(k: Task): int { if k.onRq == Off && k.contributes then 1 else 0 }

  function NrUninterruptible(r: Rq): int { r.nrUninterruptible }

  ghost predicate Counted(s: State)
  {
    && (forall c :: 0 <= c < |s.rqs| ==> s.rqs[c].nrIowait == Sum(s.tasks, IowaitOn(c)))
    && Sum(s.rqs, NrUninterruptible) == Sum(s.tasks, LoadSleeper)
  }

  ghost predicate Consistent(s: State)
  {
    && (forall t :: 0 <= t < |s.tasks| ==> TaskOk(s.tasks[t]))
    && (forall t :: 0 <= t < |s.tasks| ==> TaskPlaced(s, t))
    && (forall c :: 0 <= c < |s.rqs| ==> RqOk(s, c))
  }

  ghost predicate Inv(s: State) { Consistent(s) && Counted(s) }

  // ------------------------------------------------------------ frame lemmas

  /** One record changes, and no list or CPU can tell. */
  lemma RecordChange(s: State, t: TaskId, k: Task)
    requires Consistent(s) && t < |s.tasks| && TaskOk(k)
    requires var o := s.tasks[t];
      && k.idle == o.idle && k.onRq == o.onRq && k.cpu == o.cpu && k.pc == o.pc
      && Listed(k) == Listed(o)
    requires k.wake.Selected? || k.wake.Accounted? ==> k.wake.dest < |s.rqs|
    ensures Consistent(PutTask(s, t, k))
  {
    var s' := PutTask(s, t, k);
    forall u | 0 <= u < |s'.tasks| ensures TaskPlaced(s', u) { assert TaskPlaced(s, u); }
    forall c | 0 <= c < |s'.rqs| ensures RqOk(s', c) { assert RqOk(s, c); }
  }

  /** One record and one runqueue change: only this task's membership and place have to be re-established. */
  lemma PlaceChange(s: State, t: TaskId, k: Task, c: Cpu, r: Rq)
    requires Consistent(s) && t < |s.tasks| && c < |s.rqs| && TaskOk(k)
    requires SameButFor(t, r, s.rqs[c]) && SamePlaceKind(k, s.tasks[t])
    requires TaskPlaced(Put(s, t, k, c, r), t)
    ensures Consistent(Put(s, t, k, c, r))
  {
    var s' := Put(s, t, k, c, r);
    forall u | 0 <= u < |s'.tasks| ensures TaskPlaced(s', u) {
      if u != t { PlaceTask(s, t, k, c, r, u); }
    }
    forall d | 0 <= d < |s'.rqs| ensures RqOk(s', d) { PlaceRq(s, t, k, c, r, d); }
  }

  predicate SameButFor(t: TaskId, r: Rq, q: Rq)
  {
    && r.curr == q.curr && r.idle == q.idle
    && r.queue - {t} == q.queue - {t} && r.wakelist - {t} == q.wakelist - {t}
  }

  predicate SamePlaceKind(k: Task, o: Task)
  {
    && k.idle == o.idle && k.pc.Away? == o.pc.Away?
    && (k.pc == o.pc || (!k.pc.Leaving? && !k.pc.Arriving? && !o.pc.Leaving? && !o.pc.Arriving?))
    && (k.idle || !k.pc.Away? ==> k.cpu == o.cpu)
  }

  lemma PlaceTask(s: State, t: TaskId, k: Task, c: Cpu, r: Rq, u: TaskId)
    requires t < |s.tasks| && c < |s.rqs| && u < |s.tasks| && u != t && TaskPlaced(s, u)
    requires SameButFor(t, r, s.rqs[c]) && SamePlaceKind(k, s.tasks[t])
    ensures TaskPlaced(Put(s, t, k, c, r), u)
  {
    assert u in r.queue <==> u in r.queue - {t};
    assert u in s.rqs[c].queue <==> u in s.rqs[c].queue - {t};
    assert u in r.wakelist <==> u in r.wakelist - {t};
    assert u in s.rqs[c].wakelist <==> u in s.rqs[c].wakelist - {t};
  }

  lemma PlaceRq(s: State, t: TaskId, k: Task, c: Cpu, r: Rq, d: Cpu)
    requires t < |s.tasks| && c < |s.rqs| && d < |s.rqs| && RqOk(s, d)
    requires SameButFor(t, r, s.rqs[c]) && SamePlaceKind(k, s.tasks[t])
    ensures RqOk(Put(s, t, k, c, r), d)
  {
    if d == c {
      forall u | u in r.queue || u in r.wakelist ensures u < |s.tasks| {
        if u != t { assert u in r.queue - {t} || u in r.wakelist - {t}; }
      }
    }
  }

  /** The current task of a CPU moves on inside __schedule() without being switched. */
  lemma PcChange(s: State, c: Cpu, k: Task)
    requires Consistent(s) && c < |s.rqs|
    requires RqOk(s, c) && TaskOk(k)
    requires var o := s.tasks[s.rqs[c].curr];
      && k == o.(pc := k.pc, state := k.state)
      && !k.pc.Away? && !k.pc.Leaving? && !k.pc.Arriving? && !o.pc.Arriving?
      && (k.state == TASK_WAKING <==> o.state == TASK_WAKING)
    ensures Consistent(PutTask(s, s.rqs[c].curr, k))
  {
    var t := s.rqs[c].curr;
    var s' := PutTask(s, t, k);
    forall u | 0 <= u < |s'.tasks| ensures TaskPlaced(s', u) { assert TaskPlaced(s, u) && TaskPlaced(s, t); }
    forall d | 0 <= d < |s'.rqs| ensures RqOk(s', d) { assert RqOk(s, d); }
  }

  lemma CountsKept(s: State, t: TaskId, k: Task)
    requires Counted(s) && t < |s.tasks|
    requires forall c :: IowaitOn(c)(k) == IowaitOn(c)(s.tasks[t])
    requires LoadSleeper(k) == LoadSleeper(s.tasks[t])
    ensures Counted(PutTask(s, t, k))
  {
    SumUpdate(s.tasks, LoadSleeper, t, k);
    forall c | 0 <= c < |s.rqs|
      ensures s.rqs[c].nrIowait == Sum(s.tasks[t := k], IowaitOn(c))
    {
      SumUpdate(s.tasks, IowaitOn(c), t, k);
    }
  }

  /** One record and one runqueue change: the counters move by what the record contributes. */
  lemma CountsMoved(s: State, t: TaskId, k: Task, c: Cpu, r: Rq)
    requires Counted(s) && t < |s.tasks| && c < |s.rqs|
    requires forall d :: d != c ==> IowaitOn(d)(k) == IowaitOn(d)(s.tasks[t])
    requires r.nrIowait - s.rqs[c].nrIowait == IowaitOn(c)(k) - IowaitOn(c)(s.tasks[t])
    requires r.nrUninterruptible - s.rqs[c].nrUninterruptible == LoadSleeper(k) - LoadSleeper(s.tasks[t])
    ensures Counted(Put(s, t, k, c, r))
  {
    SumUpdate(s.tasks, LoadSleeper, t, k);
    SumUpdate(s.rqs, NrUninterruptible, c, r);
    forall d | 0 <= d < |s.rqs|
      ensures s.rqs[c := r][d].nrIowait == Sum(s.tasks[t := k], IowaitOn(d))
    {
      SumUpdate(s.tasks, IowaitOn(d), t, k);
    }
  }

  // -------------------------------------------------------- step preservation

  lemma TaskRecordOk(k: Task, a: TaskAct)
    requires TaskOk(k) && TaskEnabled(k, a)
    ensures TaskOk(TaskApply(k, a))
    ensures TaskApply(k, a).state != TASK_WAKING && k.state != TASK_WAKING
  {
  }

  lemma TaskStepInv(s: State, t: TaskId, a: TaskAct)
    requires Inv(s) && InRange(s, t) && TaskEnabled(s.tasks[t], a)
    ensures Inv(PutTask(s, t, TaskApply(s.tasks[t], a)))
  {
    var k := TaskApply(s.tasks[t], a);
    assert TaskOk(s.tasks[t]) && TaskPlaced(s, t);
    TaskRecordOk(s.tasks[t], a);
    RecordChange(s, t, k);
    CountsKept(s, t, k);
  }

  lemma ScheduleLocalInv(s: State, c: Cpu, a: ScheduleAct)
    requires Inv(s) && ScheduleEnabled(s, c, a)
    requires a.Lock? || a.Load? || a.Unlock? || (a.Decide? && (a.signal || CurrentPc(s, c).prevState == TASK_RUNNING))
    ensures Inv(ScheduleApply(s, c, a))
  {
    assert RqOk(s, c);
    var t := s.rqs[c].curr;
    var k := ScheduleApply(s, c, a).tasks[t];
    PcChange(s, c, k);
    CountsKept(s, t, k);
  }

  // ---- steps that move a task between records and lists

  /** Going to sleep: the task leaves the queue, on_rq drops and the load contribution is counted. */
  lemma DeactivateInv(s: State, c: Cpu)
    requires Inv(s) && ScheduleEnabled(s, c, Decide(false)) && CurrentPc(s, c).prevState != TASK_RUNNING
    ensures Inv(ScheduleApply(s, c, Decide(false)))
  {
    var t := s.rqs[c].curr;
    var s' := ScheduleApply(s, c, Decide(false));
    assert RqOk(s, c) && TaskOk(s.tasks[t]) && TaskPlaced(s, t);
    CountsMoved(s, t, s'.tasks[t], c, s'.rqs[c]);
    PlaceChange(s, t, s'.tasks[t], c, s'.rqs[c]);
  }

  lemma RaiseIowaitInv(s: State, c: Cpu)
    requires Inv(s) && ScheduleEnabled(s, c, RaiseIowait)
    ensures Inv(ScheduleApply(s, c, RaiseIowait))
  {
    var t := s.rqs[c].curr;
    var s' := ScheduleApply(s, c, RaiseIowait);
    assert RqOk(s, c) && TaskOk(s.tasks[t]) && TaskPlaced(s, t);
    CountsMoved(s, t, s'.tasks[t], c, s'.rqs[c]);
    PlaceChange(s, t, s'.tasks[t], c, s'.rqs[c]);
  }

  /** A deciding step of the waker keeps the record in order; it moves nothing the counters see. */
  lemma WakeRecordOk(k: Task, a: WakeAct)
    requires TaskOk(k) && WakeReady(k, a) && (a.Runnable? ==> !k.pc.Loaded?)
    ensures Located(WakeRecord(k, a)) && WakerOk(WakeRecord(k, a))
  {
  }

  lemma WakeRecordWait(k: Task, a: WakeAct)
    requires TaskOk(k) && WakeReady(k, a)
    ensures WaitOk(WakeRecord(k, a))
  {
  }

  lemma WakeRecordSettled(k: Task, a: WakeAct)
    requires TaskOk(k) && WakeReady(k, a)
    ensures Listed(WakeRecord(k, a)) == Listed(k) && IowaitSettled(WakeRecord(k, a)) == IowaitSettled(k)
  {
  }

  lemma WakeInv(s: State, t: TaskId, a: WakeAct)
    requires Inv(s) && WakeEnabled(s, t, a)
    ensures Inv(PutTask(s, t, WakeRecord(s.tasks[t], a)))
  {
    var k := s.tasks[t];
    assert TaskOk(k) && TaskPlaced(s, t);
    WakeRecordOk(k, a);
    WakeRecordWait(k, a);
    WakeRecordSettled(k, a);
    RecordChange(s, t, WakeRecord(k, a));
    CountsKept(s, t, WakeRecord(k, a));
  }

  /** A placing step changes the counters by exactly what the record stops, or starts, contributing. */
  lemma QueueRecordOk(k: Task, a: QueueAct, t: TaskId, r: Rq)
    requires TaskOk(k) && QueueReady(k, a)
    ensures TaskOk(QueueRecord(k, a))
    ensures QueueRq(r, t, k, a).nrIowait - r.nrIowait == IowaitOn(k.cpu)(QueueRecord(k, a)) - IowaitOn(k.cpu)(k)
    ensures forall d :: d != k.cpu ==> IowaitOn(d)(QueueRecord(k, a)) == IowaitOn(d)(k)
    ensures QueueRq(r, t, k, a).nrUninterruptible - r.nrUninterruptible
      == LoadSleeper(QueueRecord(k, a)) - LoadSleeper(k)
  {
  }

  lemma QueuePlaced(s: State, t: TaskId, a: QueueAct)
    requires QueueEnabled(s, t, a) && TaskOk(s.tasks[t]) && TaskPlaced(s, t)
    ensures TaskPlaced(QueueApply(s, t, a), t)
  {
  }

  lemma QueueInv(s: State, t: TaskId, a: QueueAct)
    requires Inv(s) && QueueEnabled(s, t, a)
    ensures Inv(QueueApply(s, t, a))
  {
    var k := s.tasks[t];
    var r := s.rqs[k.cpu];
    assert TaskOk(k) && TaskPlaced(s, t);
    QueueRecordOk(k, a, t, r);
    CountsMoved(s, t, QueueRecord(k, a), k.cpu, QueueRq(r, t, k, a));
    QueuePlaced(s, t, a);
    PlaceChange(s, t, QueueRecord(k, a), k.cpu, QueueRq(r, t, k, a));
  }

  /** Both warnings of sched_ttwu_pending() are false: the task left its CPU, and it is this CPU's. */
  lemma DrainQuiet(s: State, c: Cpu, t: TaskId)
    requires Inv(s) && MoveEnabled(s, t, Drain(c))
    ensures !s.tasks[t].onCpu && s.tasks[t].cpu == c
  {
    assert TaskOk(s.tasks[t]) && TaskPlaced(s, t) && RqOk(s, c);
  }

  lemma DrainInv(s: State, c: Cpu, t: TaskId)
    requires Inv(s) && MoveEnabled(s, t, Drain(c))
    ensures Inv(MoveApply(s, t, Drain(c)))
  {
    var k := s.tasks[t];
    var r := s.rqs[c].(wakelist := s.rqs[c].wakelist - {t});
    DrainQuiet(s, c, t);
    assert TaskOk(k) && TaskPlaced(s, t);
    CountsMoved(s, t, Activated(k), c, Activating(r, t, k, k.remoteWakeup));
    PlaceChange(s, t, Activated(k), c, Activating(r, t, k, k.remoteWakeup));
  }

  lemma MigrateInv(s: State, t: TaskId, a: MoveAct)
    requires Inv(s) && MoveEnabled(s, t, a) && !a.Drain?
    ensures Inv(MoveApply(s, t, a))
  {
    var c := s.tasks[t].cpu;
    var s' := MoveApply(s, t, a);
    assert TaskOk(s.tasks[t]) && TaskPlaced(s, t) && RqOk(s, c);
    CountsMoved(s, t, s'.tasks[t], c, s'.rqs[c]);
    PlaceChange(s, t, s'.tasks[t], c, s'.rqs[c]);
  }

  lemma PickInv(s: State, c: Cpu, next: TaskId)
    requires Inv(s) && ScheduleEnabled(s, c, Pick(next))
    ensures Inv(ScheduleApply(s, c, Pick(next)))
  {
    var prev := s.rqs[c].curr;
    assert RqOk(s, c) && TaskOk(s.tasks[prev]) && TaskPlaced(s, prev) && TaskOk(s.tasks[next]) && TaskPlaced(s, next);
    if next == prev {
      PcChange(s, c, s.tasks[prev].(pc := Unlocking));
      CountsKept(s, prev, s.tasks[prev].(pc := Unlocking));
    } else {
      var s1 := PutTask(s, prev, s.tasks[prev].(pc := Leaving));
      var k := s.tasks[next].(onCpu := true, pc := Arriving(prev));
      CountsKept(s, prev, s.tasks[prev].(pc := Leaving));
      CountsMoved(s1, next, k, c, s.rqs[c].(curr := next));
      SwitchConsistent(s, c, next);
    }
  }

  /** After the switch: the two tasks of the switch changed places, any other task is elsewhere. */
  lemma SwitchPlaced(s: State, c: Cpu, next: TaskId, u: TaskId)
    requires c < |s.rqs| && RqOk(s, c) && next < |s.tasks| && next != s.rqs[c].curr && u < |s.tasks|
    requires s.tasks[s.rqs[c].curr].pc == Picking && s.tasks[next].cpu == c && s.tasks[next].pc == Away
    requires TaskPlaced(s, u)
    ensures TaskPlaced(Switched(s, c, next), u)
  {
    var s' := Switched(s, c, next);
    var k := s'.tasks[u];
    assert k.idle == s.tasks[u].idle && k.onRq == s.tasks[u].onRq && k.cpu == s.tasks[u].cpu;
    assert k.state == s.tasks[u].state && k.wake == s.tasks[u].wake;
    assert forall d :: 0 <= d < |s.rqs| ==>
      s'.rqs[d].queue == s.rqs[d].queue && s'.rqs[d].wakelist == s.rqs[d].wakelist && s'.rqs[d].idle == s.rqs[d].idle;
  }

  lemma SwitchRecordOk(s: State, c: Cpu, next: TaskId, u: TaskId)
    requires c < |s.rqs| && RqOk(s, c) && next < |s.tasks| && next != s.rqs[c].curr && u < |s.tasks|
    requires s.tasks[s.rqs[c].curr].pc == Picking && s.tasks[next].onRq == Queued && TaskOk(s.tasks[u])
    ensures TaskOk(Switched(s, c, next).tasks[u])
  {
  }

  lemma SwitchRqOk(s: State, c: Cpu, next: TaskId, d: Cpu)
    requires c < |s.rqs| && RqOk(s, c) && next < |s.tasks| && next != s.rqs[c].curr
    requires s.tasks[s.rqs[c].curr].pc == Picking && s.tasks[next].cpu == c && s.tasks[next].pc == Away
    requires d < |s.rqs| && RqOk(s, d)
    ensures RqOk(Switched(s, c, next), d)
  {
  }

  lemma SwitchConsistent(s: State, c: Cpu, next: TaskId)
    requires Consistent(s) && ScheduleEnabled(s, c, Pick(next)) && next != s.rqs[c].curr
    ensures Consistent(Switched(s, c, next))
  {
    var s' := Switched(s, c, next);
    assert RqOk(s, c) && TaskPlaced(s, next) && TaskOk(s.tasks[next]);
    assert s.tasks[next].cpu == c && s.tasks[next].pc == Away && s.tasks[next].onRq == Queued;
    forall u | 0 <= u < |s'.tasks| ensures TaskOk(s'.tasks[u]) && TaskPlaced(s', u) {
      SwitchPlaced(s, c, next, u);
      SwitchRecordOk(s, c, next, u);
    }
    forall d | 0 <= d < |s'.rqs| ensures RqOk(s', d) { SwitchRqOk(s, c, next, d); }
  }

  lemma FinishInv(s: State, c: Cpu)
    requires Inv(s) && ScheduleEnabled(s, c, Finish)
    ensures Inv(ScheduleApply(s, c, Finish))
  {
    var t := s.rqs[c].curr;
    var prev := s.tasks[t].pc.prev;
    var s' := ScheduleApply(s, c, Finish);
    assert RqOk(s, c) && TaskOk(s.tasks[t]) && TaskPlaced(s, t) && TaskOk(s.tasks[prev]) && TaskPlaced(s, prev);
    var s1 := PutTask(s, prev, s.tasks[prev].(onCpu := false, pc := Away));
    CountsKept(s, prev, s1.tasks[prev]);
    CountsKept(s1, t, s'.tasks[t]);
    FinishConsistent(s, c);
  }

  lemma FinishPlaced(s: State, c: Cpu, prev: TaskId, u: TaskId)
    requires c < |s.rqs| && RqOk(s, c) && s.tasks[s.rqs[c].curr].pc == Arriving(prev) && u < |s.tasks|
    requires TaskOk(s.tasks[u]) && TaskPlaced(s, u)
    ensures TaskOk(Finished(s, c, prev).tasks[u])
    ensures TaskPlaced(Finished(s, c, prev), u)
  {
  }

  lemma FinishRqOk(s: State, c: Cpu, prev: TaskId, d: Cpu)
    requires c < |s.rqs| && RqOk(s, c) && s.tasks[s.rqs[c].curr].pc == Arriving(prev)
    requires d < |s.rqs| && RqOk(s, d)
    ensures RqOk(Finished(s, c, prev), d)
  {
  }

  lemma FinishConsistent(s: State, c: Cpu)
    requires Consistent(s) && ScheduleEnabled(s, c, Finish)
    ensures Consistent(ScheduleApply(s, c, Finish))
  {
    var prev := s.tasks[s.rqs[c].curr].pc.prev;
    var s' := Finished(s, c, prev);
    assert RqOk(s, c);
    forall u | 0 <= u < |s'.tasks| ensures TaskOk(s'.tasks[u]) && TaskPlaced(s', u) { FinishPlaced(s, c, prev, u); }
    forall d | 0 <= d < |s'.rqs| ensures RqOk(s', d) { FinishRqOk(s, c, prev, d); }
  }

  lemma StepInv(s: State, a: Step)
    requires Inv(s) && Enabled(s, a)
    ensures Inv(Apply(s, a))
  {
    match a
    case TaskStep(t, self) => TaskStepInv(s, t, self);
    case ScheduleStep(c, sched) =>
      if sched.Pick? { PickInv(s, c, sched.next); }
      else if sched.Finish? { FinishInv(s, c); }
      else if sched.RaiseIowait? { RaiseIowaitInv(s, c); }
      else if sched == Decide(false) && CurrentPc(s, c).prevState != TASK_RUNNING { DeactivateInv(s, c); }
      else { ScheduleLocalInv(s, c, sched); }
    case WakeStep(t, wake) => WakeInv(s, t, wake);
    case QueueStep(t, queue) => QueueInv(s, t, queue);
    case MoveStep(t, move) => if move.Drain? { DrainInv(s, move.c, t); } else { MigrateInv(s, t, move); }
  }

  lemma InitConsistent(s: State)
    requires Init(s)
    ensures Consistent(s)
  {
    forall t | 0 <= t < |s.tasks| ensures TaskPlaced(s, t) {
      var k := s.tasks[t];
      if k.idle { assert s.rqs[k.cpu].curr == t; }
    }
  }

  lemma InitInv(s: State)
    requires Init(s)
    ensures Inv(s)
  {
    InitConsistent(s);
    forall c | 0 <= c < |s.rqs| ensures Sum(s.tasks, IowaitOn(c)) == 0 { SumZero(s.tasks, IowaitOn(c)); }
    SumZero(s.tasks, LoadSleeper);
    SumZero(s.rqs, NrUninterruptible);
  }

  // --------------------------------------------------------------- whole runs

  ghost predicate Run(trace: seq<State>, steps: seq<Step>)
  {
    && |trace| == |steps| + 1 && Init(trace[0])
    && forall i :: 0 <= i < |steps| ==> Enabled(trace[i], steps[i]) && trace[i + 1] == Apply(trace[i], steps[i])
  }

  lemma {:induction false} RunInv(trace: seq<State>, steps: seq<Step>, n: nat)
    requires Run(trace, steps) && n < |trace|
    ensures Inv(trace[n])
  {
    if n == 0 {
      InitInv(trace[0]);
    } else {
      RunInv(trace, steps, n - 1);
      StepInv(trace[n - 1], steps[n - 1]);
    }
  }

  /** A task is on at most one runqueue, the one its on_rq and task_cpu say, and current on at most one CPU. */
  ghost predicate OnePlace(s: State)
  {
    && (forall t: TaskId, c: Cpu, d: Cpu ::
          0 <= c < |s.rqs| && 0 <= d < |s.rqs| && t in s.rqs[c].queue && t in s.rqs[d].queue ==> c == d)
    && (forall c, d :: 0 <= c < |s.rqs| && 0 <= d < |s.rqs| && s.rqs[c].curr == s.rqs[d].curr ==> c == d)
    && (forall t, c :: 0 <= t < |s.tasks| && 0 <= c < |s.rqs| ==>
          (t in s.rqs[c].queue <==> !s.tasks[t].idle && s.tasks[t].onRq == Queued && s.tasks[t].cpu == c))
  }

  /** The warnings of sched_ttwu_pending() and the BUG_ON of move_queued_task() cannot fire. */
  ghost predicate NoWarning(s: State)
  {
    && (forall t: TaskId, c: Cpu :: MoveEnabled(s, t, Drain(c)) ==> !s.tasks[t].onCpu && s.tasks[t].cpu == c)
    && (forall t :: 0 <= t < |s.tasks| && s.tasks[t].onRq.Migrating? ==> s.tasks[t].cpu == s.tasks[t].onRq.dest)
  }

  /** The condition holds, every waker has returned, no wakelist holds the task - and it sleeps in its wait loop. */
  ghost predicate LostWakeup(s: State, t: TaskId)
    requires t < |s.tasks|
  {
    var k := s.tasks[t];
    && k.cond && k.pending == 0 && k.wake == NoWaker
    && (forall c :: 0 <= c < |s.rqs| ==> t !in s.rqs[c].wakelist)
    && k.wait != NoWait && k.onRq == Off
  }

  /** nr_iowait is exactly the blocked iowait tasks of that CPU; the nr_uninterruptible total is the load sleepers. */
  ghost predicate Conserved(s: State)
  {
    && (forall c :: 0 <= c < |s.rqs| ==> s.rqs[c].nrIowait == Sum(s.tasks, IowaitOn(c)) >= 0)
    && Sum(s.rqs, NrUninterruptible) == Sum(s.tasks, LoadSleeper)
  }

  lemma QueuedWhere(s: State, t: TaskId, c: Cpu)
    requires Inv(s) && c < |s.rqs| && t in s.rqs[c].queue
    ensures t < |s.tasks| && s.tasks[t].onRq == Queued && s.tasks[t].cpu == c
  {
    assert RqOk(s, c) && TaskPlaced(s, t);
  }

  lemma InvOnePlace(s: State)
    requires Inv(s)
    ensures OnePlace(s)
  {
    forall t, c | 0 <= t < |s.tasks| && 0 <= c < |s.rqs|
      ensures t in s.rqs[c].queue <==> !s.tasks[t].idle && s.tasks[t].onRq == Queued && s.tasks[t].cpu == c
    {
      assert TaskPlaced(s, t);
    }
    forall t: TaskId, c: Cpu, d: Cpu |
      0 <= c < |s.rqs| && 0 <= d < |s.rqs| && t in s.rqs[c].queue && t in s.rqs[d].queue ensures c == d
    {
      QueuedWhere(s, t, c);
      QueuedWhere(s, t, d);
    }
    forall c, d | 0 <= c < |s.rqs| && 0 <= d < |s.rqs| && s.rqs[c].curr == s.rqs[d].curr ensures c == d {
      assert RqOk(s, c) && RqOk(s, d);
    }
  }

  lemma InvSafe(s: State)
    requires Inv(s)
    ensures OnePlace(s) && NoWarning(s) && Conserved(s)
    ensures forall t :: 0 <= t < |s.tasks| ==> !LostWakeup(s, t)
  {
    InvOnePlace(s);
    forall t: TaskId, c: Cpu | MoveEnabled(s, t, Drain(c)) ensures !s.tasks[t].onCpu && s.tasks[t].cpu == c {
      DrainQuiet(s, c, t);
    }
    forall t | 0 <= t < |s.tasks| ensures !LostWakeup(s, t) { assert TaskOk(s.tasks[t]) && TaskPlaced(s, t); }
    forall c | 0 <= c < |s.rqs| ensures Sum(s.tasks, IowaitOn(c)) >= 0 { SumBounds(s.tasks, IowaitOn(c)); }
  }

  /** Safety of every interleaving, at every point of every run. */
  lemma RunSafe(trace: seq<State>, steps: seq<Step>, n: nat)
    requires Run(trace, steps) && n < |trace|
    ensures OnePlace(trace[n]) && NoWarning(trace[n]) && Conserved(trace[n])
    ensures forall t :: 0 <= t < |trace[n].tasks| ==> !LostWakeup(trace[n], t)
  {
    RunInv(trace, steps, n);
    InvSafe(trace[n]);
  }
}
