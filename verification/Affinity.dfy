/**
 Changing the CPU affinity of a task while the task may be running, queued,
 blocked or inside a migrate-disable region: set_cpus_allowed_ptr() callers,
 the stopper callback migration_cpu_stop(), migrate_disable()/migrate_enable()
 and the switches of the task itself, for any number of callers and CPUs.

 A step is one critical section under p->pi_lock and the runqueue lock, or one
 action a context takes after dropping them (queueing the stopper, signalling
 the completion, dropping its reference, returning).

 Caller i keeps its request on its own stack: reqs[i] is that stack object, and
 it is Blank whenever the frame is not in use.
 */
module Affinity {
  import opened Common
  import opened Counting

  type Cpu = nat
  type CallerId = nat

  datatype RunState = Running | Queued | Blocked

  /** The stop work embedded in a request. */
  datatype Work =
    | NotQueued
    | OnStopper(cpu: Cpu)
    | Chasing           // the stopper missed the task and is about to follow it
    | StopSignal        // the stopper is past its unlock, about to complete_all()

  datatype Request = Request(refs: int, stopPending: bool, done: bool, dest: Cpu, work: Work)

  const Blank := Request(0, false, false, 0, NotQueued)

  /** Where a caller of set_cpus_allowed_ptr() is in affine_move_task(). */
  datatype Pc =
    | Out
    | Queueing(r: CallerId, cpu: Cpu)       // about to queue the stopper
    | Signalling(r: CallerId, wait: bool)   // about to complete_all(), then wait or return
    | Waiting(r: CallerId)                  // wait_for_completion()
    | Draining                              // wait_var_event() on its own refs

  /** Where the task is in the outermost migrate_enable(). */
  datatype Tail = NoTail | TailQueue(r: CallerId) | TailSignal(r: CallerId) | TailClear

  datatype Task = Task(
    run: RunState,
    cpu: Cpu,
    mask: set<Cpu>,          // cpus_mask
    pin: Option<Cpu>,        // Some: cpus_ptr points at cpumask_of(pin)
    disabled: nat,           // migration_disabled
    pending: Option<CallerId>,
    tail: Tail)

  datatype State = State(p: Task, pcs: seq<Pc>, reqs: seq<Request>)

  datatype Step =
    | SetAffinity(i: CallerId, newMask: set<Cpu>, dest: Cpu)
    | QueueStopper(i: CallerId)
    | Complete(i: CallerId)
    | DropRef(i: CallerId)
    | Return(i: CallerId)
    | Stop(r: CallerId)
    | Chase(r: CallerId)
    | StopComplete(r: CallerId)
    | SwitchOut(blocks: bool)
    | SwitchIn
    | Wake(to: Cpu)
    | Balance(to: Cpu)
    | Disable
    | EnableNested
    | EnableBegin
    | EnableFollow
    | EnableEnd

  /** *cpus_ptr */
  function Allowed(p: Task): set<Cpu> { if p.pin.Some? then {p.pin.value} else p.mask }

  predicate InRange(s: State, r: CallerId) { r < |s.pcs| == |s.reqs| }

  predicate PendingInRange(s: State) { s.p.pending.Some? ==> InRange(s, s.p.pending.value) }

  predicate Enabled(s: State, a: Step)
  {
    match a
    case SetAffinity(i, newMask, dest) =>
      InRange(s, i) && s.pcs[i] == Out && dest in newMask && PendingInRange(s)
    case QueueStopper(i) => InRange(s, i) && s.pcs[i].Queueing? && InRange(s, s.pcs[i].r)
    case Complete(i) => InRange(s, i) && s.pcs[i].Signalling? && InRange(s, s.pcs[i].r)
    case DropRef(i) => InRange(s, i) && s.pcs[i].Waiting? && InRange(s, s.pcs[i].r) && s.reqs[s.pcs[i].r].done
    case Return(i) => InRange(s, i) && s.pcs[i] == Draining && s.reqs[i].refs == 0
    case Stop(r) =>
      && InRange(s, r) && s.reqs[r].work.OnStopper?
      && !(s.p.run == Running && s.p.cpu == s.reqs[r].work.cpu)  // the stopper is current on its CPU
    case Chase(r) => InRange(s, r) && s.reqs[r].work == Chasing
    case StopComplete(r) => InRange(s, r) && s.reqs[r].work == StopSignal
    case SwitchOut(_) => s.p.run == Running && s.p.tail == NoTail
    case SwitchIn => s.p.run == Queued
    case Wake(to) => s.p.run == Blocked && to in Allowed(s.p)
    case Balance(to) => s.p.run == Queued && to in Allowed(s.p)
    case Disable => s.p.run == Running && s.p.tail == NoTail
    case EnableNested => s.p.run == Running && s.p.tail == NoTail && s.p.disabled != 1
    case EnableBegin => s.p.run == Running && s.p.tail == NoTail && s.p.disabled == 1 && PendingInRange(s)
    case EnableFollow =>
      && (s.p.tail.TailQueue? ==> InRange(s, s.p.tail.r)) && (s.p.tail.TailSignal? ==> InRange(s, s.p.tail.r))
      && (s.p.tail.TailQueue? || s.p.tail.TailSignal?)
    case EnableEnd => s.p.tail == TailClear
  }

  /** affine_move_task() without SCA_MIGRATE_ENABLE, up to the unlock; the mask is already the new one. */
  function AffineMove(s: State, i: CallerId, dest: Cpu): State
    requires InRange(s, i) && PendingInRange(s)
  {
    var p := s.p;
    if p.cpu in p.mask then
      if p.pending.Some? && !s.reqs[p.pending.value].stopPending then
        State(p.(pending := None), s.pcs[i := Signalling(p.pending.value, false)], s.reqs)
      else s
    else if p.pending.None? then
      var own := Request(1, false, false, dest, NotQueued);
      AwaitMove(s.(p := p.(pending := Some(i)), reqs := s.reqs[i := own]), i, i, dest)
    else
      var r := p.pending.value;
      AwaitMove(s.(reqs := s.reqs[r := s.reqs[r].(refs := s.reqs[r].refs + 1, dest := dest)]), i, r, dest)
  }

  /** The rest of it: caller i holds a reference on the installed request r. */
  function AwaitMove(s: State, i: CallerId, r: CallerId, dest: Cpu): State
    requires InRange(s, i) && InRange(s, r)
  {
    var p := s.p;
    if p.run == Running then
      if s.reqs[r].stopPending then s.(pcs := s.pcs[i := Waiting(r)])
      else s.(pcs := s.pcs[i := Queueing(r, p.cpu)], reqs := s.reqs[r := s.reqs[r].(stopPending := true)])
    else if p.disabled > 0 then s.(pcs := s.pcs[i := Waiting(r)])
    else
      var p' := if p.run == Queued then p.(cpu := dest) else p;
      if s.reqs[r].stopPending then s.(p := p', pcs := s.pcs[i := Waiting(r)])
      else s.(p := p'.(pending := None), pcs := s.pcs[i := Signalling(r, true)])
  }

  /** migration_cpu_stop() for request r on CPU c, up to the unlock. */
  function StopRun(s: State, r: CallerId, c: Cpu): State
    requires InRange(s, r)
  {
    var p := s.p;
    var q := s.reqs[r];
    if p.cpu == c then
      if p.disabled > 0 then s.(reqs := s.reqs[r := q.(stopPending := false, work := NotQueued)])
      else
        var p' := if p.cpu !in p.mask && p.run == Queued && q.dest in Allowed(p) then p.(cpu := q.dest) else p;
        s.(p := p'.(pending := None), reqs := s.reqs[r := q.(stopPending := false, work := StopSignal)])
    else if p.cpu in Allowed(p) then
      s.(p := p.(pending := None), reqs := s.reqs[r := q.(stopPending := false, work := StopSignal)])
    else s.(reqs := s.reqs[r := q.(work := Chasing)])
  }

  /** The outermost migrate_enable(): cpus_ptr back to cpus_mask, then affine_move_task(SCA_MIGRATE_ENABLE). */
  function EnableRun(s: State): State
    requires PendingInRange(s)
  {
    var p := s.p.(pin := None);
    if s.p.pin.None? || p.pending.None? then s.(p := p.(tail := TailClear))
    else
      var r := p.pending.value;
      if s.reqs[r].stopPending then s.(p := p.(tail := TailClear))
      else if p.cpu in p.mask then s.(p := p.(pending := None, tail := TailSignal(r)))
      else s.(p := p.(tail := TailQueue(r)), reqs := s.reqs[r := s.reqs[r].(stopPending := true)])
  }

  function Signal(s: State, r: CallerId): State
    requires InRange(s, r)
  {
    s.(reqs := s.reqs[r := s.reqs[r].(done := true)])
  }

  function Apply(s: State, a: Step): State
    requires Enabled(s, a)
  {
    match a
    case SetAffinity(i, newMask, dest) =>
      if newMask == s.p.mask then s else AffineMove(s.(p := s.p.(mask := newMask)), i, dest)
    case QueueStopper(i) =>
      var r := s.pcs[i].r;
      s.(pcs := s.pcs[i := Waiting(r)], reqs := s.reqs[r := s.reqs[r].(work := OnStopper(s.pcs[i].cpu))])
    case Complete(i) =>
      Signal(s, s.pcs[i].r).(pcs := s.pcs[i := if s.pcs[i].wait then Waiting(s.pcs[i].r) else Out])
    case DropRef(i) =>
      var r := s.pcs[i].r;
      s.(pcs := s.pcs[i := Draining], reqs := s.reqs[r := s.reqs[r].(refs := s.reqs[r].refs - 1)])
    case Return(i) => s.(pcs := s.pcs[i := Out], reqs := s.reqs[i := Blank])
    case Stop(r) => StopRun(s, r, s.reqs[r].work.cpu)
    case Chase(r) => s.(reqs := s.reqs[r := s.reqs[r].(work := OnStopper(s.p.cpu))])
    case StopComplete(r) => s.(reqs := s.reqs[r := s.reqs[r].(done := true, work := NotQueued)])
    case SwitchOut(blocks) =>
      s.(p := s.p.(run := if blocks then Blocked else Queued,
                   pin := if s.p.disabled > 0 && s.p.pin.None? then Some(s.p.cpu) else s.p.pin))
    case SwitchIn => s.(p := s.p.(run := Running))
    case Wake(to) => s.(p := s.p.(run := Queued, cpu := to))
    case Balance(to) => s.(p := s.p.(cpu := to))
    case Disable => s.(p := s.p.(disabled := s.p.disabled + 1))
    case EnableNested => s.(p := s.p.(disabled := if s.p.disabled > 1 then s.p.disabled - 1 else 0))
    case EnableBegin => EnableRun(s)
    case EnableFollow =>
      if s.p.tail.TailSignal? then Signal(s, s.p.tail.r).(p := s.p.(tail := TailClear))
      else
        var r := s.p.tail.r;
        s.(p := s.p.(tail := TailClear), reqs := s.reqs[r := s.reqs[r].(work := OnStopper(s.p.cpu))])
    case EnableEnd => s.(p := s.p.(disabled := 0, tail := NoTail))
  }

  ghost predicate Init(s: State)
  {
    && |s.pcs| == |s.reqs|
    && (forall i :: 0 <= i < |s.pcs| ==> s.pcs[i] == Out && s.reqs[i] == Blank)
    && s.p.pin.None? && s.p.disabled == 0 && s.p.pending.None? && s.p.tail == NoTail && s.p.cpu in s.p.mask
  }

  // ---------------------------------------------------------------- invariant

  /** The callers whose reference on request r is still outstanding. */
  function Uses(r: CallerId): Pc -> int
  {
    (pc: Pc) => if pc == Waiting(r) || pc == Signalling(r, true) || (pc.Queueing? && pc.r == r) then 1 else 0
  }

  function Queues(r: CallerId): Pc -> int { (pc: Pc) => if pc.Queueing? && pc.r == r then 1 else 0 }

  function Signals(r: CallerId): Pc -> int { (pc: Pc) => if pc.Signalling? && pc.r == r then 1 else 0 }

  /** The frame holding the request is in use: references are out, or its owner has yet to see them drop. */
  predicate Live(q: Request) { q.refs > 0 || q.done }

  /** Contexts that will run, or are running, the stopper for r. */
  ghost function Stoppers(s: State, r: CallerId): int
    requires InRange(s, r)
  {
    Sum(s.pcs, Queues(r)) + One(s.p.tail == TailQueue(r)) + One(s.reqs[r].work.OnStopper? || s.reqs[r].work == Chasing)
  }

  /** Contexts that will signal the completion of r. */
  ghost function Signallers(s: State, r: CallerId): int
    requires InRange(s, r)
  {
    Sum(s.pcs, Signals(r)) + One(s.p.tail == TailSignal(r)) + One(s.reqs[r].work == StopSignal)
  }

  ghost predicate RequestOk(s: State, r: CallerId)
    requires InRange(s, r)
  {
    var q := s.reqs[r];
    && q.refs == Sum(s.pcs, Uses(r))
    && Stoppers(s, r) == One(q.stopPending)
    && One(s.p.pending == Some(r)) + Signallers(s, r) + One(q.done) == One(Live(q))
    && (q.stopPending ==> s.p.pending == Some(r))
  }

  /** A caller's frame is in use exactly while its call is in progress on its own request. */
  ghost predicate CallerOk(s: State, i: CallerId)
    requires InRange(s, i)
  {
    var own := s.pcs[i] == Waiting(i) || s.pcs[i] == Signalling(i, true) || (s.pcs[i].Queueing? && s.pcs[i].r == i);
    && (Live(s.reqs[i]) ==> own || (s.pcs[i] == Draining && s.reqs[i].done))
    && (own ==> Live(s.reqs[i]))
    && (s.pcs[i].Queueing? || s.pcs[i].Signalling? || s.pcs[i].Waiting? ==> s.pcs[i].r < |s.pcs|)
  }

  ghost predicate TaskOk(s: State)
  {
    var p := s.p;
    && (p.pin.Some? ==> p.pin.value == p.cpu && p.disabled > 0)
    && (p.disabled > 0 && p.run != Running ==> p.pin.Some?)
    && (p.tail != NoTail ==> p.run == Running && p.disabled == 1 && p.pin.None?)
    && (p.tail.TailQueue? || p.tail.TailSignal? ==> InRange(s, p.tail.r))
    && (p.pending.Some? ==>
          && InRange(s, p.pending.value)
          && (s.reqs[p.pending.value].stopPending || p.pin.Some?)
          && (s.reqs[p.pending.value].dest in p.mask || p.cpu in p.mask))
  }

  ghost predicate Inv(s: State)
  {
    && |s.pcs| == |s.reqs| && TaskOk(s)
    && (forall r :: 0 <= r < |s.reqs| ==> RequestOk(s, r))
    && (forall i :: 0 <= i < |s.pcs| ==> CallerOk(s, i))
  }

  // -------------------------------------------------------- step preservation

  /** One caller moves on: the three sums change by what its two program points contribute. */
  lemma PcSums(pcs: seq<Pc>, i: CallerId, pc: Pc, r: CallerId)
    requires i < |pcs|
    ensures Sum(pcs[i := pc], Uses(r)) == Sum(pcs, Uses(r)) - Uses(r)(pcs[i]) + Uses(r)(pc)
    ensures Sum(pcs[i := pc], Queues(r)) == Sum(pcs, Queues(r)) - Queues(r)(pcs[i]) + Queues(r)(pc)
    ensures Sum(pcs[i := pc], Signals(r)) == Sum(pcs, Signals(r)) - Signals(r)(pcs[i]) + Signals(r)(pc)
  {
    SumUpdate(pcs, Uses(r), i, pc);
    SumUpdate(pcs, Queues(r), i, pc);
    SumUpdate(pcs, Signals(r), i, pc);
  }

  lemma PcBounds(pcs: seq<Pc>, r: CallerId)
    ensures Sum(pcs, Uses(r)) >= 0 && Sum(pcs, Queues(r)) >= 0 && Sum(pcs, Signals(r)) >= 0
    ensures forall i :: 0 <= i < |pcs| ==>
      && Uses(r)(pcs[i]) <= Sum(pcs, Uses(r)) && Queues(r)(pcs[i]) <= Sum(pcs, Queues(r))
      && Signals(r)(pcs[i]) <= Sum(pcs, Signals(r))
  {
    SumBounds(pcs, Uses(r));
    SumBounds(pcs, Queues(r));
    SumBounds(pcs, Signals(r));
  }

  /** Whoever points at a request points at a live one: no use of a stack object after its owner returned. */
  lemma ReachableLive(s: State, r: CallerId)
    requires Inv(s) && InRange(s, r)
    ensures s.p.pending == Some(r) ==> Live(s.reqs[r]) && !s.reqs[r].done
    ensures s.p.tail == TailQueue(r) ==> Live(s.reqs[r]) && s.reqs[r].stopPending && s.p.pending == Some(r)
    ensures s.p.tail == TailSignal(r) ==> Live(s.reqs[r]) && !s.reqs[r].done
    ensures s.reqs[r].work != NotQueued ==> Live(s.reqs[r]) && !s.reqs[r].done
    ensures s.reqs[r].work.OnStopper? || s.reqs[r].work == Chasing ==> s.reqs[r].stopPending && s.p.pending == Some(r)
    ensures s.reqs[r].work == StopSignal ==> !s.reqs[r].stopPending && s.p.pending != Some(r)
    ensures forall i :: 0 <= i < |s.pcs| ==>
      var pc := s.pcs[i];
      && (pc.Queueing? && pc.r == r ==> s.reqs[r].stopPending && s.p.pending == Some(r) && !s.reqs[r].done)
      && (pc.Signalling? && pc.r == r ==> !s.reqs[r].stopPending && s.p.pending != Some(r) && !s.reqs[r].done)
      && ((pc.Queueing? || pc.Signalling? || pc.Waiting?) && pc.r == r ==> Live(s.reqs[r]))
  {
    PcBounds(s.pcs, r);
    assert RequestOk(s, r);
    forall i | 0 <= i < |s.pcs|
      ensures var pc := s.pcs[i];
        && (pc.Queueing? && pc.r == r ==> s.reqs[r].stopPending && s.p.pending == Some(r) && !s.reqs[r].done)
        && (pc.Signalling? && pc.r == r ==> !s.reqs[r].stopPending && s.p.pending != Some(r) && !s.reqs[r].done)
        && ((pc.Queueing? || pc.Signalling? || pc.Waiting?) && pc.r == r ==> Live(s.reqs[r]))
    {
      assert Uses(r)(s.pcs[i]) <= Sum(s.pcs, Uses(r));
      assert Queues(r)(s.pcs[i]) <= Sum(s.pcs, Queues(r));
      assert Signals(r)(s.pcs[i]) <= Sum(s.pcs, Signals(r));
    }
  }

  /** Steps of the task alone. */
  lemma TaskStepInv(s: State, a: Step)
    requires Inv(s) && Enabled(s, a)
    requires a.SwitchOut? || a.SwitchIn? || a.Wake? || a.Balance? || a.Disable? || a.EnableNested? || a.EnableEnd?
    ensures Inv(Apply(s, a))
  {
    var s' := Apply(s, a);
    forall r | 0 <= r < |s'.reqs| ensures RequestOk(s', r) { assert RequestOk(s, r); }
    forall i | 0 <= i < |s'.pcs| ensures CallerOk(s', i) { assert CallerOk(s, i); }
  }

  lemma EnableBeginInv(s: State)
    requires Inv(s) && Enabled(s, EnableBegin)
    ensures Inv(EnableRun(s))
  {
    var s' := EnableRun(s);
    forall r | 0 <= r < |s'.reqs| ensures RequestOk(s', r) {
      assert RequestOk(s, r);
      PcBounds(s.pcs, r);
    }
    forall i | 0 <= i < |s'.pcs| ensures CallerOk(s', i) { assert CallerOk(s, i); }
  }

  lemma EnableFollowInv(s: State)
    requires Inv(s) && Enabled(s, EnableFollow)
    ensures Inv(Apply(s, EnableFollow))
  {
    var s' := Apply(s, EnableFollow);
    ReachableLive(s, s.p.tail.r);
    forall r | 0 <= r < |s'.reqs| ensures RequestOk(s', r) {
      assert RequestOk(s, r);
      PcBounds(s.pcs, r);
    }
    forall i | 0 <= i < |s'.pcs| ensures CallerOk(s', i) { assert CallerOk(s, i); }
  }

  lemma StopInv(s: State, r: CallerId)
    requires Inv(s) && Enabled(s, Stop(r))
    ensures Inv(Apply(s, Stop(r)))
  {
    var s' := Apply(s, Stop(r));
    ReachableLive(s, r);
    forall u | 0 <= u < |s'.reqs| ensures RequestOk(s', u) { assert RequestOk(s, u); }
    forall i | 0 <= i < |s'.pcs| ensures CallerOk(s', i) { assert CallerOk(s, i); }
  }

  lemma StopFollowInv(s: State, a: Step)
    requires Inv(s) && Enabled(s, a) && (a.Chase? || a.StopComplete?)
    ensures Inv(Apply(s, a))
  {
    var s' := Apply(s, a);
    ReachableLive(s, a.r);
    forall u | 0 <= u < |s'.reqs| ensures RequestOk(s', u) { assert RequestOk(s, u); }
    forall i | 0 <= i < |s'.pcs| ensures CallerOk(s', i) { assert CallerOk(s, i); }
  }

  lemma QueueStopperInv(s: State, i: CallerId)
    requires Inv(s) && Enabled(s, QueueStopper(i))
    ensures Inv(Apply(s, QueueStopper(i)))
  {
    var s' := Apply(s, QueueStopper(i));
    var r := s.pcs[i].r;
    ReachableLive(s, r);
    PcBounds(s.pcs, r);
    forall u | 0 <= u < |s'.reqs| ensures RequestOk(s', u) {
      assert RequestOk(s, u);
      PcSums(s.pcs, i, Waiting(r), u);
    }
    forall u | 0 <= u < |s'.pcs| ensures CallerOk(s', u) { assert CallerOk(s, u); }
  }

  lemma CompleteInv(s: State, i: CallerId)
    requires Inv(s) && Enabled(s, Complete(i))
    ensures Inv(Apply(s, Complete(i)))
  {
    var s' := Apply(s, Complete(i));
    var r := s.pcs[i].r;
    ReachableLive(s, r);
    PcBounds(s.pcs, r);
    forall u | 0 <= u < |s'.reqs| ensures RequestOk(s', u) {
      assert RequestOk(s, u);
      PcSums(s.pcs, i, s'.pcs[i], u);
    }
    forall u | 0 <= u < |s'.pcs| ensures CallerOk(s', u) { assert CallerOk(s, u); }
  }

  lemma DropRefInv(s: State, i: CallerId)
    requires Inv(s) && Enabled(s, DropRef(i))
    ensures Inv(Apply(s, DropRef(i)))
  {
    var s' := Apply(s, DropRef(i));
    var r := s.pcs[i].r;
    ReachableLive(s, r);
    PcBounds(s.pcs, r);
    forall u | 0 <= u < |s'.reqs| ensures RequestOk(s', u) {
      assert RequestOk(s, u);
      PcSums(s.pcs, i, Draining, u);
    }
    forall u | 0 <= u < |s'.pcs| ensures CallerOk(s', u) { assert CallerOk(s, u); }
  }

  lemma ReturnRequest(s: State, i: CallerId, u: CallerId)
    requires Inv(s) && Enabled(s, Return(i)) && u < |s.reqs|
    ensures RequestOk(Apply(s, Return(i)), u)
  {
    PcBounds(s.pcs, i);
    PcSums(s.pcs, i, Out, u);
    assert CallerOk(s, i) && RequestOk(s, i) && RequestOk(s, u);
  }

  lemma ReturnInv(s: State, i: CallerId)
    requires Inv(s) && Enabled(s, Return(i))
    ensures Inv(Apply(s, Return(i)))
  {
    var s' := Apply(s, Return(i));
    ReachableLive(s, i);
    forall u | 0 <= u < |s'.reqs| ensures RequestOk(s', u) { ReturnRequest(s, i, u); }
    forall u | 0 <= u < |s'.pcs| ensures CallerOk(s', u) { assert CallerOk(s, u); }
  }

  lemma AllowedRequest(s: State, i: CallerId, newMask: set<Cpu>, dest: Cpu, u: CallerId)
    requires Inv(s) && Enabled(s, SetAffinity(i, newMask, dest)) && (s.p.cpu in newMask || newMask == s.p.mask)
      && u < |s.reqs|
    ensures RequestOk(Apply(s, SetAffinity(i, newMask, dest)), u)
  {
    PcBounds(s.pcs, u);
    PcSums(s.pcs, i, Apply(s, SetAffinity(i, newMask, dest)).pcs[i], u);
    assert CallerOk(s, i) && RequestOk(s, i) && RequestOk(s, u);
  }

  /** A new affinity that allows the current CPU, or no change at all. */
  lemma AllowedHereInv(s: State, i: CallerId, newMask: set<Cpu>, dest: Cpu)
    requires Inv(s) && Enabled(s, SetAffinity(i, newMask, dest)) && (s.p.cpu in newMask || newMask == s.p.mask)
    ensures Inv(Apply(s, SetAffinity(i, newMask, dest)))
  {
    var s' := Apply(s, SetAffinity(i, newMask, dest));
    assert CallerOk(s, i);
    if s.p.pending.Some? { ReachableLive(s, s.p.pending.value); }
    forall u | 0 <= u < |s'.reqs| ensures RequestOk(s', u) { AllowedRequest(s, i, newMask, dest, u); }
    forall u | 0 <= u < |s'.pcs| ensures CallerOk(s', u) { assert CallerOk(s, u); }
  }

  /** The state between taking the reference and deciding how to wait: caller i holds a reference
      it does not show yet. */
  ghost predicate Referenced(s: State, i: CallerId, r: CallerId)
  {
    && |s.pcs| == |s.reqs| && i < |s.pcs| && r < |s.pcs| && s.pcs[i] == Out && s.p.pending == Some(r)
    && s.p.cpu !in s.p.mask && s.reqs[r].dest in s.p.mask
    && (s.p.pin.Some? ==> s.p.pin.value == s.p.cpu && s.p.disabled > 0)
    && (s.p.disabled > 0 && s.p.run != Running ==> s.p.pin.Some?)
    && (s.p.tail != NoTail ==> s.p.run == Running && s.p.disabled == 1 && s.p.pin.None?)
    && (s.p.tail.TailQueue? || s.p.tail.TailSignal? ==> InRange(s, s.p.tail.r))
    && (forall u :: 0 <= u < |s.reqs| ==> RequestOkBut(s, u, r))
    && (forall u :: 0 <= u < |s.pcs| && u != i ==> CallerOk(s, u))
    && (Live(s.reqs[i]) <==> i == r)
  }

  /** RequestOk, except that one reference on `taken` is not shown by any caller yet. */
  ghost predicate RequestOkBut(s: State, r: CallerId, taken: CallerId)
    requires InRange(s, r)
  {
    var q := s.reqs[r];
    && q.refs == Sum(s.pcs, Uses(r)) + One(r == taken)
    && Stoppers(s, r) == One(q.stopPending)
    && One(s.p.pending == Some(r)) + Signallers(s, r) + One(q.done) == One(Live(q))
    && (q.stopPending ==> s.p.pending == Some(r))
  }

  lemma InstallReferenced(s: State, i: CallerId, newMask: set<Cpu>, dest: Cpu)
    requires Inv(s) && Enabled(s, SetAffinity(i, newMask, dest)) && s.p.cpu !in newMask && s.p.pending.None?
    ensures Referenced(s.(p := s.p.(mask := newMask, pending := Some(i)),
                          reqs := s.reqs[i := Request(1, false, false, dest, NotQueued)]), i, i)
  {
    var s' := s.(p := s.p.(mask := newMask, pending := Some(i)),
                 reqs := s.reqs[i := Request(1, false, false, dest, NotQueued)]);
    assert CallerOk(s, i) && RequestOk(s, i);
    forall u | 0 <= u < |s'.reqs| ensures RequestOkBut(s', u, i) {
      assert RequestOk(s, u);
      PcBounds(s.pcs, u);
    }
    forall u | 0 <= u < |s'.pcs| && u != i ensures CallerOk(s', u) { assert CallerOk(s, u); }
  }

  lemma JoinReferenced(s: State, i: CallerId, newMask: set<Cpu>, dest: Cpu)
    requires Inv(s) && Enabled(s, SetAffinity(i, newMask, dest)) && s.p.cpu !in newMask && s.p.pending.Some?
    ensures var r := s.p.pending.value; var q := s.reqs[r].(refs := s.reqs[r].refs + 1, dest := dest);
      Referenced(s.(p := s.p.(mask := newMask), reqs := s.reqs[r := q]), i, r)
  {
    var r := s.p.pending.value;
    var q := s.reqs[r].(refs := s.reqs[r].refs + 1, dest := dest);
    var s' := s.(p := s.p.(mask := newMask), reqs := s.reqs[r := q]);
    assert CallerOk(s, i) && RequestOk(s, i) && CallerOk(s, r);
    ReachableLive(s, r);
    PcBounds(s.pcs, r);
    forall u | 0 <= u < |s'.reqs| ensures RequestOkBut(s', u, r) { assert RequestOk(s, u); }
    forall u | 0 <= u < |s'.pcs| && u != i ensures CallerOk(s', u) { assert CallerOk(s, u); }
  }

  lemma AwaitRequest(s: State, i: CallerId, r: CallerId, dest: Cpu, u: CallerId)
    requires Referenced(s, i, r) && dest == s.reqs[r].dest && u < |s.reqs|
    ensures RequestOk(AwaitMove(s, i, r, dest), u)
  {
    PcBounds(s.pcs, r);
    PcSums(s.pcs, i, AwaitMove(s, i, r, dest).pcs[i], u);
    assert RequestOkBut(s, r, r) && RequestOkBut(s, u, r);
  }

  lemma AwaitMoveInv(s: State, i: CallerId, r: CallerId, dest: Cpu)
    requires Referenced(s, i, r) && dest == s.reqs[r].dest
    ensures Inv(AwaitMove(s, i, r, dest))
  {
    var s' := AwaitMove(s, i, r, dest);
    PcBounds(s.pcs, r);
    assert RequestOkBut(s, r, r);
    forall u | 0 <= u < |s'.reqs| ensures RequestOk(s', u) { AwaitRequest(s, i, r, dest, u); }
    forall u | 0 <= u < |s'.pcs| ensures CallerOk(s', u) { if u != i { assert CallerOk(s, u); } }
  }

  lemma SetAffinityInv(s: State, i: CallerId, newMask: set<Cpu>, dest: Cpu)
    requires Inv(s) && Enabled(s, SetAffinity(i, newMask, dest))
    ensures Inv(Apply(s, SetAffinity(i, newMask, dest)))
  {
    if s.p.cpu in newMask || newMask == s.p.mask {
      AllowedHereInv(s, i, newMask, dest);
    } else if s.p.pending.None? {
      InstallReferenced(s, i, newMask, dest);
      AwaitMoveInv(s.(p := s.p.(mask := newMask, pending := Some(i)),
                      reqs := s.reqs[i := Request(1, false, false, dest, NotQueued)]), i, i, dest);
    } else {
      var r := s.p.pending.value;
      JoinReferenced(s, i, newMask, dest);
      AwaitMoveInv(s.(p := s.p.(mask := newMask),
                      reqs := s.reqs[r := s.reqs[r].(refs := s.reqs[r].refs + 1, dest := dest)]), i, r, dest);
    }
  }

  lemma StepInv(s: State, a: Step)
    requires Inv(s) && Enabled(s, a)
    ensures Inv(Apply(s, a))
  {
    match a
    case SetAffinity(i, newMask, dest) => SetAffinityInv(s, i, newMask, dest);
    case QueueStopper(i) => QueueStopperInv(s, i);
    case Complete(i) => CompleteInv(s, i);
    case DropRef(i) => DropRefInv(s, i);
    case Return(i) => ReturnInv(s, i);
    case Stop(r) => StopInv(s, r);
    case Chase(_) => StopFollowInv(s, a);
    case StopComplete(_) => StopFollowInv(s, a);
    case EnableBegin => EnableBeginInv(s);
    case EnableFollow => EnableFollowInv(s);
    case _ => TaskStepInv(s, a);
  }

  lemma InitInv(s: State)
    requires Init(s)
    ensures Inv(s)
  {
    forall r | 0 <= r < |s.reqs| ensures RequestOk(s, r) {
      SumZero(s.pcs, Uses(r));
      SumZero(s.pcs, Queues(r));
      SumZero(s.pcs, Signals(r));
    }
  }

  // --------------------------------------------------------------- whole runs

  predicate Follows(trace: seq<State>, steps: seq<Step>, n: nat)
    requires n < |steps| && n + 1 < |trace|
  {
    Enabled(trace[n], steps[n]) && trace[n + 1] == Apply(trace[n], steps[n])
  }

  ghost predicate Run(trace: seq<State>, steps: seq<Step>)
  {
    && |trace| == |steps| + 1 && Init(trace[0])
    && forall n :: 0 <= n < |steps| ==> Follows(trace, steps, n)
  }

  lemma {:induction false} RunInv(trace: seq<State>, steps: seq<Step>, n: nat)
    requires Run(trace, steps) && n < |trace|
    ensures Inv(trace[n])
  {
    if n == 0 {
      InitInv(trace[0]);
    } else {
      RunInv(trace, steps, n - 1);
      assert Follows(trace, steps, n - 1);
      StepInv(trace[n - 1], steps[n - 1]);
    }
  }

  /** A caller that waits is never stranded: its request is signalled, or about to be by exactly one context, or
      installed with exactly one stopper on its way, or installed on a pinned task whose migrate_enable() is due. */
  ghost predicate Served(s: State, i: CallerId)
    requires InRange(s, i)
  {
    s.pcs[i].Waiting? ==>
      var r := s.pcs[i].r;
      && InRange(s, r)
      && (|| s.reqs[r].done
          || (s.p.pending != Some(r) && Signallers(s, r) == 1)
          || (s.p.pending == Some(r) && s.reqs[r].stopPending && Stoppers(s, r) == 1)
          || (s.p.pending == Some(r) && s.p.disabled > 0 && s.p.pin == Some(s.p.cpu)))
  }

  /** Every pointer to a request - from the task, a stopper or a caller - leads into a frame still in use. */
  ghost predicate NoDangling(s: State)
  {
    && |s.pcs| == |s.reqs|
    && (s.p.pending.Some? ==> InRange(s, s.p.pending.value) && Live(s.reqs[s.p.pending.value]))
    && (s.p.tail.TailQueue? || s.p.tail.TailSignal? ==> InRange(s, s.p.tail.r) && Live(s.reqs[s.p.tail.r]))
    && (forall r :: 0 <= r < |s.reqs| && s.reqs[r].work != NotQueued ==> Live(s.reqs[r]))
    && (forall i :: 0 <= i < |s.pcs| && (s.pcs[i].Queueing? || s.pcs[i].Signalling? || s.pcs[i].Waiting?) ==>
          InRange(s, s.pcs[i].r) && Live(s.reqs[s.pcs[i].r]))
    && (forall i :: 0 <= i < |s.pcs| && s.pcs[i] == Out ==> !Live(s.reqs[i]))
    && (forall r :: 0 <= r < |s.reqs| ==> s.reqs[r].refs == Sum(s.pcs, Uses(r)))
  }

  /** The three warnings about stop_pending and a foreign pending are quiet in this state. */
  ghost predicate StopperQuiet(s: State)
  {
    && (forall r: CallerId :: Enabled(s, Stop(r)) ==> s.p.pending == Some(r) && s.reqs[r].stopPending)
    && (forall i: CallerId :: Enabled(s, Return(i)) ==> !s.reqs[i].stopPending)
  }

  lemma InvServed(s: State, i: CallerId)
    requires Inv(s) && i < |s.pcs|
    ensures Served(s, i)
  {
    assert CallerOk(s, i);
    if s.pcs[i].Waiting? {
      var r := s.pcs[i].r;
      ReachableLive(s, r);
      assert RequestOk(s, r);
    }
  }

  lemma CallerPointsLive(s: State, i: CallerId)
    requires Inv(s) && i < |s.pcs|
    ensures s.pcs[i].Queueing? || s.pcs[i].Signalling? || s.pcs[i].Waiting? ==>
      InRange(s, s.pcs[i].r) && Live(s.reqs[s.pcs[i].r])
    ensures s.pcs[i] == Out ==> !Live(s.reqs[i])
    ensures Enabled(s, Return(i)) ==> !s.reqs[i].stopPending
  {
    assert CallerOk(s, i) && RequestOk(s, i);
    ReachableLive(s, i);
    if s.pcs[i].Queueing? || s.pcs[i].Signalling? || s.pcs[i].Waiting? { ReachableLive(s, s.pcs[i].r); }
  }

  lemma InvSafe(s: State)
    requires Inv(s)
    ensures NoDangling(s) && StopperQuiet(s)
    ensures forall i :: 0 <= i < |s.pcs| ==> Served(s, i)
  {
    forall r | 0 <= r < |s.reqs|
      ensures s.reqs[r].refs == Sum(s.pcs, Uses(r))
      ensures s.reqs[r].work != NotQueued ==> Live(s.reqs[r])
      ensures s.reqs[r].work.OnStopper? ==> s.p.pending == Some(r) && s.reqs[r].stopPending
    {
      ReachableLive(s, r);
      assert RequestOk(s, r);
    }
    if s.p.pending.Some? { ReachableLive(s, s.p.pending.value); }
    if s.p.tail.TailQueue? || s.p.tail.TailSignal? { ReachableLive(s, s.p.tail.r); }
    forall i | 0 <= i < |s.pcs|
      ensures Served(s, i)
      ensures s.pcs[i].Queueing? || s.pcs[i].Signalling? || s.pcs[i].Waiting? ==>
        InRange(s, s.pcs[i].r) && Live(s.reqs[s.pcs[i].r])
      ensures s.pcs[i] == Out ==> !Live(s.reqs[i])
      ensures Enabled(s, Return(i)) ==> !s.reqs[i].stopPending
    {
      InvServed(s, i);
      CallerPointsLive(s, i);
    }
  }

  lemma RunSafe(trace: seq<State>, steps: seq<Step>, n: nat)
    requires Run(trace, steps) && n < |trace|
    ensures NoDangling(trace[n]) && StopperQuiet(trace[n])
    ensures forall i :: 0 <= i < |trace[n].pcs| ==> Served(trace[n], i)
  {
    RunInv(trace, steps, n);
    InvSafe(trace[n]);
  }

  /** A request is completed at most once, and only after it was uninstalled with no stopper left. */
  lemma CompletedOnce(s: State, a: Step, r: CallerId)
    requires Inv(s) && Enabled(s, a) && InRange(s, r)
    requires (a.Complete? && s.pcs[a.i].r == r) || a == StopComplete(r)
      || (a.EnableFollow? && s.p.tail == TailSignal(r))
    ensures !s.reqs[r].done && Apply(s, a).reqs[r].done
    ensures s.p.pending != Some(r) && !s.reqs[r].stopPending
    ensures Signallers(s, r) == 1 && Signallers(Apply(s, a), r) == 0
  {
    ReachableLive(s, r);
    StepInv(s, a);
    PcBounds(s.pcs, r);
    assert RequestOk(s, r) && RequestOk(Apply(s, a), r);
  }

  /** The outermost migrate_enable() leaves no pending request behind that nobody serves. */
  lemma EnableServes(s: State)
    requires Inv(s) && Enabled(s, EnableBegin) && s.p.pending.Some?
    ensures var r := s.p.pending.value; var s' := Apply(s, EnableBegin);
      || (s'.p.pending == None && s'.p.tail == TailSignal(r) && s'.p.cpu in s'.p.mask)
      || (s'.p.pending == Some(r) && s'.reqs[r].stopPending && Stoppers(s', r) == 1)
  {
    var r := s.p.pending.value;
    EnableBeginInv(s);
    assert RequestOk(EnableRun(s), r);
  }

  // ------------------------------------------------------- is the mask enforced?

  /** The task may run where it is, or a request to move it is installed. */
  predicate MaskEnforced(p: Task)
  {
    (p.run != Blocked || p.disabled > 0) && p.cpu !in p.mask ==> p.pending.Some?
  }

  /** A stopper that finds the task on another CPU tests cpus_ptr: it completes even if that is only the pin. */
  predicate Stray(s: State, a: Step)
  {
    && a.Stop? && Enabled(s, a)
    && s.reqs[a.r].work.cpu != s.p.cpu && s.p.pin.Some? && s.p.cpu !in s.p.mask
  }

  /** Whatever uninstalls a request, a queued task is then on a CPU of *cpus_ptr; on a CPU of cpus_mask unless stray. */
  lemma UninstallSound(s: State, a: Step)
    requires Inv(s) && Enabled(s, a) && s.p.pending.Some? && Apply(s, a).p.pending.None?
    ensures Apply(s, a).p.run == Queued ==> Apply(s, a).p.cpu in Allowed(Apply(s, a).p)
    ensures MaskEnforced(Apply(s, a).p) <==> !Stray(s, a)
  {
    ReachableLive(s, s.p.pending.value);
    if a.Stop? { ReachableLive(s, a.r); }
  }

  lemma StepEnforced(s: State, a: Step)
    requires Inv(s) && Enabled(s, a) && MaskEnforced(s.p)
    ensures MaskEnforced(Apply(s, a).p) <==> !Stray(s, a)
  {
    if a.Stop? { ReachableLive(s, a.r); }
    if s.p.pending.Some? && Apply(s, a).p.pending.None? { UninstallSound(s, a); }
  }

  /** The affinity promise holds all along a run if and only if no stopper completes a request off a pin. */
  lemma {:induction false} MaskEnforcedIff(trace: seq<State>, steps: seq<Step>)
    requires Run(trace, steps)
    ensures (forall n :: 0 <= n < |trace| ==> MaskEnforced(trace[n].p))
       <==> (forall n :: 0 <= n < |steps| ==> !Stray(trace[n], steps[n]))
  {
    if forall n :: 0 <= n < |trace| ==> MaskEnforced(trace[n].p) {
      forall n | 0 <= n < |steps| ensures !Stray(trace[n], steps[n]) {
        RunInv(trace, steps, n);
        assert Follows(trace, steps, n);
        assert MaskEnforced(trace[n].p) && MaskEnforced(trace[n + 1].p);
        StepEnforced(trace[n], steps[n]);
      }
    }
    if forall n :: 0 <= n < |steps| ==> !Stray(trace[n], steps[n]) {
      forall n | 0 <= n < |trace| ensures MaskEnforced(trace[n].p) { EnforcedUpTo(trace, steps, n); }
    }
  }

  lemma {:induction false} EnforcedUpTo(trace: seq<State>, steps: seq<Step>, n: nat)
    requires Run(trace, steps) && n < |trace|
    requires forall m :: 0 <= m < n ==> !Stray(trace[m], steps[m])
    ensures MaskEnforced(trace[n].p)
  {
    if n == 0 {
    } else {
      EnforcedUpTo(trace, steps, n - 1);
      RunInv(trace, steps, n - 1);
      assert Follows(trace, steps, n - 1);
      StepEnforced(trace[n - 1], steps[n - 1]);
    }
  }

  /** The warning of migrate_enable(): back on cpus_mask, on a CPU outside it, and nothing pending. */
  predicate EnableWarns(s: State)
  {
    Enabled(s, EnableBegin) && s.p.pin.Some? && s.p.cpu !in s.p.mask && s.p.pending.None?
  }

  /** Without a stray completion earlier in the run that warning is unreachable. */
  lemma EnableQuiet(trace: seq<State>, steps: seq<Step>, n: nat)
    requires Run(trace, steps) && n < |trace|
    requires forall m :: 0 <= m < n ==> !Stray(trace[m], steps[m])
    ensures !EnableWarns(trace[n])
  {
    EnforcedUpTo(trace, steps, n);
  }

  function StrayTrace(): seq<State>
  {
    var p := Task(Running, 0, {0, 1}, None, 0, None, NoTail);
    var q := Request(1, true, false, 1, NotQueued);
    var s0 := State(p, [Out, Out], [Blank, Blank]);
    var s1 := State(p.(mask := {1}, pending := Some(0)), [Queueing(0, 0), Out], [q, Blank]);
    var s2 := s1.(p := s1.p.(run := Blocked));
    var s3 := s2.(p := s2.p.(run := Queued, cpu := 1));
    var s4 := s3.(p := s3.p.(run := Running));
    var s5 := State(s4.p, [Waiting(0), Out], [q.(work := OnStopper(0)), Blank]);
    var s6 := s5.(p := s5.p.(disabled := 1));
    var q7 := q.(refs := 2, dest := 2, work := OnStopper(0));
    var s7 := State(s6.p.(mask := {2}), [Waiting(0), Waiting(0)], [q7, Blank]);
    var s8 := s7.(p := s7.p.(run := Queued, pin := Some(1)));
    var s9 := s8.(p := s8.p.(pending := None), reqs := [q7.(stopPending := false, work := StopSignal), Blank]);
    var q10 := q7.(stopPending := false, done := true, work := NotQueued);
    var s10 := s9.(reqs := [q10, Blank]);
    var s11 := s10.(pcs := [Waiting(0), Draining], reqs := [q10.(refs := 1), Blank]);
    var s12 := s11.(pcs := [Waiting(0), Out]);
    var s13 := s12.(p := s12.p.(run := Running));
    [s0, s1, s2, s3, s4, s5, s6, s7, s8, s9, s10, s11, s12, s13]
  }

  function StraySteps(): seq<Step>
  {
    [SetAffinity(0, {1}, 1), SwitchOut(true), Wake(1), SwitchIn, QueueStopper(0), Disable,
     SetAffinity(1, {2}, 2), SwitchOut(false), Stop(0), StopComplete(0), DropRef(1), Return(1), SwitchIn]
  }

  lemma StrayInstalls()
    ensures Follows(StrayTrace(), StraySteps(), 0) && Follows(StrayTrace(), StraySteps(), 1)
    ensures Follows(StrayTrace(), StraySteps(), 2)
  {
    assert 0 in {0, 1} && 0 !in {1};
  }

  lemma StrayDisables()
    ensures Follows(StrayTrace(), StraySteps(), 3) && Follows(StrayTrace(), StraySteps(), 4)
    ensures Follows(StrayTrace(), StraySteps(), 5)
  {
  }

  lemma StrayCompletes()
    ensures Follows(StrayTrace(), StraySteps(), 6) && Follows(StrayTrace(), StraySteps(), 7)
    ensures Follows(StrayTrace(), StraySteps(), 8) && Stray(StrayTrace()[8], StraySteps()[8])
  {
    assert 1 in {1} && 1 !in {2};
  }

  lemma StrayReturns()
    ensures Follows(StrayTrace(), StraySteps(), 9) && Follows(StrayTrace(), StraySteps(), 10)
    ensures Follows(StrayTrace(), StraySteps(), 11) && Follows(StrayTrace(), StraySteps(), 12)
  {
  }

  /** With one it is reachable: the second caller has returned, the task still runs outside the mask it asked for. */
  lemma StrayRun()
    ensures Run(StrayTrace(), StraySteps()) && Stray(StrayTrace()[8], StraySteps()[8])
    ensures StrayTrace()[13].pcs == [Waiting(0), Out] && EnableWarns(StrayTrace()[13])
  {
    StrayInstalls();
    StrayDisables();
    StrayCompletes();
    StrayReturns();
    forall n | 0 <= n < 13 ensures Follows(StrayTrace(), StraySteps(), n) {
      assert n in {0, 1, 2, 3, 4, 5, 6, 7, 8, 9, 10, 11, 12};
    }
  }
}
