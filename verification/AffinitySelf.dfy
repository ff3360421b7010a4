/**
 A task that changes its own affinity: caller `me` is the task itself, so its
 steps are taken while the task runs and the task does nothing else meanwhile.
 The -EBUSY guard keeps it from waiting for a migrate_enable() of its own.
 */
module AffinitySelf {
  import opened Common
  import opened Affinity

  /** The guard: the task is current, pinned by migrate_disable() and asks for a mask without its CPU. */
  predicate Refused(p: Task, newMask: set<Cpu>)
  {
    newMask != p.mask && p.disabled > 0 && p.cpu !in newMask
  }

  /** The call is past its critical section and will wait, or drain its own frame. */
  predicate WillWait(pc: Pc) { pc.Queueing? || pc.Waiting? || pc == Draining || (pc.Signalling? && pc.wait) }

  /** A step of caller me is one of the task itself. */
  predicate Own(s: State, me: CallerId, a: Step)
  {
    match a
    case SetAffinity(i, newMask, _) => i == me ==> s.p.run == Running && s.p.tail == NoTail && !Refused(s.p, newMask)
    case QueueStopper(i) => i == me ==> s.p.run == Running
    case Complete(i) => i == me ==> s.p.run == Running
    case DropRef(i) => i == me ==> s.p.run == Running
    case Return(i) => i == me ==> s.p.run == Running
    case Disable => InRange(s, me) && s.pcs[me] == Out
    case EnableNested => InRange(s, me) && s.pcs[me] == Out
    case EnableBegin => InRange(s, me) && s.pcs[me] == Out
    case _ => true
  }

  ghost predicate SelfRun(trace: seq<State>, steps: seq<Step>, me: CallerId)
  {
    Run(trace, steps) && InRange(trace[0], me) && forall n :: 0 <= n < |steps| ==> Own(trace[n], me, steps[n])
  }

  /** Outside a migrate-disable region whenever its own call may wait, and never in the tail of migrate_enable(). */
  predicate Free(s: State, me: CallerId)
  {
    InRange(s, me) && (WillWait(s.pcs[me]) ==> s.p.disabled == 0)
  }

  /** The guard refuses exactly the calls that would have the task wait inside its own region. */
  lemma GuardExact(s: State, me: CallerId, newMask: set<Cpu>, dest: Cpu)
    requires Enabled(s, SetAffinity(me, newMask, dest)) && s.p.run == Running
    ensures
      var r := Apply(s, SetAffinity(me, newMask, dest));
      WillWait(r.pcs[me]) && r.p.disabled > 0 <==> Refused(s.p, newMask)
  {
  }

  lemma SelfSetFree(s: State, me: CallerId, newMask: set<Cpu>, dest: Cpu)
    requires Free(s, me) && Enabled(s, SetAffinity(me, newMask, dest)) && Own(s, me, SetAffinity(me, newMask, dest))
    ensures Free(Apply(s, SetAffinity(me, newMask, dest)), me)
  {
    GuardExact(s, me, newMask, dest);
  }

  lemma OtherSetFree(s: State, me: CallerId, i: CallerId, newMask: set<Cpu>, dest: Cpu)
    requires Free(s, me) && Enabled(s, SetAffinity(i, newMask, dest)) && i != me
    ensures Free(Apply(s, SetAffinity(i, newMask, dest)), me)
  {
  }

  lemma StepFree(s: State, me: CallerId, a: Step)
    requires Inv(s) && Free(s, me) && Enabled(s, a) && Own(s, me, a)
    ensures Free(Apply(s, a), me)
  {
    match a
    case SetAffinity(i, newMask, dest) =>
      if i == me {
        SelfSetFree(s, me, newMask, dest);
      } else {
        OtherSetFree(s, me, i, newMask, dest);
      }
    case _ =>
  }

  lemma {:induction false} RunFree(trace: seq<State>, steps: seq<Step>, me: CallerId, n: nat)
    requires SelfRun(trace, steps, me) && n < |trace|
    ensures Free(trace[n], me)
  {
    if n == 0 {
    } else {
      RunFree(trace, steps, me, n - 1);
      RunInv(trace, steps, n - 1);
      assert Follows(trace, steps, n - 1);
      StepFree(trace[n - 1], me, steps[n - 1]);
    }
  }

  /** At every point of every run a task waiting in its own call is signalled, about to be, or served by one stopper:
      it never depends on a migrate_enable() that only it could call. */
  lemma SelfServed(trace: seq<State>, steps: seq<Step>, me: CallerId, n: nat)
    requires SelfRun(trace, steps, me) && n < |trace|
    ensures InRange(trace[n], me)
    ensures trace[n].pcs[me].Waiting? ==>
      var s, r := trace[n], trace[n].pcs[me].r;
      && InRange(s, r)
      && (|| s.reqs[r].done
          || (s.p.pending != Some(r) && Signallers(s, r) == 1)
          || (s.p.pending == Some(r) && s.reqs[r].stopPending && Stoppers(s, r) == 1))
  {
    RunFree(trace, steps, me, n);
    RunInv(trace, steps, n);
    InvServed(trace[n], me);
  }

  /** Nor is it in a region of its own then, so the stopper that finds it on its CPU completes the request. */
  lemma SelfStopped(trace: seq<State>, steps: seq<Step>, me: CallerId, n: nat)
    requires SelfRun(trace, steps, me) && n < |steps| && InRange(trace[n], me) && WillWait(trace[n].pcs[me])
    requires steps[n].Stop? && InRange(trace[n], steps[n].r)
    requires trace[n].reqs[steps[n].r].work == OnStopper(trace[n].p.cpu)
    ensures trace[n + 1].p.pending.None? && InRange(trace[n + 1], steps[n].r)
    ensures trace[n + 1].reqs[steps[n].r].work == StopSignal
  {
    RunFree(trace, steps, me, n);
    assert Follows(trace, steps, n);
  }
}
