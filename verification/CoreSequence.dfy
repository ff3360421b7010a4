/**
 The task sequence of a core over whole runs: it guards the cached picks, lives
 in the leader's runqueue and moves with the leader. It falls exactly when an
 empty core is started again on a CPU with an older sequence.
 */
module CoreSequence {
  import opened Common
  import opened CorePick

  ghost predicate Populated(s: State) { exists i :: 0 <= i < |s.rqs| && Member(s, i) }

  /** No step lowers the task sequence seen through the leader while the core has a sibling. */
  lemma StepSeq(s: State, a: Step, i: Cpu, j: Cpu)
    requires Inv(s) && Enabled(s, a) && Member(s, i) && Member(Apply(s, a), j)
    ensures Leader(Apply(s, a), j).taskSeq >= Leader(s, i).taskSeq
  {
    StepInv(s, a);
    if a.PickCore? { PickSeq(s, a, i, j); }
    else if a.Starting? || a.Deactivate? || a.Activate? || a.DyingStep? || a.OfflinePick? { PlugSeq(s, a, i, j); }
    else { LocalSeq(s, a, i, j); }
  }

  lemma PickSeq(s: State, a: Step, i: Cpu, j: Cpu)
    requires Inv(s) && Enabled(s, a) && a.PickCore? && Inv(Apply(s, a)) && Member(s, i) && Member(Apply(s, a), j)
    ensures Leader(Apply(s, a), j).taskSeq >= Leader(s, i).taskSeq
  {
    var l := s.rqs[i].core;
    assert LedBy(s, l) && LedBy(Apply(s, a), Apply(s, a).rqs[j].core);
    CorePickedAt(s, a.i, a.picks, a.found, a.max, l);
    CorePickedAt(s, a.i, a.picks, a.found, a.max, j);
  }

  lemma PlugSeq(s: State, a: Step, i: Cpu, j: Cpu)
    requires Inv(s) && Enabled(s, a) && Inv(Apply(s, a)) && Member(s, i) && Member(Apply(s, a), j)
    requires a.Starting? || a.Deactivate? || a.Activate? || a.DyingStep? || a.OfflinePick?
    ensures Leader(Apply(s, a), j).taskSeq >= Leader(s, i).taskSeq
  {
    assert LedBy(s, s.rqs[i].core) && LedBy(Apply(s, a), Apply(s, a).rqs[j].core);
    if a.Starting? { StartingFollows(s, a.i); }
    if a.Deactivate? { HandoverLed(s, a.i, a.heir); }
  }

  lemma LocalSeq(s: State, a: Step, i: Cpu, j: Cpu)
    requires Inv(s) && Enabled(s, a) && Inv(Apply(s, a)) && Member(s, i) && Member(Apply(s, a), j)
    requires a.Enqueue? || a.Dequeue? || a.Requeue? || a.Resched? || a.PickCached? || a.PickAlone?
    ensures Leader(Apply(s, a), j).taskSeq >= Leader(s, i).taskSeq
  {
    assert LedBy(s, s.rqs[i].core);
    match a
    case Enqueue(_, _) =>
    case Dequeue(_, _) =>
    case Requeue(_, _) =>
    case Resched(_) =>
    case PickCached(_) =>
    case PickAlone(_, _) =>
  }

  lemma SameLeader(s: State, i: Cpu, j: Cpu)
    requires Inv(s) && Member(s, i) && Member(s, j)
    ensures s.rqs[i].core == s.rqs[j].core
  {
    assert LedBy(s, s.rqs[i].core);
  }

  /** The task sequence last seen through a leader, up to state n. */
  ghost function LastSeq(trace: seq<State>, n: nat): nat
    requires n < |trace|
  {
    if Populated(trace[n]) then
      var i :| 0 <= i < |trace[n].rqs| && Member(trace[n], i);
      Leader(trace[n], i).taskSeq
    else if n == 0 then 0
    else LastSeq(trace, n - 1)
  }

  lemma LastSeqSeen(trace: seq<State>, n: nat, j: Cpu)
    requires n < |trace| && Inv(trace[n]) && Member(trace[n], j)
    ensures LastSeq(trace, n) == Leader(trace[n], j).taskSeq
  {
    assert Populated(trace[n]);
    forall i: Cpu | Member(trace[n], i)
      ensures trace[n].rqs[i].core == trace[n].rqs[j].core
    {
      SameLeader(trace[n], i, j);
    }
  }

  lemma MaskMember(s: State, j: Cpu)
    requires Inv(s) && j < |s.rqs|
    ensures InMask(s, j) ==> Member(s, j)
  {
    if InMask(s, j) { assert LedBy(s, s.rqs[j].core); }
  }

  /** A sibling starts on an empty core. */
  predicate Restarts(s: State, a: Step) { a.Starting? && forall i :: 0 <= i < |s.rqs| ==> !Member(s, i) }

  /** On an empty core the first sibling leads, and the core goes on from whatever sequence that CPU has stored. */
  lemma RestartResumes(s: State, i: Cpu)
    requires Inv(s) && Enabled(s, Starting(i)) && Restarts(s, Starting(i))
    ensures Member(Started(s, i), i) && Leader(Started(s, i), i).taskSeq == s.rqs[i].taskSeq
  {
    forall j | 0 <= j < |s.rqs| ensures !InMask(s, j) { MaskMember(s, j); }
    StartingFollows(s, i);
  }

  /** An empty core is only ever left by a restart. */
  lemma EmptyStep(s: State, a: Step, j: Cpu)
    requires Inv(s) && Enabled(s, a) && !Populated(s) && Member(Apply(s, a), j)
    ensures Restarts(s, a) && j == a.i
  {
    StepLength(s, a);
    forall k | 0 <= k < |s.rqs| ensures !InMask(s, k) { MaskMember(s, k); }
  }

  /** The restart goes on from a lower sequence than the last leader had. */
  ghost predicate Regresses(trace: seq<State>, steps: seq<Step>, n: nat)
    requires n < |steps| && n < |trace|
  {
    Restarts(trace[n], steps[n]) && steps[n].i < |trace[n].rqs| && trace[n].rqs[steps[n].i].taskSeq < LastSeq(trace, n)
  }

  /** At any step of any run the task sequence falls if and only if the step restarts an empty core on an older CPU. */
  lemma SeqFallsIff(trace: seq<State>, steps: seq<Step>, n: nat)
    requires Run(trace, steps) && n < |steps|
    ensures LastSeq(trace, n + 1) < LastSeq(trace, n) <==> Regresses(trace, steps, n)
    ensures Restarts(trace[n], steps[n]) ==>
      steps[n].i < |trace[n].rqs| && LastSeq(trace, n + 1) == trace[n].rqs[steps[n].i].taskSeq
  {
    RunInv(trace, steps, n);
    RunInv(trace, steps, n + 1);
    assert Follows(trace, steps, n);
    var s, a := trace[n], steps[n];
    if Restarts(s, a) {
      RestartResumes(s, a.i);
      LastSeqSeen(trace, n + 1, a.i);
    } else if Populated(trace[n + 1]) {
      var j :| 0 <= j < |trace[n + 1].rqs| && Member(trace[n + 1], j);
      if Populated(s) {
        var i :| 0 <= i < |s.rqs| && Member(s, i);
        StepSeq(s, a, i, j);
        LastSeqSeen(trace, n, i);
        LastSeqSeen(trace, n + 1, j);
      } else {
        EmptyStep(s, a, j);
      }
    }
  }

  /** So over any stretch of a run without such a restart it never decreases, whoever leads. */
  lemma {:induction false} SeqMonotone(trace: seq<State>, steps: seq<Step>, m: nat, n: nat)
    requires Run(trace, steps) && m <= n < |trace| && forall k :: m <= k < n ==> !Regresses(trace, steps, k)
    ensures LastSeq(trace, n) >= LastSeq(trace, m)
    decreases n
  {
    if m == n {
    } else {
      SeqMonotone(trace, steps, m, n - 1);
      SeqFallsIff(trace, steps, n - 1);
    }
  }

  /** Two siblings: the first starts, queues and dequeues a task and goes away; the second starts at its own
      sequence. */
  function FallTrace(): seq<State>
  {
    var off := Rq(Offline, 0, Idle, None, 0, {}, {}, false, 0, 0, 0, 0);
    var peer := off.(core := 1);
    var on := off.(status := Online);
    [State([off, peer], [0]), State([on, peer], [0]), State([on.(queue := {0}, taskSeq := 1), peer], [0]),
     State([on.(taskSeq := 2), peer], [0]), State([on.(status := Leaving, taskSeq := 2), peer], [0]),
     State([on.(status := Dying, taskSeq := 2), peer], [0]), State([off.(taskSeq := 2), peer], [0]),
     State([off.(taskSeq := 2), peer.(status := Online)], [0])]
  }

  function FallSteps(): seq<Step>
  {
    [Starting(0), Enqueue(0, 0), Dequeue(0, 0), Deactivate(0, 0), DyingStep(0), OfflinePick(0), Starting(1)]
  }

  lemma FallUp()
    ensures Init(FallTrace()[0])
    ensures Follows(FallTrace(), FallSteps(), 0) && Follows(FallTrace(), FallSteps(), 1)
      && Follows(FallTrace(), FallSteps(), 2)
  {
    var none: set<TaskId> := {};
    assert Cookied(FallTrace()[0], none) == none;
    assert none + {0} == {0} && none - {0} == none && {0} - {0} == none;
    var s := FallTrace()[1];
    assert Apply(s, Enqueue(0, 0)).rqs == FallTrace()[2].rqs;
    assert Apply(FallTrace()[2], Dequeue(0, 0)).rqs == FallTrace()[3].rqs;
  }

  lemma FallDown()
    ensures Follows(FallTrace(), FallSteps(), 3) && Follows(FallTrace(), FallSteps(), 4)
    ensures Follows(FallTrace(), FallSteps(), 5) && Follows(FallTrace(), FallSteps(), 6)
  {
  }

  /** Its task sequence falls from 2 to 0. */
  lemma FallRun()
    ensures Run(FallTrace(), FallSteps())
    ensures LastSeq(FallTrace(), 6) == 2 && LastSeq(FallTrace(), 7) == 0 && Regresses(FallTrace(), FallSteps(), 6)
  {
    FallUp();
    FallDown();
    var t := FallTrace();
    forall n | 0 <= n < 7 ensures Follows(t, FallSteps(), n) { assert n in {0, 1, 2, 3, 4, 5, 6}; }
    RunInv(t, FallSteps(), 4);
    LastSeqSeen(t, 4, 0);
    assert LastSeq(t, 5) == LastSeq(t, 4) && LastSeq(t, 6) == LastSeq(t, 5);
    SeqFallsIff(t, FallSteps(), 6);
  }
}
