/**
 Which sibling wins the core-wide pick: prio_less() and the wrapping loop that
 keeps the largest class pick. On two deadline tasks prio_less() is not strict,
 so there the last of equals wins and not the first.
 */
module CorePrio {
  import opened Common
  import opened CorePick

  datatype Class = Stop | Deadline | RealTime | Fair | IdleClass

  datatype Entity = Entity(cls: Class, prio: int, deadline: int)

  /** What prio_less() looks at; the order of fair tasks is left open. */
  datatype Prios = Prios(of: Who -> Entity, fair: (Who, Who) -> bool)

  const STOP_PRIO := -2
  const DL_PRIO := -1
  const FAIR_PRIO := 119
  const IDLE_PRIO := 140

  /** __task_prio(): less is more. */
  function TaskPrio(e: Prios, w: Who): int
  {
    var t := e.of(w);
    if t.cls == Stop then STOP_PRIO
    else if t.prio < 100 then t.prio
    else if t.cls == IdleClass then IDLE_PRIO
    else FAIR_PRIO
  }

  predicate PrioLess(e: Prios, a: Who, b: Who)
  {
    var pa, pb := TaskPrio(e, a), TaskPrio(e, b);
    if -pa < -pb then true
    else if -pb < -pa then false
    else if pa == DL_PRIO then !(e.of(a).deadline < e.of(b).deadline)
    else if pa == FAIR_PRIO then e.fair(a, b)
    else false
  }

  ghost predicate FairOrdered(e: Prios)
  {
    && (forall a :: !e.fair(a, a))
    && forall a, b, c :: e.fair(a, b) && e.fair(b, c) ==> e.fair(a, c)
  }

  /** b has to run before a: a higher rank, an earlier deadline, or first among fair tasks. */
  predicate Better(e: Prios, b: Who, a: Who)
  {
    || TaskPrio(e, b) < TaskPrio(e, a)
    || (TaskPrio(e, b) == TaskPrio(e, a) == DL_PRIO && e.of(b).deadline < e.of(a).deadline)
    || (TaskPrio(e, b) == TaskPrio(e, a) == FAIR_PRIO && e.fair(a, b))
  }

  predicate DeadlineTie(e: Prios, a: Who, b: Who)
  {
    TaskPrio(e, a) == TaskPrio(e, b) == DL_PRIO && e.of(a).deadline == e.of(b).deadline
  }

  /** prio_less() is the strict order and, on top of it, true of two deadline tasks with the same deadline. */
  lemma LessIff(e: Prios, a: Who, b: Who)
    ensures PrioLess(e, a, b) <==> Better(e, b, a) || DeadlineTie(e, a, b)
  {
  }

  /** So it is a strict order exactly where no deadline task is about. */
  lemma StrictIff(e: Prios)
    requires FairOrdered(e)
    ensures (forall a :: !PrioLess(e, a, a)) <==> forall a :: TaskPrio(e, a) != DL_PRIO
  {
    forall a ensures PrioLess(e, a, a) <==> TaskPrio(e, a) == DL_PRIO { LessIff(e, a, a); }
  }

  /** A pick keeps ahead of another one that the loop meets later. */
  predicate Holds(e: Prios, mine: Who, other: Who) { !Better(e, other, mine) && !DeadlineTie(e, mine, other) }

  // ---- the loop ----

  predicate OnCore(r: Rq) { r.status == Online || r.status == Leaving }

  /** for_each_cpu_wrap() starting at i visits j in this round. */
  function Round(n: nat, i: Cpu, j: Cpu): int { if j >= i then j - i else j - i + n }

  /** The sibling it visits in round k. */
  function Turn(n: nat, i: Cpu, k: nat): (j: Cpu)
    requires i < n && k < n
    ensures j < n && Round(n, i, j) == k
  {
    if i + k < n then i + k else i + k - n
  }

  /** The largest class pick of the first k rounds. */
  function Winner(rqs: seq<Rq>, e: Prios, i: Cpu, picks: seq<Who>, k: nat): (w: Cpu)
    requires i < |rqs| == |picks| && k <= |picks|
    ensures w < |picks| && (w == i || (OnCore(rqs[w]) && Round(|picks|, i, w) < k))
  {
    if k == 0 then i
    else
      var w, j := Winner(rqs, e, i, picks, k - 1), Turn(|picks|, i, k - 1);
      if OnCore(rqs[j]) && PrioLess(e, picks[w], picks[j]) then j else w
  }

  /** A sibling visited in the first k rounds. */
  predicate Seen(rqs: seq<Rq>, i: Cpu, k: nat, j: Cpu) { j < |rqs| && OnCore(rqs[j]) && Round(|rqs|, i, j) < k }

  lemma BetterTrans(e: Prios, a: Who, b: Who, c: Who)
    requires FairOrdered(e) && PrioLess(e, a, b) && Better(e, c, b)
    ensures Better(e, c, a)
  {
  }

  /** No sibling seen so far has anything better than the winner. */
  lemma {:induction false} WinnerBest(rqs: seq<Rq>, e: Prios, i: Cpu, picks: seq<Who>, k: nat, j: Cpu)
    requires FairOrdered(e) && i < |rqs| == |picks| && k <= |picks| && Seen(rqs, i, k, j)
    ensures !Better(e, picks[j], picks[Winner(rqs, e, i, picks, k)])
  {
    var w, next := Winner(rqs, e, i, picks, k - 1), Turn(|picks|, i, k - 1);
    LessIff(e, picks[w], picks[next]);
    if j == next {
    } else {
      WinnerBest(rqs, e, i, picks, k - 1, j);
      if Better(e, picks[j], picks[next]) && PrioLess(e, picks[w], picks[next]) {
        BetterTrans(e, picks[w], picks[next], picks[j]);
      }
    }
  }

  /** The current CPU wins exactly if nothing is better than its pick and no other sibling has a task of the same
      deadline. */
  lemma {:induction false} CurrentWinsIff(rqs: seq<Rq>, e: Prios, i: Cpu, picks: seq<Who>, k: nat)
    requires i < |rqs| == |picks| && k <= |picks|
    ensures Winner(rqs, e, i, picks, k) == i <==>
      forall j: Cpu :: j != i && Seen(rqs, i, k, j) ==> Holds(e, picks[i], picks[j])
  {
    if k == 0 {
    } else {
      CurrentWinsIff(rqs, e, i, picks, k - 1);
      var next := Turn(|picks|, i, k - 1);
      LessIff(e, picks[i], picks[next]);
      assert OnCore(rqs[next]) ==> Seen(rqs, i, k, next);
      forall j: Cpu | Seen(rqs, i, k - 1, j) ensures Seen(rqs, i, k, j) {}
    }
  }

  /** Ties: of equal deadlines the last sibling in wrap order wins; of equals in real time, stop or idle the first. */
  lemma {:induction false} WinnerTies(rqs: seq<Rq>, e: Prios, i: Cpu, picks: seq<Who>, k: nat, j: Cpu)
    requires FairOrdered(e) && i < |rqs| == |picks| && OnCore(rqs[i]) && k <= |picks| && Seen(rqs, i, k, j)
    ensures
      var w, n := Winner(rqs, e, i, picks, k), |picks|;
      && (DeadlineTie(e, picks[w], picks[j]) ==> Round(n, i, j) <= Round(n, i, w))
      && (TaskPrio(e, picks[w]) == TaskPrio(e, picks[j]) && TaskPrio(e, picks[j]) !in {DL_PRIO, FAIR_PRIO} ==>
            Round(n, i, w) <= Round(n, i, j))
  {
    var w, next := Winner(rqs, e, i, picks, k - 1), Turn(|picks|, i, k - 1);
    if j == next {
    } else {
      WinnerTies(rqs, e, i, picks, k - 1, j);
      WinnerBest(rqs, e, i, picks, k - 1, j);
    }
  }

  /** Two siblings with tasks of one deadline: the other one wins, against the comment's tie-break. */
  lemma DeadlineTieLost()
    ensures
      var e := Prios(_ => Entity(Deadline, DL_PRIO, 7), (a, b) => false);
      var on := Rq(Online, 0, Idle, None, 0, {0}, {}, false, 0, 0, 0, 0);
      FairOrdered(e) && PrioLess(e, Thread(0), Thread(0))
        && Winner([on, on.(queue := {1})], e, 0, [Thread(0), Thread(1)], 2) == 1
  {
    var e := Prios(_ => Entity(Deadline, DL_PRIO, 7), (a, b) => false);
    var on := Rq(Online, 0, Idle, None, 0, {0}, {}, false, 0, 0, 0, 0);
    assert Winner([on, on.(queue := {1})], e, 0, [Thread(0), Thread(1)], 1) == 0;
  }
}
