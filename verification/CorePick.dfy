/**
 Core scheduling on one core with any number of SMT siblings: the core-wide
 pick with its sequence-number cache, queue changes in between, and the leader
 handover when siblings come and go.

 All steps run under the core-wide lock. The state shared by the core lives in
 the runqueue of its leader; every other runqueue's copy is stale. Cookie 0
 means "no cookie". What the scheduling classes pick is left open.
 */
module CorePick {
  import opened Common

  type Cpu = nat
  type TaskId = nat

  datatype Who = Idle | Thread(t: TaskId)

  datatype Status =
    | Offline
    | Online
    | Leaving   // past sched_core_cpu_deactivate(), still in the sibling mask
    | Dying     // past sched_core_cpu_dying(), its stopper has yet to switch to idle

  datatype Rq = Rq(
    status: Status,
    core: Cpu,
    curr: Who,
    pick: Option<Who>,
    schedSeq: nat,
    queue: set<TaskId>,
    tree: set<TaskId>,      // core_tree: what sched_core_find() searches
    resched: bool,
    // meaningful in the leader only:
    taskSeq: nat,
    pickSeq: nat,
    cookie: nat,
    forced: nat)

  datatype State = State(rqs: seq<Rq>, cookies: seq<nat>)

  datatype Step =
    | Enqueue(i: Cpu, t: TaskId)
    | Dequeue(i: Cpu, t: TaskId)
    | Requeue(i: Cpu, t: TaskId)      // dequeue and enqueue around a parameter change
    | Resched(i: Cpu)
    | PickCached(i: Cpu)
    | PickAlone(i: Cpu, next: Who)    // no cookies around: only this CPU picks
    | PickCore(i: Cpu, picks: seq<Who>, found: seq<Who>, max: Cpu)
    | Starting(i: Cpu)
    | Deactivate(i: Cpu, heir: Cpu)
    | Activate(i: Cpu)                // a failed unplug is rolled back
    | DyingStep(i: Cpu)
    | OfflinePick(i: Cpu)

  /** In the sibling mask, and its leader pointer is in range. */
  predicate InMask(s: State, i: Cpu) { i < |s.rqs| && (s.rqs[i].status == Online || s.rqs[i].status == Leaving) }

  predicate Member(s: State, i: Cpu) { InMask(s, i) && s.rqs[i].core < |s.rqs| }

  function Leader(s: State, i: Cpu): Rq
    requires Member(s, i)
  {
    s.rqs[s.rqs[i].core]
  }

  function CookieOf(s: State, w: Who): nat
  {
    if w.Thread? && w.t < |s.cookies| then s.cookies[w.t] else 0
  }

  predicate CookieEquals(s: State, w: Who, cookie: nat) { w == Idle || CookieOf(s, w) == cookie }

  predicate CookieMatch(s: State, v: Who, w: Who) { v == Idle || w == Idle || CookieOf(s, v) == CookieOf(s, w) }

  /** What a class may pick on runqueue j: a queued task, or the idle task. */
  predicate Pickable(s: State, j: Cpu, w: Who)
    requires j < |s.rqs|
  {
    w == Idle || (w.t in s.rqs[j].queue && w.t < |s.cookies|)
  }

  /** The queued tasks that have a cookie. */
  function Cookied(s: State, q: set<TaskId>): set<TaskId> { set t | t in q && t < |s.cookies| && s.cookies[t] != 0 }

  /** sched_core_find(): some task of the tree with this cookie, the idle task only if there is none. */
  predicate Finds(s: State, j: Cpu, cookie: nat, w: Who)
    requires j < |s.rqs|
  {
    if w == Idle then forall t :: t in s.rqs[j].tree ==> CookieOf(s, Thread(t)) != cookie
    else w.t in s.rqs[j].tree && CookieOf(s, w) == cookie
  }

  /** The guard of the cached pick. */
  predicate CacheHit(s: State, i: Cpu)
  {
    && Member(s, i)
    && Leader(s, i).pickSeq == Leader(s, i).taskSeq && Leader(s, i).pickSeq != s.rqs[i].schedSeq && s.rqs[i].pick.Some?
  }

  /** need_sync: a cookie is in force, or somebody is forced idle. */
  predicate NeedSync(s: State, i: Cpu)
    requires Member(s, i)
  {
    Leader(s, i).cookie != 0 || Leader(s, i).forced > 0
  }

  /** Plugging and unplugging are serialized: no other CPU is on its way out. */
  predicate NoUnplug(s: State)
  {
    forall j :: 0 <= j < |s.rqs| ==> s.rqs[j].status == Online || s.rqs[j].status == Offline
  }

  predicate Enabled(s: State, a: Step)
  {
    match a
    case Enqueue(i, t) => Member(s, i) && t < |s.cookies| && t !in s.rqs[i].queue
    case Dequeue(i, t) => Member(s, i) && t in s.rqs[i].queue
    case Requeue(i, t) => Member(s, i) && t in s.rqs[i].queue
    case Resched(i) => Member(s, i)
    case PickCached(i) => CacheHit(s, i)
    case PickAlone(i, next) => Member(s, i) && !NeedSync(s, i) && Pickable(s, i, next) && CookieOf(s, next) == 0
    case PickCore(i, picks, found, max) =>
      && Member(s, i) && |picks| == |found| == |s.rqs| && InMask(s, max)
      && (!NeedSync(s, i) ==> CookieOf(s, picks[i]) != 0)
      && (forall j :: 0 <= j < |s.rqs| && InMask(s, j) ==>
            Pickable(s, j, picks[j]) && Finds(s, j, CookieOf(s, picks[max]), found[j]))
    case Starting(i) => i < |s.rqs| && s.rqs[i].status == Offline && NoUnplug(s)
    case Deactivate(i, heir) =>
      && Member(s, i) && s.rqs[i].status == Online && NoUnplug(s)
      && InMask(s, heir) && (heir == i ==> forall j :: 0 <= j < |s.rqs| && InMask(s, j) ==> j == i)
    case Activate(i) => i < |s.rqs| && s.rqs[i].status == Leaving
    case DyingStep(i) => i < |s.rqs| && s.rqs[i].status == Leaving
    case OfflinePick(i) => i < |s.rqs| && s.rqs[i].status == Dying && s.rqs[i].queue == {}
  }

  function Put(s: State, i: Cpu, r: Rq): State
    requires i < |s.rqs|
  {
    s.(rqs := s.rqs[i := r])
  }

  function Bump(s: State, l: Cpu, n: nat): State
    requires l < |s.rqs|
  {
    Put(s, l, s.rqs[l].(taskSeq := s.rqs[l].taskSeq + n))
  }

  /** The second loop of the pick: keep the class pick if it matches the core's cookie, else find one, else idle. */
  function Final(s: State, j: Cpu, picks: seq<Who>, found: seq<Who>, cookie: nat): Who
    requires j < |picks| == |found|
  {
    if CookieEquals(s, picks[j], cookie) then picks[j] else if cookie != 0 then found[j] else Idle
  }

  function ForcedIdle(s: State, picks: seq<Who>, found: seq<Who>, cookie: nat): set<Cpu>
    requires |picks| == |found| == |s.rqs|
  {
    set j | 0 <= j < |s.rqs| && InMask(s, j) && s.rqs[j].queue != {} && Final(s, j, picks, found, cookie) == Idle
  }

  /** The third loop: runqueue j after a core-wide pick on CPU i. */
  function Resettled(s: State, i: Cpu, j: Cpu, w: Who, pickSeq: nat): Rq
    requires j < |s.rqs|
  {
    var r := s.rqs[j];
    if !InMask(s, j) then r
    else if j == i then r.(curr := w, pick := None, schedSeq := pickSeq, resched := false)
    else if r.curr == w then r.(pick := None)
    else r.(pick := Some(w), resched := true)
  }

  function CorePicked(s: State, i: Cpu, picks: seq<Who>, found: seq<Who>, max: Cpu): State
    requires Member(s, i) && |picks| == |found| == |s.rqs| && max < |s.rqs|
  {
    var l := s.rqs[i].core;
    var n := s.rqs[l].taskSeq + 1;
    var cookie := CookieOf(s, picks[max]);
    var rqs := seq(|s.rqs|, j requires 0 <= j < |s.rqs| => Resettled(s, i, j, Final(s, j, picks, found, cookie), n));
    s.(rqs := rqs[l := rqs[l].(taskSeq := n, pickSeq := n, cookie := cookie,
                               forced := |ForcedIdle(s, picks, found, cookie)|)])
  }

  /** sched_core_cpu_starting(): follow the sibling that leads itself, or lead. */
  function Started(s: State, i: Cpu): State
    requires i < |s.rqs|
  {
    var r := s.rqs[i].(status := Online);
    if exists j :: 0 <= j < |s.rqs| && InMask(s, j) && s.rqs[j].core == j then
      Put(s, i, r.(core := LeaderAmong(s)))
    else Put(s, i, r)
  }

  ghost predicate Leads(s: State, j: Cpu) { InMask(s, j) && s.rqs[j].core == j }

  /** The first sibling, in mask order, that is its own leader. */
  function LeaderAmong(s: State): (j: Cpu)
    requires exists j :: 0 <= j < |s.rqs| && InMask(s, j) && s.rqs[j].core == j
    ensures Leads(s, j)
  {
    LeaderFrom(s, 0)
  }

  function LeaderFrom(s: State, n: nat): (j: Cpu)
    requires exists j :: n <= j < |s.rqs| && InMask(s, j) && s.rqs[j].core == j
    ensures Leads(s, j)
    decreases |s.rqs| - n
  {
    if InMask(s, n) && s.rqs[n].core == n then n else LeaderFrom(s, n + 1)
  }

  /** sched_core_cpu_deactivate(): a leader hands its state to the heir and points every sibling there. */
  function HandedOver(s: State, i: Cpu, heir: Cpu): State
    requires i < |s.rqs| && heir < |s.rqs|
  {
    var was := s.rqs[i];
    var s1 := Put(s, i, was.(status := Leaving));
    if heir == i || was.core != i then s1
    else
      var rqs := seq(|s.rqs|, j requires 0 <= j < |s.rqs| =>
                       if InMask(s1, j) then s1.rqs[j].(core := heir) else s1.rqs[j]);
      s.(rqs := rqs[heir := rqs[heir].(taskSeq := was.taskSeq, pickSeq := was.pickSeq, cookie := was.cookie,
                                       forced := was.forced)])
  }

  function Apply(s: State, a: Step): State
    requires Enabled(s, a)
  {
    match a
    case Enqueue(i, t) =>
      var r := s.rqs[i];
      Bump(Put(s, i, r.(queue := r.queue + {t}, tree := if s.cookies[t] == 0 then r.tree else r.tree + {t})), r.core, 1)
    case Dequeue(i, t) =>
      var r := s.rqs[i];
      Bump(Put(s, i, r.(queue := r.queue - {t}, tree := r.tree - {t},
                        resched := r.resched || (r.queue == {t} && Leader(s, i).forced > 0 && r.curr == Idle))),
           r.core, 1)
    case Requeue(i, t) => Bump(s, s.rqs[i].core, 2)
    case Resched(i) => Put(s, i, s.rqs[i].(resched := true))
    case PickCached(i) =>
      var r := s.rqs[i];
      Put(s, i, r.(schedSeq := Leader(s, i).pickSeq, curr := r.pick.value, pick := None, resched := false))
    case PickAlone(i, next) =>
      var s1 := Put(s, i, s.rqs[i].(curr := next, pick := None, resched := false));
      var l := s.rqs[i].core;
      Put(s1, l, s1.rqs[l].(taskSeq := s.rqs[l].taskSeq + 1, cookie := 0, forced := 0))
    case PickCore(i, picks, found, max) => CorePicked(s, i, picks, found, max)
    case Starting(i) => Started(s, i)
    case Deactivate(i, heir) => HandedOver(s, i, heir)
    case Activate(i) => Put(s, i, s.rqs[i].(status := Online))
    case DyingStep(i) => Put(s, i, s.rqs[i].(status := Dying, core := i))
    case OfflinePick(i) => Put(s, i, s.rqs[i].(status := Offline, curr := Idle, pick := None))
  }

  ghost predicate Init(s: State)
  {
    forall i :: 0 <= i < |s.rqs| ==>
      var r := s.rqs[i];
      && r.status == Offline && r.core == i && r.curr == Idle && r.pick.None?
      && r.pickSeq == r.taskSeq == r.schedSeq == 0
      && r.tree == Cookied(s, r.queue)
  }

  // ---------------------------------------------------------------- invariant

  /** l leads itself and the whole mask; on its way out it leads nobody else. */
  ghost predicate LedBy(s: State, l: Cpu)
  {
    && InMask(s, l)
    && (forall j :: 0 <= j < |s.rqs| && InMask(s, j) ==> s.rqs[j].core == l)
    && (s.rqs[l].status == Leaving ==> forall j :: 0 <= j < |s.rqs| && InMask(s, j) ==> j == l)
  }

  ghost predicate Led(s: State)
  {
    && (forall i :: 0 <= i < |s.rqs| && !InMask(s, i) ==> s.rqs[i].core == i)
    && (forall i :: 0 <= i < |s.rqs| && InMask(s, i) ==> LedBy(s, s.rqs[i].core))
  }

  ghost predicate RqOk(s: State, i: Cpu)
    requires i < |s.rqs|
  {
    var r := s.rqs[i];
    && r.pickSeq <= r.taskSeq
    && (r.status == Offline ==> r.curr == Idle && r.pick.None?)
    && (Member(s, i) ==> Safe(s, i) && Cached(s, i))
  }

  /** The sibling runs idle or a task of the core's cookie, or it is about to reschedule. */
  predicate Safe(s: State, i: Cpu)
    requires Member(s, i)
  {
    s.rqs[i].resched || CookieEquals(s, s.rqs[i].curr, Leader(s, i).cookie)
  }

  /** A pick whose sequence number is current is idle, or still queued here with the core's cookie. */
  predicate Cached(s: State, i: Cpu)
    requires Member(s, i)
  {
    Leader(s, i).pickSeq == Leader(s, i).taskSeq && s.rqs[i].pick.Some? ==>
      Pickable(s, i, s.rqs[i].pick.value) && CookieEquals(s, s.rqs[i].pick.value, Leader(s, i).cookie)
  }

  ghost predicate Inv(s: State)
  {
    Led(s) && (forall i :: 0 <= i < |s.rqs| ==> RqOk(s, i)) && forall i :: 0 <= i < |s.rqs| ==> TreeOk(s, i)
  }

  /** The tree of a runqueue holds exactly its queued tasks with a cookie. */
  predicate TreeOk(s: State, i: Cpu)
    requires i < |s.rqs|
  {
    s.rqs[i].tree == Cookied(s, s.rqs[i].queue)
  }

  // -------------------------------------------------------- step preservation

  /** Steps that neither plug nor unplug leave the leader alone. */
  lemma LedFrame(s: State, s': State)
    requires Led(s) && |s'.rqs| == |s.rqs|
    requires forall j :: 0 <= j < |s.rqs| ==> s'.rqs[j].status == s.rqs[j].status && s'.rqs[j].core == s.rqs[j].core
    ensures Led(s')
  {
    assert forall j :: 0 <= j < |s.rqs| ==> InMask(s', j) == InMask(s, j);
    forall i | 0 <= i < |s'.rqs| && InMask(s', i) ensures LedBy(s', s'.rqs[i].core) { assert LedBy(s, s.rqs[i].core); }
  }

  /** Enqueue and Dequeue keep the tree; everything else leaves queue and tree alone. */
  lemma StepTree(s: State, a: Step, j: Cpu)
    requires Enabled(s, a) && j < |s.rqs| && TreeOk(s, j)
    ensures j < |Apply(s, a).rqs| && TreeOk(Apply(s, a), j)
  {
    if a.Enqueue? || a.Dequeue? { QueueTree(s, a, j); }
    else if a.PickCore? { CorePickedAt(s, a.i, a.picks, a.found, a.max, j); }
    else if a.Deactivate? { HandoverAt(s, a.i, a.heir, j); }
  }

  lemma QueueTree(s: State, a: Step, j: Cpu)
    requires Enabled(s, a) && (a.Enqueue? || a.Dequeue?) && j < |s.rqs| && TreeOk(s, j)
    ensures j < |Apply(s, a).rqs| && TreeOk(Apply(s, a), j)
  {
    var r := Apply(s, a).rqs[j];
    if j == a.i {
      forall t ensures t in r.tree <==> t in Cookied(s, r.queue) {}
    }
  }

  lemma AllTrees(s: State, a: Step)
    requires Inv(s) && Enabled(s, a)
    ensures |Apply(s, a).rqs| == |s.rqs| && forall j :: 0 <= j < |s.rqs| ==> TreeOk(Apply(s, a), j)
  {
    forall j | 0 <= j < |s.rqs| ensures j < |Apply(s, a).rqs| && TreeOk(Apply(s, a), j) { StepTree(s, a, j); }
    StepLength(s, a);
  }

  lemma StepLength(s: State, a: Step)
    requires Enabled(s, a)
    ensures |Apply(s, a).rqs| == |s.rqs|
  {
    match a
    case Enqueue(i, t) =>
    case Dequeue(i, t) =>
    case Requeue(i, t) =>
    case Resched(i) =>
    case PickCached(i) =>
    case PickAlone(i, next) =>
    case PickCore(i, picks, found, max) =>
    case Starting(i) =>
    case Deactivate(i, heir) =>
    case Activate(i) =>
    case DyingStep(i) =>
    case OfflinePick(i) =>
  }

  lemma EnqueueRqOk(s: State, a: Step, j: Cpu)
    requires Inv(s) && Enabled(s, a) && a.Enqueue? && j < |s.rqs|
    ensures RqOk(Apply(s, a), j)
  {
    assert LedBy(s, s.rqs[a.i].core) && RqOk(s, j) && RqOk(s, s.rqs[a.i].core);
  }

  lemma DequeueRqOk(s: State, a: Step, j: Cpu)
    requires Inv(s) && Enabled(s, a) && a.Dequeue? && j < |s.rqs|
    ensures RqOk(Apply(s, a), j)
  {
    assert LedBy(s, s.rqs[a.i].core) && RqOk(s, j) && RqOk(s, s.rqs[a.i].core);
  }

  lemma RequeueRqOk(s: State, a: Step, j: Cpu)
    requires Inv(s) && Enabled(s, a) && (a.Requeue? || a.Resched?) && j < |s.rqs|
    ensures RqOk(Apply(s, a), j)
  {
    assert LedBy(s, s.rqs[a.i].core) && RqOk(s, j) && RqOk(s, s.rqs[a.i].core);
  }

  lemma PickRqOk(s: State, a: Step, j: Cpu)
    requires Inv(s) && Enabled(s, a) && (a.PickCached? || a.PickAlone?) && j < |s.rqs|
    ensures RqOk(Apply(s, a), j)
  {
    var l := s.rqs[a.i].core;
    assert LedBy(s, l) && RqOk(s, j) && RqOk(s, l) && RqOk(s, a.i);
    match a
    case PickCached(i) =>
    case PickAlone(i, next) =>
  }

  /** Every sibling's final pick matches the cookie of the task that won. */
  lemma FinalMatches(s: State, i: Cpu, picks: seq<Who>, found: seq<Who>, max: Cpu, j: Cpu)
    requires Inv(s) && Enabled(s, PickCore(i, picks, found, max)) && InMask(s, j)
    ensures var w := Final(s, j, picks, found, CookieOf(s, picks[max]));
      Pickable(s, j, w) && CookieEquals(s, w, CookieOf(s, picks[max]))
  {
    assert TreeOk(s, j);
  }

  /** A class pick gives way to idle exactly if it does not match the winner's cookie and either no queued task does or
      the winner has none: the search goes through the tasks with a cookie only. */
  lemma IdleIff(s: State, i: Cpu, picks: seq<Who>, found: seq<Who>, max: Cpu, j: Cpu)
    requires Inv(s) && Enabled(s, PickCore(i, picks, found, max)) && InMask(s, j) && picks[j] != Idle
    ensures var cookie := CookieOf(s, picks[max]);
      Final(s, j, picks, found, cookie) == Idle <==>
        && CookieOf(s, picks[j]) != cookie
        && (cookie == 0 || forall t :: t in s.rqs[j].queue && t < |s.cookies| ==> s.cookies[t] != cookie)
  {
    assert TreeOk(s, j);
    forall t | t in s.rqs[j].queue && t < |s.cookies| ensures t in s.rqs[j].tree <==> s.cookies[t] != 0 {}
  }

  lemma CorePickedAt(s: State, i: Cpu, picks: seq<Who>, found: seq<Who>, max: Cpu, j: Cpu)
    requires Enabled(s, PickCore(i, picks, found, max)) && j < |s.rqs|
    ensures var s' := CorePicked(s, i, picks, found, max); var cookie := CookieOf(s, picks[max]);
      var r := Resettled(s, i, j, Final(s, j, picks, found, cookie), s.rqs[s.rqs[i].core].taskSeq + 1);
      && |s'.rqs| == |s.rqs| && s'.cookies == s.cookies
      && s'.rqs[j] == r.(taskSeq := s'.rqs[j].taskSeq, pickSeq := s'.rqs[j].pickSeq,
                         cookie := s'.rqs[j].cookie, forced := s'.rqs[j].forced)
      && (j != s.rqs[i].core ==> s'.rqs[j] == r)
      && (j == s.rqs[i].core ==>
            s'.rqs[j].taskSeq == s'.rqs[j].pickSeq == s.rqs[j].taskSeq + 1 && s'.rqs[j].cookie == cookie)
  {
  }

  lemma CoreRqOk(s: State, i: Cpu, picks: seq<Who>, found: seq<Who>, max: Cpu, j: Cpu)
    requires Inv(s) && Enabled(s, PickCore(i, picks, found, max)) && j < |s.rqs|
    ensures RqOk(CorePicked(s, i, picks, found, max), j)
  {
    var l := s.rqs[i].core;
    assert LedBy(s, l) && RqOk(s, j);
    CorePickedAt(s, i, picks, found, max, j);
    if InMask(s, j) {
      FinalMatches(s, i, picks, found, max, j);
      CorePickedAt(s, i, picks, found, max, l);
    }
  }

  lemma PickInv(s: State, a: Step)
    requires Inv(s) && Enabled(s, a) && a.PickCore?
    ensures Inv(Apply(s, a))
  {
    AllTrees(s, a);
    var s' := CorePicked(s, a.i, a.picks, a.found, a.max);
    forall j | 0 <= j < |s.rqs|
      ensures s'.rqs[j].status == s.rqs[j].status && s'.rqs[j].core == s.rqs[j].core && RqOk(s', j)
    {
      CorePickedAt(s, a.i, a.picks, a.found, a.max, j);
      CoreRqOk(s, a.i, a.picks, a.found, a.max, j);
    }
    LedFrame(s, s');
  }

  lemma LocalInv(s: State, a: Step)
    requires Inv(s) && Enabled(s, a)
    requires a.Enqueue? || a.Dequeue? || a.Requeue? || a.Resched? || a.PickCached? || a.PickAlone?
    ensures Inv(Apply(s, a))
  {
    AllTrees(s, a);
    var s' := Apply(s, a);
    LedFrame(s, s');
    forall j | 0 <= j < |s'.rqs| ensures RqOk(s', j) {
      match a
      case Enqueue(_, _) => EnqueueRqOk(s, a, j);
      case Dequeue(_, _) => DequeueRqOk(s, a, j);
      case PickCached(_) => PickRqOk(s, a, j);
      case PickAlone(_, _) => PickRqOk(s, a, j);
      case _ => RequeueRqOk(s, a, j);
    }
  }

  /** sched_core_cpu_starting() finds its leader: neither warning fires, and the newcomer follows it. */
  lemma StartingFollows(s: State, i: Cpu)
    requires Inv(s) && Enabled(s, Starting(i))
    ensures s.rqs[i].core == i
    ensures forall j :: 0 <= j < |s.rqs| && InMask(s, j) ==>
      Leads(s, s.rqs[j].core) && Started(s, i).rqs[i].core == s.rqs[j].core
    ensures (forall j :: 0 <= j < |s.rqs| ==> !InMask(s, j)) ==> Started(s, i).rqs[i].core == i
  {
    forall j | 0 <= j < |s.rqs| && InMask(s, j)
      ensures Leads(s, s.rqs[j].core) && Started(s, i).rqs[i].core == s.rqs[j].core
    {
      assert LedBy(s, s.rqs[j].core);
      assert Leads(s, LeaderAmong(s));
    }
  }

  lemma StartingInv(s: State, i: Cpu)
    requires Inv(s) && Enabled(s, Starting(i))
    ensures Inv(Started(s, i))
  {
    AllTrees(s, Starting(i));
    var s' := Started(s, i);
    var l := s'.rqs[i].core;
    StartingFollows(s, i);
    assert LedBy(s', l);
    forall j | 0 <= j < |s'.rqs| ensures RqOk(s', j) { assert RqOk(s, j) && RqOk(s, i); }
  }

  /** The new leader takes over the sequence numbers and the cookie, and the whole mask follows it. */
  lemma HandoverLed(s: State, i: Cpu, heir: Cpu)
    requires Inv(s) && Enabled(s, Deactivate(i, heir))
    ensures var s' := HandedOver(s, i, heir); var l := s'.rqs[i].core;
      && LedBy(s', l) && s'.rqs[l].taskSeq == s.rqs[s.rqs[i].core].taskSeq
      && s'.rqs[l].pickSeq == s.rqs[s.rqs[i].core].pickSeq
      && s'.rqs[l].cookie == s.rqs[s.rqs[i].core].cookie
      && (l == i ==> forall j :: 0 <= j < |s'.rqs| && InMask(s', j) ==> j == i)
  {
    assert LedBy(s, s.rqs[i].core);
  }

  lemma HandoverAt(s: State, i: Cpu, heir: Cpu, j: Cpu)
    requires i < |s.rqs| && heir < |s.rqs| && j < |s.rqs|
    ensures var r := HandedOver(s, i, heir).rqs[j]; var o := s.rqs[j];
      && r == o.(status := r.status, core := r.core, taskSeq := r.taskSeq, pickSeq := r.pickSeq, cookie := r.cookie,
                 forced := r.forced)
      && ((r.pickSeq == o.pickSeq && r.taskSeq == o.taskSeq)
           || (r.pickSeq == s.rqs[i].pickSeq && r.taskSeq == s.rqs[i].taskSeq))
      && r.status == (if j == i then Leaving else o.status)
      && (!InMask(s, j) && j != i ==> r.core == o.core)
  {
  }

  lemma HandoverInv(s: State, i: Cpu, heir: Cpu)
    requires Inv(s) && Enabled(s, Deactivate(i, heir))
    ensures Inv(HandedOver(s, i, heir))
  {
    AllTrees(s, Deactivate(i, heir));
    var s' := HandedOver(s, i, heir);
    assert LedBy(s, s.rqs[i].core);
    HandoverLed(s, i, heir);
    forall j | 0 <= j < |s'.rqs|
      ensures RqOk(s', j) && InMask(s', j) == InMask(s, j) && (!InMask(s', j) ==> s'.rqs[j].core == j)
    {
      assert RqOk(s, j) && RqOk(s, i);
      HandoverAt(s, i, heir, j);
    }
  }

  lemma UnplugRqOk(s: State, a: Step, j: Cpu)
    requires Inv(s) && Enabled(s, a) && (a.Activate? || a.DyingStep? || a.OfflinePick?) && j < |s.rqs|
    ensures RqOk(Apply(s, a), j)
  {
    assert RqOk(s, j);
    if InMask(s, j) { assert LedBy(s, s.rqs[j].core); }
  }

  lemma UnplugInv(s: State, a: Step)
    requires Inv(s) && Enabled(s, a) && (a.Activate? || a.DyingStep? || a.OfflinePick?)
    ensures Inv(Apply(s, a))
  {
    AllTrees(s, a);
    var s' := Apply(s, a);
    forall j | 0 <= j < |s'.rqs| ensures RqOk(s', j) { UnplugRqOk(s, a, j); }
    forall j | 0 <= j < |s'.rqs| && InMask(s', j) ensures LedBy(s', s'.rqs[j].core) {
      assert InMask(s, j) && LedBy(s, s.rqs[j].core);
      if a.DyingStep? { assert InMask(s, a.i); }
    }
  }

  lemma StepInv(s: State, a: Step)
    requires Inv(s) && Enabled(s, a)
    ensures Inv(Apply(s, a))
  {
    if a.PickCore? { PickInv(s, a); }
    else if a.Starting? { StartingInv(s, a.i); }
    else if a.Deactivate? { HandoverInv(s, a.i, a.heir); }
    else if a.Activate? || a.DyingStep? || a.OfflinePick? { UnplugInv(s, a); }
    else { LocalInv(s, a); }
  }

  // --------------------------------------------------------------- whole runs

  predicate Follows(trace: seq<State>, steps: seq<Step>, n: nat)
    requires n < |steps| && n + 1 < |trace|
  {
    Enabled(trace[n], steps[n]) && trace[n + 1] == Apply(trace[n], steps[n])
  }

  ghost predicate Run(trace: seq<State>, steps: seq<Step>)
  {
    |trace| == |steps| + 1 && Init(trace[0]) && forall n :: 0 <= n < |steps| ==> Follows(trace, steps, n)
  }

  lemma {:induction false} RunInv(trace: seq<State>, steps: seq<Step>, n: nat)
    requires Run(trace, steps) && n < |trace|
    ensures Inv(trace[n])
  {
    if n == 0 {
    } else {
      RunInv(trace, steps, n - 1);
      assert Follows(trace, steps, n - 1);
      StepInv(trace[n - 1], steps[n - 1]);
    }
  }

  /** Online siblings agree on one leader, which leads itself and is one of them. */
  ghost predicate OneLeader(s: State)
  {
    forall i, j :: 0 <= i < |s.rqs| && 0 <= j < |s.rqs| && InMask(s, i) && InMask(s, j) ==>
      s.rqs[i].core == s.rqs[j].core && Leads(s, s.rqs[i].core)
  }

  /** The warning about a mismatching cookie while siblings are kicked: no core-wide pick ever meets it. */
  ghost predicate PicksMatch(s: State)
  {
    forall i: Cpu, picks: seq<Who>, found: seq<Who>, max: Cpu :: Enabled(s, PickCore(i, picks, found, max)) ==>
      forall j :: 0 <= j < |s.rqs| && InMask(s, j) ==>
        var cookie := CookieOf(s, picks[max]);
        CookieMatch(s, Final(s, i, picks, found, cookie), Final(s, j, picks, found, cookie))
  }

  lemma InvPicksMatch(s: State)
    requires Inv(s)
    ensures PicksMatch(s)
  {
    forall i: Cpu, picks: seq<Who>, found: seq<Who>, max: Cpu | Enabled(s, PickCore(i, picks, found, max))
      ensures forall j :: 0 <= j < |s.rqs| && InMask(s, j) ==>
        var cookie := CookieOf(s, picks[max]);
        CookieMatch(s, Final(s, i, picks, found, cookie), Final(s, j, picks, found, cookie))
    {
      FinalMatches(s, i, picks, found, max, i);
      forall j | 0 <= j < |s.rqs| && InMask(s, j)
        ensures var cookie := CookieOf(s, picks[max]);
          CookieMatch(s, Final(s, i, picks, found, cookie), Final(s, j, picks, found, cookie))
      {
        FinalMatches(s, i, picks, found, max, j);
      }
    }
  }

  /** Over every run: one leader, every sibling safe, every cache hit sound. */
  lemma RunSafe(trace: seq<State>, steps: seq<Step>, n: nat)
    requires Run(trace, steps) && n < |trace|
    ensures OneLeader(trace[n]) && PicksMatch(trace[n])
    ensures forall i :: 0 <= i < |trace[n].rqs| && InMask(trace[n], i) ==> Member(trace[n], i) && Safe(trace[n], i)
    ensures forall i: Cpu :: CacheHit(trace[n], i) ==>
      var w := trace[n].rqs[i].pick.value;
      Pickable(trace[n], i, w) && CookieEquals(trace[n], w, Leader(trace[n], i).cookie)
  {
    RunInv(trace, steps, n);
    InvPicksMatch(trace[n]);
    forall i | 0 <= i < |trace[n].rqs| && InMask(trace[n], i)
      ensures LedBy(trace[n], trace[n].rqs[i].core) && RqOk(trace[n], i)
    {
    }
  }
}
