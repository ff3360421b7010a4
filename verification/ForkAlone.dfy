/**
 One call among the interleaved ones that no other step disturbs does what
 copy_process() on its own does: the fork its flags ask for, or nothing at all
 wherever it fails.
 */
module ForkAlone {
  import opened Common
  import opened Counting
  import opened Fork
  import opened ForkRace

  /** The steps of setting up a task, in order. */
  function SetUpStep(i: nat, cur: nat, args: Args, n: nat): Step
  {
    if n == 0 then Begin(i, cur, args)
    else if n == 1 then Charge(i)
    else if n == 2 then Take(i, FilesKind)
    else if n == 3 then Take(i, FsKind)
    else if n == 4 then Take(i, SighandKind)
    else if n == 5 then TakeSignal(i)
    else Take(i, MmKind)
  }

  ghost predicate Leads(s: State, a: Step, r: State) { Enabled(s, a) && r == Apply(s, a) }

  ghost predicate SetUpAt(t: seq<State>, i: nat, cur: nat, args: Args, n: nat)
    requires n + 1 < |t|
  {
    Leads(t[n], SetUpStep(i, cur, args, n), t[n + 1])
  }

  /** The set-up of a call that succeeds, with no other step in between. */
  ghost predicate SetUp(t: seq<State>, i: nat, cur: nat, args: Args)
  {
    |t| == 8 && forall n :: 0 <= n < 7 ==> SetUpAt(t, i, cur, args, n)
  }

  /** Only the call's own record and the counted objects moved, and of these no charge and no list node. */
  predicate Only(s: State, r: State, i: nat)
  {
    && i < |s.calls| == |r.calls| && s.calls[i].Busy? && r.calls[i].Busy?
    && r.k == s.k.(objs := r.k.objs) && r.calls[i].args == s.calls[i].args
    && SameStanding(r.calls[i].p, s.calls[i].p)
    && r.k.objs.nproc == s.k.objs.nproc && r.k.objs.multiprocess == s.k.objs.multiprocess
  }

  predicate SameStanding(p: Task, q: Task)
  {
    p.user == q.user && p.signal == q.signal && p.leader == q.leader && p.kthread == q.kthread
  }

  lemma TakeOnly(s: State, i: nat, taken: Kind)
    requires Enabled(s, Take(i, taken))
    ensures Only(s, Apply(s, Take(i, taken)), i) && Apply(s, Take(i, taken)).k.objs.signals == s.k.objs.signals
  {
    TakeRest(s, i, taken);
  }

  lemma TakePasses(s: State, i: nat, taken: Kind)
    requires Enabled(s, Take(i, taken)) && PoolOk(PoolOf(s.k.objs, taken))
    ensures var r, c := Apply(s, Take(i, taken)), s.calls[i];
      Passed(PoolOf(s.k.objs, taken), PoolOf(r.k.objs, taken), RefOf(c.p, taken), RefOf(r.calls[i].p, taken),
             Shares(c.args, taken))
  {
    var c, m := s.calls[i], PoolOf(s.k.objs, taken);
    CopiedFresh(m);
    RefWith(c.p, taken, m.next, taken);
    PoolWith(s.k.objs, taken, Copied(m), taken);
    if RefOf(c.p, taken).Some? { PoolWith(s.k.objs, taken, Shared(m, RefOf(c.p, taken).value), taken); }
  }

  lemma TakeLeaves(s: State, i: nat, taken: Kind, kind: Kind)
    requires Enabled(s, Take(i, taken)) && kind != taken
    ensures PoolOf(Apply(s, Take(i, taken)).k.objs, kind) == PoolOf(s.k.objs, kind)
    ensures RefOf(Apply(s, Take(i, taken)).calls[i].p, kind) == RefOf(s.calls[i].p, kind)
  {
    var c, m := s.calls[i], PoolOf(s.k.objs, taken);
    PoolWith(s.k.objs, taken, Copied(m), kind);
    RefWith(c.p, taken, m.next, kind);
    if RefOf(c.p, taken).Some? { PoolWith(s.k.objs, taken, Shared(m, RefOf(c.p, taken).value), kind); }
  }

  lemma {:induction false} SetUpInv(t: seq<State>, i: nat, cur: nat, args: Args, n: nat)
    requires SetUp(t, i, cur, args) && Inv(t[0]) && n <= 7
    ensures Inv(t[n])
  {
    if n == 0 {
    } else {
      SetUpInv(t, i, cur, args, n - 1);
      assert SetUpAt(t, i, cur, args, n - 1);
      StepInv(t[n - 1], SetUpStep(i, cur, args, n - 1));
    }
  }

  lemma SetUpPool(t: seq<State>, i: nat, cur: nat, args: Args, n: nat, kind: Kind)
    requires SetUp(t, i, cur, args) && Inv(t[0]) && n <= 7
    ensures PoolOk(PoolOf(t[n].k.objs, kind))
  {
    SetUpInv(t, i, cur, args, n);
  }

  lemma SignalOnly(s: State, i: nat)
    requires Enabled(s, TakeSignal(i))
    ensures var r := Apply(s, TakeSignal(i));
      Only(s, r, i) && r.k.objs.signals == s.k.objs.signals + One(CloneThread !in s.calls[i].args.flags)
  {
  }

  lemma OnlyAt(t: seq<State>, i: nat, cur: nat, args: Args, n: nat)
    requires SetUp(t, i, cur, args) && 2 <= n < 7
    ensures Only(t[n], t[n + 1], i)
    ensures t[n + 1].k.objs.signals == t[n].k.objs.signals + One(n == 5 && CloneThread !in t[n].calls[i].args.flags)
  {
    assert SetUpAt(t, i, cur, args, n);
    match SetUpStep(i, cur, args, n)
    case Take(_, taken) => TakeOnly(t[n], i, taken);
    case TakeSignal(_) => SignalOnly(t[n], i);
  }

  /** What the node and the charge leave. */
  lemma SetUpStart(t: seq<State>, i: nat, cur: nat, args: Args)
    requires SetUp(t, i, cur, args)
    ensures i < |t[2].calls| && cur < |t[0].k.tasks| && t[0].k.tasks[cur].signal < |t[0].k.signal|
    ensures var parent, o := t[0].k.tasks[cur], t[0].k.objs;
      var p := parent.(user := if CloneNewUser in args.flags then args.newUser else parent.user);
      && t[2].calls[i] == Busy(cur, args, Depth(CleanupCount), p, false)
      && t[2].k == t[0].k.(objs := o.(nproc := Ref(p.user, o.nproc),
           multiprocess := if CloneThread in args.flags then o.multiprocess else Ref(parent.signal, o.multiprocess)))
  {
    assert SetUpAt(t, i, cur, args, 0) && SetUpAt(t, i, cur, args, 1);
  }

  lemma SetUpOnly(t: seq<State>, i: nat, cur: nat, args: Args)
    requires SetUp(t, i, cur, args)
    ensures Only(t[2], t[7], i) && t[2].calls[i].args == args
    ensures t[7].k.objs.signals == t[2].k.objs.signals + One(CloneThread !in args.flags)
  {
    SetUpStart(t, i, cur, args);
    OnlyAt(t, i, cur, args, 2);
    OnlyAt(t, i, cur, args, 3);
    OnlyAt(t, i, cur, args, 4);
    OnlyAt(t, i, cur, args, 5);
    OnlyAt(t, i, cur, args, 6);
  }

  /** The same pool, and the same reference in the call's record. */
  predicate Kept(s: State, r: State, i: nat, kind: Kind)
  {
    && i < |s.calls| == |r.calls| && s.calls[i].Busy? && r.calls[i].Busy? && r.calls[i].args == s.calls[i].args
    && PoolOf(r.k.objs, kind) == PoolOf(s.k.objs, kind) && RefOf(r.calls[i].p, kind) == RefOf(s.calls[i].p, kind)
  }

  lemma KeptAt(t: seq<State>, i: nat, cur: nat, args: Args, n: nat, kind: Kind)
    requires SetUp(t, i, cur, args) && 2 <= n < 7 && SetUpStep(i, cur, args, n) != Take(i, kind)
    ensures Kept(t[n], t[n + 1], i, kind)
  {
    assert SetUpAt(t, i, cur, args, n);
    OnlyAt(t, i, cur, args, n);
    match SetUpStep(i, cur, args, n)
    case Take(_, taken) => TakeLeaves(t[n], i, taken, kind);
    case TakeSignal(_) =>
  }

  /** The step that passes on a kind. */
  function StepFor(kind: Kind): (n: nat)
    ensures 2 <= n < 7 && forall i, cur, args :: SetUpStep(i, cur, args, n) == Take(i, kind)
  {
    match kind
    case FilesKind => 2
    case FsKind => 3
    case SighandKind => 4
    case MmKind => 6
  }

  lemma {:induction false} KeptBetween(t: seq<State>, i: nat, cur: nat, args: Args, m: nat, n: nat, kind: Kind)
    requires SetUp(t, i, cur, args) && 2 <= m <= n <= 7 && i < |t[m].calls| && t[m].calls[i].Busy?
    requires forall k :: m <= k < n ==> SetUpStep(i, cur, args, k) != Take(i, kind)
    ensures Kept(t[m], t[n], i, kind)
  {
    if m == n {
    } else {
      KeptBetween(t, i, cur, args, m, n - 1, kind);
      KeptAt(t, i, cur, args, n - 1, kind);
    }
  }

  /** Each kind is passed on by its own step. */
  lemma SetUpPasses(t: seq<State>, i: nat, cur: nat, args: Args, kind: Kind)
    requires SetUp(t, i, cur, args) && Inv(t[0])
    ensures cur < |t[0].k.tasks| && i < |t[7].calls| && t[7].calls[i].Busy?
    ensures Passed(PoolOf(t[0].k.objs, kind), PoolOf(t[7].k.objs, kind),
                   RefOf(t[0].k.tasks[cur], kind), RefOf(t[7].calls[i].p, kind), Shares(args, kind))
  {
    var n := StepFor(kind);
    SetUpStart(t, i, cur, args);
    KeptBetween(t, i, cur, args, 2, n, kind);
    assert SetUpAt(t, i, cur, args, n);
    SetUpPool(t, i, cur, args, n, kind);
    TakePasses(t[n], i, kind);
    OnlyAt(t, i, cur, args, n);
    KeptBetween(t, i, cur, args, n + 1, 7, kind);
  }

  lemma SetUpPassesAll(t: seq<State>, i: nat, cur: nat, args: Args)
    requires SetUp(t, i, cur, args) && Inv(t[0])
    ensures cur < |t[0].k.tasks| && i < |t[7].calls| && t[7].calls[i].Busy?
    ensures AllPassed(t[0].k.objs, t[7].k.objs, t[0].k.tasks[cur], t[7].calls[i].p, args) && PoolsOk(t[7].k.objs)
  {
    SetUpPasses(t, i, cur, args, MmKind);
    SetUpPasses(t, i, cur, args, FilesKind);
    SetUpPasses(t, i, cur, args, FsKind);
    SetUpPasses(t, i, cur, args, SighandKind);
    SetUpPool(t, i, cur, args, 7, MmKind);
    SetUpPool(t, i, cur, args, 7, FilesKind);
    SetUpPool(t, i, cur, args, 7, FsKind);
    SetUpPool(t, i, cur, args, 7, SighandKind);
  }

  /** A call that nobody disturbs is a fork as copy_process() alone would do it. */
  lemma AloneForks(t: seq<State>, r: State, i: nat, cur: nat, args: Args)
    requires SetUp(t, i, cur, args) && Leads(t[7], Attach(i), r) && Inv(t[0])
    ensures cur < |t[0].k.tasks| && Forked(t[0].k, r.k, cur, args, |t[0].k.tasks|)
  {
    SetUpStart(t, i, cur, args);
    SetUpOnly(t, i, cur, args);
    SetUpPassesAll(t, i, cur, args);
  }

  // ---- a call that fails ----

  /** References to one kind while call c is under way, against those before it began. */
  predicate KindHeld(before: Objects, now: Objects, c: Caller, kind: Kind)
    requires c.Busy?
  {
    Fork.Holds(PoolOf(before, kind), PoolOf(now, kind), c.depth >= KindDepth(kind), RefOf(c.p, kind))
  }

  /** The rest of what a call holds: its charge, its signal structure and its list node. */
  predicate RestHeld(before: Objects, now: Objects, c: Caller)
    requires c.Busy?
  {
    var process := CloneThread !in c.args.flags;
    && now.nproc == (if c.depth >= Depth(CleanupCount) then Ref(c.p.user, before.nproc) else before.nproc)
    && now.signals == before.signals + One(c.depth >= Depth(CleanupSignal) && process)
    && now.multiprocess == (if process then Ref(c.p.signal, before.multiprocess) else before.multiprocess)
  }

  /** Since state s only call i has moved, it made no task, and it holds exactly what its depth says. */
  predicate Since(s: State, r: State, i: nat)
  {
    && i < |s.calls| == |r.calls| && r.calls == s.calls[i := r.calls[i]] && r.k == s.k.(objs := r.k.objs)
    && match r.calls[i]
       case Idle => Restored(s.k.objs, r.k.objs)
       case Busy(_, _, depth, _, _) =>
         && depth <= Depth(CleanupMm) && RestHeld(s.k.objs, r.k.objs, r.calls[i])
         && forall kind :: KindHeld(s.k.objs, r.k.objs, r.calls[i], kind)
  }

  lemma RestoredKinds(before: Objects, now: Objects)
    requires now.nproc == before.nproc && now.signals == before.signals && now.multiprocess == before.multiprocess
    ensures Restored(before, now) <==> forall kind :: Same(PoolOf(before, kind), PoolOf(now, kind))
  {
    if forall kind :: Same(PoolOf(before, kind), PoolOf(now, kind)) {
      assert Same(PoolOf(before, MmKind), PoolOf(now, MmKind))
        && Same(PoolOf(before, FilesKind), PoolOf(now, FilesKind));
      assert Same(PoolOf(before, FsKind), PoolOf(now, FsKind))
        && Same(PoolOf(before, SighandKind), PoolOf(now, SighandKind));
    }
  }

  lemma BeginSince(s: State, r: State, i: nat, cur: nat, args: Args)
    requires Since(s, r, i) && Enabled(r, Begin(i, cur, args))
    ensures Since(s, Apply(r, Begin(i, cur, args)), i)
  {
    RestoredKinds(s.k.objs, r.k.objs);
    var next := Apply(r, Begin(i, cur, args));
    forall kind ensures KindHeld(s.k.objs, next.k.objs, next.calls[i], kind) {
      QuietPools(r, Begin(i, cur, args), kind);
      assert Same(PoolOf(s.k.objs, kind), PoolOf(r.k.objs, kind));
    }
  }

  lemma QuietSince(s: State, r: State, i: nat, a: Step)
    requires Since(s, r, i) && Enabled(r, a) && a in {Charge(i), TakeSignal(i), Fail(i)}
    ensures Since(s, Apply(r, a), i)
  {
    forall kind ensures KindHeld(s.k.objs, Apply(r, a).k.objs, Apply(r, a).calls[i], kind) {
      QuietPools(r, a, kind);
      assert KindHeld(s.k.objs, r.k.objs, r.calls[i], kind) && KindDepth(kind) in {2, 3, 4, 6};
    }
  }

  lemma TakeSince(s: State, r: State, i: nat, taken: Kind)
    requires Since(s, r, i) && Enabled(r, Take(i, taken))
    ensures Since(s, Apply(r, Take(i, taken)), i)
  {
    TakeRest(r, i, taken);
    forall kind
      ensures KindHeld(s.k.objs, Apply(r, Take(i, taken)).k.objs, Apply(r, Take(i, taken)).calls[i], kind)
    {
      assert KindHeld(s.k.objs, r.k.objs, r.calls[i], kind);
      TakeHeld(s.k.objs, r, i, taken, kind);
    }
    TakeDepth(taken);
  }

  lemma TakeDepth(kind: Kind)
    ensures 2 <= KindDepth(kind) <= 6 && KindDepth(kind) != 5
  {
  }

  lemma TakeHeld(before: Objects, r: State, i: nat, taken: Kind, kind: Kind)
    requires Enabled(r, Take(i, taken)) && KindHeld(before, r.k.objs, r.calls[i], kind)
    ensures KindHeld(before, Apply(r, Take(i, taken)).k.objs, Apply(r, Take(i, taken)).calls[i], kind)
  {
    TakeRest(r, i, taken);
    TakePools(r, i, taken, kind);
    DepthsApart(kind, taken);
    var m := PoolOf(r.k.objs, taken);
    PoolWith(r.k.objs, taken, Copied(m), kind);
    var x := RefOf(r.calls[i].p, taken);
    if x.Some? { PoolWith(r.k.objs, taken, Shared(m, x.value), kind); }
  }

  lemma UndoneHeld(before: Objects, now: Objects, c: Caller, kind: Kind)
    requires c.Busy? && 0 < c.depth <= Depth(CleanupMm) && KindHeld(before, now, c, kind)
    ensures KindHeld(before, Undone(now, c), c.(depth := c.depth - 1), kind)
  {
    match kind
    case MmKind =>
    case FilesKind =>
    case FsKind =>
    case SighandKind =>
  }

  lemma UnwindSince(s: State, r: State, i: nat)
    requires Since(s, r, i) && Enabled(r, Unwind(i))
    ensures Since(s, Apply(r, Unwind(i)), i)
  {
    var c, now := r.calls[i], Undone(r.k.objs, r.calls[i]);
    UndoneRest(r.k.objs, c);
    if c.depth == 0 {
      forall kind ensures Same(PoolOf(s.k.objs, kind), PoolOf(now, kind)) {
        QuietPools(r, Unwind(i), kind);
        assert KindHeld(s.k.objs, r.k.objs, c, kind) && KindDepth(kind) >= 2;
      }
      RestoredKinds(s.k.objs, now);
    } else {
      var d := c.(depth := c.depth - 1);
      forall kind ensures KindHeld(s.k.objs, now, d, kind) {
        assert KindHeld(s.k.objs, r.k.objs, c, kind);
        UndoneHeld(s.k.objs, r.k.objs, c, kind);
      }
    }
  }

  lemma StepSince(s: State, r: State, i: nat, a: Step)
    requires Since(s, r, i) && Enabled(r, a) && OfCall(a, i) && !a.Attach?
    ensures Since(s, Apply(r, a), i)
  {
    match a
    case Begin(_, cur, args) => BeginSince(s, r, i, cur, args);
    case Take(_, taken) => TakeSince(s, r, i, taken);
    case Unwind(_) => UnwindSince(s, r, i);
    case _ => QuietSince(s, r, i, a);
  }

  /** From a state where call i is idle, steps of that call only, none of which makes a task visible. */
  ghost predicate FailingRun(trace: seq<State>, steps: seq<Step>, i: nat)
  {
    && |trace| == |steps| + 1 && i < |trace[0].calls| && trace[0].calls[i] == Idle
    && forall n :: 0 <= n < |steps| ==> ForkRace.Follows(trace, steps, n) && OfCall(steps[n], i) && !steps[n].Attach?
  }

  /** Wherever an undisturbed call fails, it holds exactly what its depth says on the way, and once it has returned
      every count is as before; nothing else has changed. */
  lemma {:induction false} FailureRestores(trace: seq<State>, steps: seq<Step>, i: nat, n: nat)
    requires FailingRun(trace, steps, i) && n <= |steps|
    ensures Since(trace[0], trace[n], i)
    ensures trace[n].calls[i] == Idle ==>
      && trace[n].calls == trace[0].calls && trace[n].k == trace[0].k.(objs := trace[n].k.objs)
      && Restored(trace[0].k.objs, trace[n].k.objs)
  {
    if n == 0 {
      assert trace[0].calls[i := Idle] == trace[0].calls;
    } else {
      FailureRestores(trace, steps, i, n - 1);
      assert ForkRace.Follows(trace, steps, n - 1);
      StepSince(trace[0], trace[n - 1], i, steps[n - 1]);
      if trace[n].calls[i] == Idle { assert trace[0].calls[i := Idle] == trace[0].calls; }
    }
  }
}
