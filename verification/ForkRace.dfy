/**
 Any number of copy_process() calls at once. Each acquisition, each unwind label
 and the part under tasklist_lock is one step, interleaved with the steps of the
 other calls, with exec and with other holders of the objects; any call may fail
 at any point.
 */
module ForkRace {
  import opened Common
  import opened Counting
  import opened Fork

  /** A call in progress on behalf of task cur: what it holds, named by depth, and whether it is on its way back. */
  datatype Caller =
    | Idle
    | Busy(cur: nat, args: Args, depth: nat, p: Task, failed: bool)

  datatype State = State(k: Kern, calls: seq<Caller>)

  datatype Step =
    | Begin(i: nat, cur: nat, args: Args)
    | Charge(i: nat)
    | Take(i: nat, kind: Kind)      // copy_files(), copy_fs(), copy_sighand(), copy_mm()
    | TakeSignal(i: nat)            // copy_signal()
    | Attach(i: nat)                // the part under tasklist_lock
    | Fail(i: nat)
    | Unwind(i: nat)                // the next label
    | Exec(x: nat, on: bool)        // fs->in_exec
    | Grab(kind: Kind, x: nat)      // somebody else takes a reference
    | Release(kind: Kind, x: nat)   // and drops it

  function KindDepth(kind: Kind): nat
  {
    match kind
    case FilesKind => Depth(CleanupFiles)
    case FsKind => Depth(CleanupFs)
    case SighandKind => Depth(CleanupSighand)
    case MmKind => Depth(CleanupMm)
  }

  function WithPool(o: Objects, kind: Kind, m: Pool): Objects
  {
    match kind
    case MmKind => o.(mm := m)
    case FilesKind => o.(files := m)
    case FsKind => o.(fs := m)
    case SighandKind => o.(sighand := m)
  }

  function WithRef(p: Task, kind: Kind, x: nat): Task
  {
    match kind
    case MmKind => p.(mm := Some(x))
    case FilesKind => p.(files := Some(x))
    case FsKind => p.(fs := x)
    case SighandKind => p.(sighand := x)
  }

  predicate Shares(args: Args, kind: Kind)
  {
    match kind
    case MmKind => CloneVm in args.flags
    case FilesKind => CloneFiles in args.flags
    case FsKind => CloneFs in args.flags
    case SighandKind => CloneSighand in args.flags
  }

  // ---- steps ----

  predicate Up(s: State, i: nat, depth: nat)
  {
    i < |s.calls| && s.calls[i].Busy? && !s.calls[i].failed && s.calls[i].depth == depth && s.calls[i].cur < |s.k.tasks|
  }

  ghost predicate Enabled(s: State, a: Step)
  {
    match a
    case Begin(i, cur, args) =>
      && i < |s.calls| && s.calls[i] == Idle && cur < |s.k.tasks| && s.k.tasks[cur].signal < |s.k.signal|
      && FlagsOk(s.k, cur, args)
    case Charge(i) => Up(s, i, Depth(ForkOut))
    case Take(i, kind) =>
      && Up(s, i, KindDepth(kind) - 1)
      && !(kind == FsKind && CloneFs in s.calls[i].args.flags && s.calls[i].p.fs in s.k.inExec)
    case TakeSignal(i) => Up(s, i, Depth(CleanupSighand))
    case Attach(i) => Up(s, i, Depth(CleanupMm)) && s.calls[i].p.signal < |s.k.signal|
    case Fail(i) => i < |s.calls| && s.calls[i].Busy? && !s.calls[i].failed
    case Unwind(i) => i < |s.calls| && s.calls[i].Busy? && s.calls[i].failed
    case Exec(_, _) => true
    case Grab(kind, x) => Count(PoolOf(s.k.objs, kind).refs, x) > 0
    case Release(kind, x) => Others(s, kind, x) > 0
  }

  function PutCall(s: State, i: nat, o: Objects, c: Caller): State
    requires i < |s.calls|
  {
    State(s.k.(objs := o), s.calls[i := c])
  }

  function Apply(s: State, a: Step): State
    requires Enabled(s, a)
  {
    var o := s.k.objs;
    match a
    case Begin(i, cur, args) =>
      var p := s.k.tasks[cur];
      PutCall(s, i, if CloneThread in args.flags then o else o.(multiprocess := Ref(p.signal, o.multiprocess)),
              Busy(cur, args, Depth(ForkOut), p, false))
    case Charge(i) =>
      var c := s.calls[i];
      var p := c.p.(user := if CloneNewUser in c.args.flags then c.args.newUser else c.p.user);
      PutCall(s, i, o.(nproc := Ref(p.user, o.nproc)), c.(depth := Depth(CleanupCount), p := p))
    case Take(i, kind) =>
      var c := s.calls[i];
      var m := PoolOf(o, kind);
      var x := RefOf(c.p, kind);
      if x.None? then PutCall(s, i, o, c.(depth := KindDepth(kind)))
      else if Shares(c.args, kind) then
        PutCall(s, i, WithPool(o, kind, Shared(m, x.value)), c.(depth := KindDepth(kind)))
      else PutCall(s, i, WithPool(o, kind, Copied(m)), c.(depth := KindDepth(kind), p := WithRef(c.p, kind, m.next)))
    case TakeSignal(i) =>
      var c := s.calls[i];
      var now := if CloneThread in c.args.flags then o else o.(signals := o.signals + 1);
      PutCall(s, i, now, c.(depth := Depth(CleanupSignal)))
    case Attach(i) => DoAttach(s, i)
    case Fail(i) => s.(calls := s.calls[i := s.calls[i].(failed := true)])
    case Unwind(i) =>
      var c := s.calls[i];
      if c.depth == 0 then PutCall(s, i, Undone(o, c), Idle) else PutCall(s, i, Undone(o, c), c.(depth := c.depth - 1))
    case Exec(x, on) => s.(k := s.k.(inExec := if on then s.k.inExec + {x} else s.k.inExec - {x}))
    case Grab(kind, x) => s.(k := s.k.(objs := WithPool(o, kind, Shared(PoolOf(o, kind), x))))
    case Release(kind, x) => s.(k := s.k.(objs := WithPool(o, kind, Released(PoolOf(o, kind), x))))
  }

  function Drop(o: Objects, kind: Kind, p: Task): Objects
  {
    if RefOf(p, kind).None? then o else WithPool(o, kind, Released(PoolOf(o, kind), RefOf(p, kind).value))
  }

  /** One unwind label. */
  function Undone(o: Objects, c: Caller): Objects
    requires c.Busy?
  {
    if c.depth == Depth(CleanupMm) then Drop(o, MmKind, c.p)
    else if c.depth == Depth(CleanupSignal) then if CloneThread in c.args.flags then o else o.(signals := o.signals - 1)
    else if c.depth == Depth(CleanupSighand) then Drop(o, SighandKind, c.p)
    else if c.depth == Depth(CleanupFs) then Drop(o, FsKind, c.p)
    else if c.depth == Depth(CleanupFiles) then Drop(o, FilesKind, c.p)
    else if c.depth == Depth(CleanupCount) then o.(nproc := Put(o.nproc, c.p.user))
    else if CloneThread in c.args.flags then o else o.(multiprocess := Put(o.multiprocess, c.p.signal))
  }

  function DoAttach(s: State, i: nat): State
    requires Enabled(s, Attach(i))
  {
    var c, k := s.calls[i], s.k;
    var g := c.p.signal;
    if CloneThread in c.args.flags then
      State(k.(tasks := k.tasks + [c.p], signal := k.signal[g := Joined(k.signal[g])],
               nrThreads := k.nrThreads + 1, totalForks := k.totalForks + 1),
            s.calls[i := Idle])
    else
      State(k.(tasks := k.tasks + [c.p.(signal := |k.signal|, leader := |k.tasks|)],
               signal := k.signal + [Signal(1, 1, 1, c.args.reaper)],
               objs := k.objs.(multiprocess := Put(k.objs.multiprocess, g)),
               nrThreads := k.nrThreads + 1, totalForks := k.totalForks + 1),
            s.calls[i := Idle])
  }

  // ---- what the calls hold ----

  function HoldsRef(kind: Kind, x: nat): Caller -> int
  {
    (c: Caller) => One(c.Busy? && c.depth >= KindDepth(kind) && RefOf(c.p, kind) == Some(x))
  }

  function HoldsCharge(u: nat): Caller -> int
  {
    (c: Caller) => One(c.Busy? && c.depth >= Depth(CleanupCount) && c.p.user == u)
  }

  function HoldsSignal(): Caller -> int
  {
    (c: Caller) => One(c.Busy? && c.depth >= Depth(CleanupSignal) && CloneThread !in c.args.flags)
  }

  function HoldsNode(g: nat): Caller -> int
  {
    (c: Caller) => One(c.Busy? && CloneThread !in c.args.flags && c.p.signal == g)
  }

  function ChargedTo(u: nat): Task -> int { (p: Task) => One(p.user == u) }

  /** References held by neither a task nor a call: of an object, of a user's charge, of signal structures, of list
      nodes. */
  ghost function Others(s: State, kind: Kind, x: nat): int
  {
    Count(PoolOf(s.k.objs, kind).refs, x) - Sum(s.k.tasks, Refers(kind, x)) - Sum(s.calls, HoldsRef(kind, x))
  }

  ghost function OtherCharges(s: State, u: nat): int
  {
    Count(s.k.objs.nproc, u) - Sum(s.k.tasks, ChargedTo(u)) - Sum(s.calls, HoldsCharge(u))
  }

  ghost function OtherSignals(s: State): int { s.k.objs.signals - |s.k.signal| - Sum(s.calls, HoldsSignal()) }

  ghost function OtherNodes(s: State, g: nat): int { Count(s.k.objs.multiprocess, g) - Sum(s.calls, HoldsNode(g)) }

  // ---- the invariant ----

  /** The child on the way follows its parent where the flags say so, and where it has not got yet. */
  predicate CallerOk(s: State, c: Caller)
  {
    c.Busy? ==>
      && c.depth <= Depth(CleanupMm) && c.cur < |s.k.tasks|
      && (CloneThread in c.args.flags ==> CloneSighand in c.args.flags)
      && (CloneSighand in c.args.flags ==> CloneVm in c.args.flags)
      && var parent := s.k.tasks[c.cur];
      && c.p.signal == parent.signal && c.p.leader == parent.leader
      && forall kind :: Shares(c.args, kind) || (!c.failed && c.depth < KindDepth(kind)) ==>
           RefOf(c.p, kind) == RefOf(parent, kind)
  }

  ghost predicate Covered(s: State)
  {
    && (forall kind, x :: Others(s, kind, x) >= 0)
    && (forall u :: OtherCharges(s, u) >= 0) && (forall g :: OtherNodes(s, g) >= 0)
  }

  ghost predicate Inv(s: State)
  {
    && (forall t :: 0 <= t < |s.k.tasks| ==> s.k.tasks[t].signal < |s.k.signal|) && Grouped(s.k)
    && (forall i :: 0 <= i < |s.calls| ==> CallerOk(s, s.calls[i])) && Covered(s)
    && (forall kind :: PoolOk(PoolOf(s.k.objs, kind)))
  }

  // ---- conservation ----

  lemma PoolWith(o: Objects, kind: Kind, m: Pool, other: Kind)
    ensures PoolOf(WithPool(o, kind, m), other) == if other == kind then m else PoolOf(o, other)
    ensures WithPool(o, kind, m).nproc == o.nproc && WithPool(o, kind, m).signals == o.signals
    ensures WithPool(o, kind, m).multiprocess == o.multiprocess
  {
  }

  /** A call that holds a reference is among the references counted. */
  lemma HeldCounted(s: State, i: nat, kind: Kind, x: nat)
    requires Others(s, kind, x) >= 0 && i < |s.calls| && HoldsRef(kind, x)(s.calls[i]) == 1
    ensures Count(PoolOf(s.k.objs, kind).refs, x) > 0
  {
    SumBounds(s.k.tasks, Refers(kind, x));
    SumBounds(s.calls, HoldsRef(kind, x));
  }

  lemma RefWith(p: Task, kind: Kind, x: nat, other: Kind)
    ensures RefOf(WithRef(p, kind, x), other) == if other == kind then Some(x) else RefOf(p, other)
    ensures WithRef(p, kind, x).user == p.user && WithRef(p, kind, x).signal == p.signal
      && WithRef(p, kind, x).leader == p.leader
  {
  }

  /** A step of call i that changes the entries for x by as much as what the call holds. */
  lemma Moved(s: State, r: State, i: nat, kind: Kind, x: nat)
    requires i < |s.calls| == |r.calls| && r.calls == s.calls[i := r.calls[i]] && r.k.tasks == s.k.tasks
    requires Count(PoolOf(r.k.objs, kind).refs, x) - Count(PoolOf(s.k.objs, kind).refs, x)
      == HoldsRef(kind, x)(r.calls[i]) - HoldsRef(kind, x)(s.calls[i])
    ensures Others(r, kind, x) == Others(s, kind, x)
  {
    SumUpdate(s.calls, HoldsRef(kind, x), i, r.calls[i]);
  }

  lemma TakeOthers(s: State, i: nat, taken: Kind, kind: Kind, x: nat)
    requires Enabled(s, Take(i, taken))
    ensures Others(Apply(s, Take(i, taken)), kind, x) == Others(s, kind, x)
  {
    var r, c := Apply(s, Take(i, taken)), s.calls[i];
    TakeRest(s, i, taken);
    TakePools(s, i, taken, kind);
    DepthsApart(kind, taken);
    Moved(s, r, i, kind, x);
  }

  /** Kinds are acquired at different depths. */
  lemma DepthsApart(kind: Kind, other: Kind)
    ensures kind != other ==> KindDepth(kind) != KindDepth(other)
  {
  }

  /** The pools after a Take: one more reference to what the call now refers to. */
  lemma TakePools(s: State, i: nat, taken: Kind, kind: Kind)
    requires Enabled(s, Take(i, taken))
    ensures var r := Apply(s, Take(i, taken)); var m := PoolOf(s.k.objs, kind); var x := RefOf(r.calls[i].p, kind);
      PoolOf(r.k.objs, kind).refs == if kind == taken && x.Some? then Ref(x.value, m.refs) else m.refs
  {
    var c, m := s.calls[i], PoolOf(s.k.objs, taken);
    PoolWith(s.k.objs, taken, Copied(m), kind);
    if RefOf(c.p, taken).Some? { PoolWith(s.k.objs, taken, Shared(m, RefOf(c.p, taken).value), kind); }
    RefWith(c.p, taken, m.next, kind);
  }

  lemma DropOthers(s: State, i: nat, dropped: Kind, kind: Kind, x: nat)
    requires Enabled(s, Unwind(i)) && s.calls[i].depth == KindDepth(dropped)
    requires RefOf(s.calls[i].p, dropped).Some? ==> Others(s, dropped, RefOf(s.calls[i].p, dropped).value) >= 0
    ensures Others(Apply(s, Unwind(i)), kind, x) == Others(s, kind, x)
  {
    var c := s.calls[i];
    var r := PutCall(s, i, Undone(s.k.objs, c), c.(depth := c.depth - 1));
    assert Apply(s, Unwind(i)) == r;
    DepthsApart(kind, dropped);
    DropPools(s.k.objs, dropped, c, kind);
    var y := RefOf(c.p, dropped);
    if y.Some? {
      HeldCounted(s, i, dropped, y.value);
      PutCounts(PoolOf(s.k.objs, dropped).refs, y.value, x);
    }
    Moved(s, r, i, kind, x);
  }

  lemma DropPools(o: Objects, dropped: Kind, c: Caller, kind: Kind)
    requires c.Busy? && c.depth == KindDepth(dropped)
    ensures var m, y := PoolOf(o, kind), RefOf(c.p, dropped);
      PoolOf(Undone(o, c), kind).refs == if kind == dropped && y.Some? then Put(m.refs, y.value) else m.refs
  {
    var y := RefOf(c.p, dropped);
    assert Undone(o, c) == Drop(o, dropped, c.p);
    if y.Some? { PoolWith(o, dropped, Released(PoolOf(o, dropped), y.value), kind); }
  }

  /** The new task has the references the call set up, and no pool changes. */
  lemma AttachRef(s: State, i: nat, kind: Kind)
    requires Enabled(s, Attach(i))
    ensures var r, c := Apply(s, Attach(i)), s.calls[i];
      && |r.k.tasks| == |s.k.tasks| + 1 && RefOf(r.k.tasks[|s.k.tasks|], kind) == RefOf(c.p, kind)
      && r.k.tasks == s.k.tasks + [r.k.tasks[|s.k.tasks|]] && r.calls == s.calls[i := Idle]
      && PoolOf(r.k.objs, kind) == PoolOf(s.k.objs, kind)
  {
    match kind
    case MmKind =>
    case FilesKind =>
    case FsKind =>
    case SighandKind =>
  }

  lemma AttachOthers(s: State, i: nat, kind: Kind, x: nat)
    requires Enabled(s, Attach(i))
    ensures Others(Apply(s, Attach(i)), kind, x) == Others(s, kind, x)
  {
    var r := Apply(s, Attach(i));
    AttachRef(s, i, kind);
    assert s.calls[i].depth >= KindDepth(kind);
    SumUpdate(s.calls, HoldsRef(kind, x), i, Idle);
    SumAppend(s.k.tasks, Refers(kind, x), r.k.tasks[|s.k.tasks|]);
  }

  ghost predicate Quiet(s: State, a: Step)
    requires Enabled(s, a)
  {
    match a
    case Take(_, _) => false
    case Attach(_) => false
    case Unwind(i) => s.calls[i].depth in {0, 1, 5}
    case Exec(_, _) => false
    case Grab(_, _) => false
    case Release(_, _) => false
    case _ => true
  }

  /** The other steps leave the pools alone. */
  lemma QuietPools(s: State, a: Step, kind: Kind)
    requires Enabled(s, a) && Quiet(s, a)
    ensures PoolOf(Apply(s, a).k.objs, kind) == PoolOf(s.k.objs, kind)
  {
    match kind
    case MmKind =>
    case FilesKind =>
    case FsKind =>
    case SighandKind =>
  }

  lemma QuietHolds(s: State, a: Step, kind: Kind, x: nat)
    requires Enabled(s, a) && Quiet(s, a)
    ensures HoldsRef(kind, x)(Apply(s, a).calls[a.i]) == HoldsRef(kind, x)(s.calls[a.i])
  {
    assert KindDepth(kind) in {2, 3, 4, 6};
  }

  lemma QuietOthers(s: State, a: Step, kind: Kind, x: nat)
    requires Enabled(s, a) && Quiet(s, a)
    ensures Others(Apply(s, a), kind, x) == Others(s, kind, x)
  {
    QuietPools(s, a, kind);
    QuietHolds(s, a, kind, x);
    Moved(s, Apply(s, a), a.i, kind, x);
  }

  /** What the step adds to the references others hold of x. */
  function Held(a: Step, kind: Kind, x: nat): int
  {
    if a == Grab(kind, x) then 1 else if a == Release(kind, x) then -1 else 0
  }

  lemma HolderOthers(s: State, a: Step, kind: Kind, x: nat)
    requires Enabled(s, a) && (a.Grab? || a.Release?)
    ensures Others(Apply(s, a), kind, x) == Others(s, kind, x) + Held(a, kind, x)
  {
    var m := PoolOf(s.k.objs, a.kind);
    if a.Grab? {
      PoolWith(s.k.objs, a.kind, Shared(m, a.x), kind);
    } else {
      PoolWith(s.k.objs, a.kind, Released(m, a.x), kind);
      SumBounds(s.k.tasks, Refers(a.kind, a.x));
      SumBounds(s.calls, HoldsRef(a.kind, a.x));
      PutCounts(m.refs, a.x, x);
    }
  }

  /** No step of any call changes what others hold of any object; theirs change it by one, and of that object only. */
  lemma StepOthers(s: State, a: Step, kind: Kind, x: nat)
    requires Inv(s) && Enabled(s, a)
    ensures Others(Apply(s, a), kind, x) == Others(s, kind, x) + Held(a, kind, x)
  {
    match a
    case Take(i, taken) => TakeOthers(s, i, taken, kind, x);
    case Attach(i) => AttachOthers(s, i, kind, x);
    case Unwind(i) => UnwindOthers(s, i, kind, x);
    case Exec(_, _) =>
    case Grab(_, _) => HolderOthers(s, a, kind, x);
    case Release(_, _) => HolderOthers(s, a, kind, x);
    case _ => QuietOthers(s, a, kind, x);
  }

  lemma UnwindOthers(s: State, i: nat, kind: Kind, x: nat)
    requires Inv(s) && Enabled(s, Unwind(i))
    ensures Others(Apply(s, Unwind(i)), kind, x) == Others(s, kind, x)
  {
    assert CallerOk(s, s.calls[i]);
    var d := s.calls[i].depth;
    if d == 6 { DropOthers(s, i, MmKind, kind, x); }
    else if d == 4 { DropOthers(s, i, SighandKind, kind, x); }
    else if d == 3 { DropOthers(s, i, FsKind, kind, x); }
    else if d == 2 { DropOthers(s, i, FilesKind, kind, x); }
    else { QuietOthers(s, Unwind(i), kind, x); }
  }

  /** Other holders touch one pool and nothing else. */
  lemma HolderRest(s: State, a: Step)
    requires Enabled(s, a) && (a.Grab? || a.Release?)
    ensures var r := Apply(s, a);
      && r == s.(k := s.k.(objs := r.k.objs)) && r.k.objs.nproc == s.k.objs.nproc
      && r.k.objs.signals == s.k.objs.signals && r.k.objs.multiprocess == s.k.objs.multiprocess
  {
    var m := PoolOf(s.k.objs, a.kind);
    PoolWith(s.k.objs, a.kind, if a.Grab? then Shared(m, a.x) else Released(m, a.x), a.kind);
  }

  lemma UndoneRest(o: Objects, c: Caller)
    requires c.Busy?
    ensures c.depth != 1 ==> Undone(o, c).nproc == o.nproc
    ensures c.depth != 5 ==> Undone(o, c).signals == o.signals
    ensures c.depth in {1, 2, 3, 4, 5, 6} ==> Undone(o, c).multiprocess == o.multiprocess
  {
  }

  lemma UnwindCharges(s: State, i: nat, u: nat)
    requires Covered(s) && Enabled(s, Unwind(i))
    ensures OtherCharges(Apply(s, Unwind(i)), u) == OtherCharges(s, u)
  {
    SumUpdate(s.calls, HoldsCharge(u), i, Apply(s, Unwind(i)).calls[i]);
    UndoneRest(s.k.objs, s.calls[i]);
    if s.calls[i].depth == 1 {
      ChargeCounted(s, i);
      PutCounts(s.k.objs.nproc, s.calls[i].p.user, u);
    }
  }

  lemma TakeCharges(s: State, i: nat, taken: Kind, u: nat)
    requires Enabled(s, Take(i, taken))
    ensures OtherCharges(Apply(s, Take(i, taken)), u) == OtherCharges(s, u)
  {
    var r := Apply(s, Take(i, taken));
    SumUpdate(s.calls, HoldsCharge(u), i, r.calls[i]);
    TakeRest(s, i, taken);
  }

  /** A Take touches its own pool and reference only. */
  lemma TakeRest(s: State, i: nat, taken: Kind)
    requires Enabled(s, Take(i, taken))
    ensures var r, c := Apply(s, Take(i, taken)), s.calls[i];
      && r == State(s.k.(objs := r.k.objs), s.calls[i := c.(depth := KindDepth(taken), p := r.calls[i].p)])
      && r.k.objs.nproc == s.k.objs.nproc && r.k.objs.signals == s.k.objs.signals
      && r.k.objs.multiprocess == s.k.objs.multiprocess
      && r.calls[i].p.user == c.p.user && r.calls[i].p.signal == c.p.signal && r.calls[i].p.leader == c.p.leader
      && (forall kind :: kind != taken || Shares(c.args, kind) ==> RefOf(r.calls[i].p, kind) == RefOf(c.p, kind))
  {
    var c, m := s.calls[i], PoolOf(s.k.objs, taken);
    PoolWith(s.k.objs, taken, Copied(m), taken);
    if RefOf(c.p, taken).Some? { PoolWith(s.k.objs, taken, Shared(m, RefOf(c.p, taken).value), taken); }
    forall kind ensures kind != taken ==> RefOf(WithRef(c.p, taken, m.next), kind) == RefOf(c.p, kind) {
      RefWith(c.p, taken, m.next, kind);
    }
  }

  lemma AttachCharges(s: State, i: nat, u: nat)
    requires Enabled(s, Attach(i))
    ensures OtherCharges(Apply(s, Attach(i)), u) == OtherCharges(s, u)
  {
    SumUpdate(s.calls, HoldsCharge(u), i, Idle);
    SumAppend(s.k.tasks, ChargedTo(u), Apply(s, Attach(i)).k.tasks[|s.k.tasks|]);
  }

  lemma StepCharges(s: State, a: Step, u: nat)
    requires Covered(s) && Enabled(s, a)
    ensures OtherCharges(Apply(s, a), u) == OtherCharges(s, u)
  {
    match a
    case Take(i, taken) => TakeCharges(s, i, taken, u);
    case Unwind(i) => UnwindCharges(s, i, u);
    case Exec(_, _) =>
    case Grab(_, _) => HolderRest(s, a);
    case Release(_, _) => HolderRest(s, a);
    case Attach(i) => AttachCharges(s, i, u);
    case _ => SumUpdate(s.calls, HoldsCharge(u), a.i, Apply(s, a).calls[a.i]);
  }

  lemma ChargeCounted(s: State, i: nat)
    requires Covered(s) && i < |s.calls| && s.calls[i].Busy? && s.calls[i].depth >= 1
    ensures Count(s.k.objs.nproc, s.calls[i].p.user) > 0
  {
    var u := s.calls[i].p.user;
    assert OtherCharges(s, u) >= 0;
    SumBounds(s.k.tasks, ChargedTo(u));
    SumBounds(s.calls, HoldsCharge(u));
    assert HoldsCharge(u)(s.calls[i]) == 1;
  }

  lemma EndSignals(s: State, a: Step)
    requires Enabled(s, a) && (a.Attach? || a.Unwind?)
    ensures OtherSignals(Apply(s, a)) == OtherSignals(s)
  {
    UndoneRest(s.k.objs, s.calls[a.i]);
    SumUpdate(s.calls, HoldsSignal(), a.i, Apply(s, a).calls[a.i]);
  }

  lemma SameSignals(s: State, a: Step)
    requires Enabled(s, a) && (a.Take? || a.Fail?)
    ensures OtherSignals(Apply(s, a)) == OtherSignals(s)
  {
    if a.Take? { TakeRest(s, a.i, a.kind); }
    SumUpdate(s.calls, HoldsSignal(), a.i, Apply(s, a).calls[a.i]);
  }

  lemma StepSignals(s: State, a: Step)
    requires Enabled(s, a)
    ensures OtherSignals(Apply(s, a)) == OtherSignals(s)
  {
    match a
    case Take(i, taken) => SameSignals(s, a);
    case Fail(i) => SameSignals(s, a);
    case Unwind(i) => EndSignals(s, a);
    case Attach(i) => EndSignals(s, a);
    case Exec(_, _) =>
    case Grab(_, _) => HolderRest(s, a);
    case Release(_, _) => HolderRest(s, a);
    case _ => SumUpdate(s.calls, HoldsSignal(), a.i, Apply(s, a).calls[a.i]);
  }

  lemma NodeCounted(s: State, i: nat)
    requires Covered(s) && i < |s.calls| && s.calls[i].Busy? && CloneThread !in s.calls[i].args.flags
    ensures Count(s.k.objs.multiprocess, s.calls[i].p.signal) > 0
  {
    var g := s.calls[i].p.signal;
    assert OtherNodes(s, g) >= 0;
    SumBounds(s.calls, HoldsNode(g));
    assert HoldsNode(g)(s.calls[i]) == 1;
  }

  lemma EndNodes(s: State, a: Step, g: nat)
    requires Covered(s) && Enabled(s, a) && (a.Attach? || (a.Unwind? && s.calls[a.i].depth <= Depth(CleanupMm)))
    ensures OtherNodes(Apply(s, a), g) == OtherNodes(s, g)
  {
    var c := s.calls[a.i];
    SumUpdate(s.calls, HoldsNode(g), a.i, Apply(s, a).calls[a.i]);
    if CloneThread !in c.args.flags {
      NodeCounted(s, a.i);
      PutCounts(s.k.objs.multiprocess, c.p.signal, g);
    }
    UndoneRest(s.k.objs, c);
  }

  lemma StepNodes(s: State, a: Step, g: nat)
    requires Covered(s) && Enabled(s, a) && (a.Unwind? ==> s.calls[a.i].depth <= Depth(CleanupMm))
    ensures OtherNodes(Apply(s, a), g) == OtherNodes(s, g)
  {
    match a
    case Take(i, taken) =>
      TakeRest(s, i, taken);
      SumUpdate(s.calls, HoldsNode(g), i, Apply(s, a).calls[i]);
    case Unwind(i) => EndNodes(s, a, g);
    case Attach(i) => EndNodes(s, a, g);
    case Exec(_, _) =>
    case Grab(_, _) => HolderRest(s, a);
    case Release(_, _) => HolderRest(s, a);
    case _ => SumUpdate(s.calls, HoldsNode(g), a.i, Apply(s, a).calls[a.i]);
  }

  // ---- what every step keeps ----

  /** A task's reference is among the references counted. */
  lemma TaskCounted(s: State, t: nat, kind: Kind, x: nat)
    requires Others(s, kind, x) >= 0 && t < |s.k.tasks| && RefOf(s.k.tasks[t], kind) == Some(x)
    ensures Count(PoolOf(s.k.objs, kind).refs, x) > 0
  {
    SumBounds(s.k.tasks, Refers(kind, x));
    SumBounds(s.calls, HoldsRef(kind, x));
    assert Refers(kind, x)(s.k.tasks[t]) == 1;
  }

  lemma {:induction false} BelowPut(r: Refs, next: nat, x: nat)
    requires AllBelow(r, next)
    ensures AllBelow(Put(r, x), next)
  {
    if r.NoRefs? {
    } else {
      BelowPut(r.others, next, x);
    }
  }

  lemma TakePoolOk(s: State, i: nat, taken: Kind, kind: Kind)
    requires Inv(s) && Enabled(s, Take(i, taken))
    ensures PoolOk(PoolOf(Apply(s, Take(i, taken)).k.objs, kind))
  {
    var c, m := s.calls[i], PoolOf(s.k.objs, taken);
    var x := RefOf(c.p, taken);
    assert CallerOk(s, c) && PoolOk(m);
    if x.Some? {
      assert Others(s, taken, x.value) >= 0;
      TaskCounted(s, c.cur, taken, x.value);
      Unseen(m.refs, m.next, x.value);
      PoolWith(s.k.objs, taken, Shared(m, x.value), kind);
    }
    CopiedFresh(m);
    PoolWith(s.k.objs, taken, Copied(m), kind);
  }

  lemma DropPoolOk(o: Objects, dropped: Kind, p: Task, kind: Kind)
    requires PoolOk(PoolOf(o, dropped)) && PoolOk(PoolOf(o, kind))
    ensures PoolOk(PoolOf(Drop(o, dropped, p), kind))
  {
    var m, x := PoolOf(o, dropped), RefOf(p, dropped);
    if x.Some? {
      BelowPut(m.refs, m.next, x.value);
      PoolWith(o, dropped, Released(m, x.value), kind);
    }
  }

  lemma UndonePoolOk(o: Objects, c: Caller, kind: Kind)
    requires c.Busy? && forall other :: PoolOk(PoolOf(o, other))
    ensures PoolOk(PoolOf(Undone(o, c), kind))
  {
    assert PoolOk(PoolOf(o, kind));
    DropPoolOk(o, MmKind, c.p, kind);
    DropPoolOk(o, SighandKind, c.p, kind);
    DropPoolOk(o, FsKind, c.p, kind);
    DropPoolOk(o, FilesKind, c.p, kind);
  }

  lemma HolderPoolOk(s: State, a: Step, kind: Kind)
    requires Inv(s) && Enabled(s, a) && (a.Grab? || a.Release?)
    ensures PoolOk(PoolOf(Apply(s, a).k.objs, kind))
  {
    var m := PoolOf(s.k.objs, a.kind);
    assert PoolOk(m) && PoolOk(PoolOf(s.k.objs, kind));
    Unseen(m.refs, m.next, a.x);
    BelowPut(m.refs, m.next, a.x);
    PoolWith(s.k.objs, a.kind, if a.Grab? then Shared(m, a.x) else Released(m, a.x), kind);
  }

  lemma StepPoolOk(s: State, a: Step, kind: Kind)
    requires Inv(s) && Enabled(s, a)
    ensures PoolOk(PoolOf(Apply(s, a).k.objs, kind))
  {
    match a
    case Take(i, taken) => TakePoolOk(s, i, taken, kind);
    case Unwind(i) => UndonePoolOk(s.k.objs, s.calls[i], kind);
    case Attach(i) => assert PoolOk(PoolOf(s.k.objs, kind));
    case Exec(_, _) => assert PoolOk(PoolOf(s.k.objs, kind));
    case Grab(_, _) => HolderPoolOk(s, a, kind);
    case Release(_, _) => HolderPoolOk(s, a, kind);
    case _ =>
      QuietPools(s, a, kind);
      assert PoolOk(PoolOf(s.k.objs, kind));
  }

  lemma TakeCaller(s: State, i: nat, taken: Kind)
    requires Enabled(s, Take(i, taken)) && CallerOk(s, s.calls[i])
    ensures CallerOk(Apply(s, Take(i, taken)), Apply(s, Take(i, taken)).calls[i])
  {
    TakeRest(s, i, taken);
  }

  /** A step of call i. */
  predicate OfCall(a: Step, i: nat) { !a.Exec? && !a.Grab? && !a.Release? && a.i == i }

  lemma StepCaller(s: State, a: Step, i: nat)
    requires Enabled(s, a) && i < |s.calls| && CallerOk(s, s.calls[i])
    ensures |Apply(s, a).calls| == |s.calls| && CallerOk(Apply(s, a), Apply(s, a).calls[i])
  {
    StepTasks(s, a);
    if OfCall(a, i) {
      match a
      case Take(_, taken) => TakeCaller(s, i, taken);
      case _ =>
    } else {
      StepElsewhere(s, a, i);
    }
  }

  lemma StepElsewhere(s: State, a: Step, i: nat)
    requires Enabled(s, a) && i < |s.calls| && !OfCall(a, i)
    ensures |Apply(s, a).calls| == |s.calls| && Apply(s, a).calls[i] == s.calls[i]
  {
  }

  /** Tasks are only added. */
  lemma StepTasks(s: State, a: Step)
    requires Enabled(s, a)
    ensures s.k.tasks <= Apply(s, a).k.tasks
    ensures !a.Attach? ==> Apply(s, a).k.tasks == s.k.tasks && Apply(s, a).k.signal == s.k.signal
  {
  }

  lemma AttachSize(s: State, i: nat, g: nat)
    requires Inv(s) && Enabled(s, Attach(i)) && g < |Apply(s, Attach(i)).k.signal|
    ensures var r := Apply(s, Attach(i)).k; r.signal[g].nrThreads == r.signal[g].live == Sum(r.tasks, Belongs(g))
  {
    var r := Apply(s, Attach(i)).k;
    SumAppend(s.k.tasks, Belongs(g), r.tasks[|s.k.tasks|]);
    if g >= |s.k.signal| { SumZero(s.k.tasks, Belongs(g)); }
  }

  /** A thread made visible shares with its group what the group shares. */
  lemma AttachShares(s: State, i: nat, t: nat)
    requires Inv(s) && Enabled(s, Attach(i)) && t < |s.k.tasks|
    ensures var r := Apply(s, Attach(i)).k; var child := r.tasks[|s.k.tasks|];
      && child.signal < |r.signal|
      && (s.k.tasks[t].signal == child.signal ==>
            s.k.tasks[t].mm == child.mm && s.k.tasks[t].sighand == child.sighand && s.k.tasks[t].leader == child.leader)
  {
    var c := s.calls[i];
    assert CallerOk(s, c);
    if CloneThread in c.args.flags {
      assert Shares(c.args, MmKind) && Shares(c.args, SighandKind);
      assert RefOf(c.p, MmKind) == RefOf(s.k.tasks[c.cur], MmKind);
      assert RefOf(c.p, SighandKind) == RefOf(s.k.tasks[c.cur], SighandKind);
    }
  }

  lemma AttachGrouped(s: State, i: nat)
    requires Inv(s) && Enabled(s, Attach(i))
    ensures var r := Apply(s, Attach(i)).k;
      Grouped(r) && forall t :: 0 <= t < |r.tasks| ==> r.tasks[t].signal < |r.signal|
  {
    var r := Apply(s, Attach(i)).k;
    forall t | 0 <= t < |s.k.tasks| ensures AttachedWith(r.tasks[|s.k.tasks|], r.tasks[t]) { AttachShares(s, i, t); }
    forall g | 0 <= g < |r.signal| ensures r.signal[g].nrThreads == r.signal[g].live == Sum(r.tasks, Belongs(g)) {
      AttachSize(s, i, g);
    }
    assert CallerOk(s, s.calls[i]);
    AttachShares(s, i, s.calls[i].cur);
  }

  predicate AttachedWith(p: Task, q: Task)
  {
    p.signal == q.signal ==> p.mm == q.mm && p.sighand == q.sighand && p.leader == q.leader
  }

  lemma StepInv(s: State, a: Step)
    requires Inv(s) && Enabled(s, a)
    ensures Inv(Apply(s, a))
  {
    var r := Apply(s, a);
    forall i | 0 <= i < |r.calls| ensures CallerOk(r, r.calls[i]) { StepCaller(s, a, i); }
    forall kind ensures PoolOk(PoolOf(r.k.objs, kind)) { StepPoolOk(s, a, kind); }
    StepCovered(s, a);
    StepTasks(s, a);
    if a.Attach? { AttachGrouped(s, a.i); }
  }

  lemma UnwindShallow(s: State, a: Step)
    requires Inv(s) && Enabled(s, a)
    ensures a.Unwind? ==> s.calls[a.i].depth <= Depth(CleanupMm)
  {
    if a.Unwind? { assert CallerOk(s, s.calls[a.i]); }
  }

  lemma StepCovered(s: State, a: Step)
    requires Inv(s) && Enabled(s, a)
    ensures Covered(Apply(s, a))
  {
    var r := Apply(s, a);
    forall kind, x ensures Others(r, kind, x) >= 0 { StepOthers(s, a, kind, x); }
    forall u ensures OtherCharges(r, u) >= 0 { StepCharges(s, a, u); }
    UnwindShallow(s, a);
    forall g ensures OtherNodes(r, g) >= 0 { StepNodes(s, a, g); }
  }

  // ---- every interleaving ----

  predicate AllIdle(s: State) { forall i :: 0 <= i < |s.calls| ==> s.calls[i] == Idle }

  ghost predicate Init(s: State)
  {
    Valid(s.k) && AllIdle(s) && forall u :: Sum(s.k.tasks, ChargedTo(u)) <= Count(s.k.objs.nproc, u)
  }

  ghost predicate Follows(trace: seq<State>, steps: seq<Step>, n: nat)
    requires |trace| == |steps| + 1 && n < |steps|
  {
    Enabled(trace[n], steps[n]) && trace[n + 1] == Apply(trace[n], steps[n])
  }

  ghost predicate Run(trace: seq<State>, steps: seq<Step>)
  {
    |trace| == |steps| + 1 && Init(trace[0]) && forall n :: 0 <= n < |steps| ==> Follows(trace, steps, n)
  }

  /** With no call under way, the references not held by tasks are the others'. */
  lemma IdleOthers(s: State, kind: Kind, x: nat)
    requires AllIdle(s)
    ensures Others(s, kind, x) == Surplus(s.k, kind, x)
    ensures OtherCharges(s, x) == Count(s.k.objs.nproc, x) - Sum(s.k.tasks, ChargedTo(x))
    ensures OtherSignals(s) == s.k.objs.signals - |s.k.signal| && OtherNodes(s, x) == Count(s.k.objs.multiprocess, x)
  {
    SumZero(s.calls, HoldsRef(kind, x));
    SumZero(s.calls, HoldsCharge(x));
    SumZero(s.calls, HoldsSignal());
    SumZero(s.calls, HoldsNode(x));
  }

  lemma InitInv(s: State)
    requires Init(s)
    ensures Inv(s)
  {
    forall kind, x ensures Others(s, kind, x) >= 0 { IdleOthers(s, kind, x); }
    forall u ensures OtherCharges(s, u) >= 0 { IdleOthers(s, MmKind, u); }
    forall g ensures OtherNodes(s, g) >= 0 { IdleOthers(s, MmKind, g); }
  }

  lemma {:induction false} RunInv(trace: seq<State>, steps: seq<Step>, n: nat)
    requires Run(trace, steps) && n <= |steps|
    ensures Inv(trace[n])
  {
    if n == 0 {
      InitInv(trace[0]);
    } else {
      RunInv(trace, steps, n - 1);
      assert Follows(trace, steps, n - 1);
      StepInv(trace[n - 1], steps[n - 1]);
    }
  }

  /** What the first n steps add to the references others hold of x. */
  function Net(steps: seq<Step>, n: nat, kind: Kind, x: nat): int
    requires n <= |steps|
  {
    if n == 0 then 0 else Net(steps, n - 1, kind, x) + Held(steps[n - 1], kind, x)
  }

  /** However calls interleave and fail, what others hold is as at the start but for what they took and dropped
      themselves. */
  lemma {:induction false} RunConserves(trace: seq<State>, steps: seq<Step>, n: nat, kind: Kind, x: nat)
    requires Run(trace, steps) && n <= |steps|
    ensures Others(trace[n], kind, x) == Others(trace[0], kind, x) + Net(steps, n, kind, x)
    ensures OtherCharges(trace[n], x) == OtherCharges(trace[0], x)
    ensures OtherSignals(trace[n]) == OtherSignals(trace[0]) && OtherNodes(trace[n], x) == OtherNodes(trace[0], x)
  {
    if n == 0 {
    } else {
      RunConserves(trace, steps, n - 1, kind, x);
      RunInv(trace, steps, n - 1);
      assert Follows(trace, steps, n - 1);
      StepOthers(trace[n - 1], steps[n - 1], kind, x);
      StepCharges(trace[n - 1], steps[n - 1], x);
      StepSignals(trace[n - 1], steps[n - 1]);
      UnwindShallow(trace[n - 1], steps[n - 1]);
      StepNodes(trace[n - 1], steps[n - 1], x);
    }
  }

  /** Once every call has returned, the counts have grown by the new tasks' references and by what others took, no more,
      and groups are whole. */
  lemma Settled(trace: seq<State>, steps: seq<Step>, n: nat, kind: Kind, x: nat)
    requires Run(trace, steps) && n <= |steps| && AllIdle(trace[n])
    ensures var k, r := trace[0].k, trace[n].k;
      && Surplus(r, kind, x) == Surplus(k, kind, x) + Net(steps, n, kind, x)
      && Count(r.objs.nproc, x) - Sum(r.tasks, ChargedTo(x)) == Count(k.objs.nproc, x) - Sum(k.tasks, ChargedTo(x))
      && Count(r.objs.multiprocess, x) == Count(k.objs.multiprocess, x)
    ensures Valid(trace[n].k)
  {
    RunConserves(trace, steps, n, kind, x);
    RunInv(trace, steps, n);
    IdleOthers(trace[0], kind, x);
    IdleOthers(trace[n], kind, x);
    forall kind, x ensures Surplus(trace[n].k, kind, x) >= 0 { IdleOthers(trace[n], kind, x); }
    assert PoolOk(PoolOf(trace[n].k.objs, MmKind)) && PoolOk(PoolOf(trace[n].k.objs, FilesKind));
    assert PoolOk(PoolOf(trace[n].k.objs, FsKind)) && PoolOk(PoolOf(trace[n].k.objs, SighandKind));
  }

  /** No object is freed under a task that refers to it or a call that holds it. */
  lemma RunAlive(trace: seq<State>, steps: seq<Step>, n: nat, kind: Kind, x: nat)
    requires Run(trace, steps) && n <= |steps|
    ensures forall t :: 0 <= t < |trace[n].k.tasks| && RefOf(trace[n].k.tasks[t], kind) == Some(x) ==>
      Count(PoolOf(trace[n].k.objs, kind).refs, x) > 0
    ensures forall i :: 0 <= i < |trace[n].calls| && HoldsRef(kind, x)(trace[n].calls[i]) == 1 ==>
      Count(PoolOf(trace[n].k.objs, kind).refs, x) > 0
  {
    var s := trace[n];
    RunInv(trace, steps, n);
    assert Others(s, kind, x) >= 0;
    forall t | 0 <= t < |s.k.tasks| && RefOf(s.k.tasks[t], kind) == Some(x)
      ensures Count(PoolOf(s.k.objs, kind).refs, x) > 0
    {
      TaskCounted(s, t, kind, x);
    }
    forall i | 0 <= i < |s.calls| && HoldsRef(kind, x)(s.calls[i]) == 1
      ensures Count(PoolOf(s.k.objs, kind).refs, x) > 0
    {
      HeldCounted(s, i, kind, x);
    }
  }

  /** A copy is the call's own: no task refers to it and no call holds it when it is made. */
  lemma CopyFresh(s: State, i: nat, kind: Kind)
    requires Inv(s) && Enabled(s, Take(i, kind)) && !Shares(s.calls[i].args, kind) && RefOf(s.calls[i].p, kind).Some?
    ensures var x := RefOf(Apply(s, Take(i, kind)).calls[i].p, kind);
      && x.Some? && Count(PoolOf(s.k.objs, kind).refs, x.value) == 0
      && Count(PoolOf(Apply(s, Take(i, kind)).k.objs, kind).refs, x.value) == 1
      && (forall t :: 0 <= t < |s.k.tasks| ==> RefOf(s.k.tasks[t], kind) != x)
      && (forall j :: 0 <= j < |s.calls| ==> HoldsRef(kind, x.value)(s.calls[j]) == 0)
  {
    var m := PoolOf(s.k.objs, kind);
    assert PoolOk(m);
    CopiedFresh(m);
    RefWith(s.calls[i].p, kind, m.next, kind);
    PoolWith(s.k.objs, kind, Copied(m), kind);
    assert Others(s, kind, m.next) >= 0;
    forall t | 0 <= t < |s.k.tasks| ensures RefOf(s.k.tasks[t], kind) != Some(m.next) {
      if RefOf(s.k.tasks[t], kind) == Some(m.next) { TaskCounted(s, t, kind, m.next); }
    }
    forall j | 0 <= j < |s.calls| ensures HoldsRef(kind, m.next)(s.calls[j]) == 0 {
      if HoldsRef(kind, m.next)(s.calls[j]) == 1 { HeldCounted(s, j, kind, m.next); }
    }
  }
}
