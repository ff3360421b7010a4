/**
 copy_process(): which of the parent's objects a new task shares, which it gets
 a copy of, and how the chain of unwind labels gives everything back when a
 later step fails.

 The references to one kind of object are a ledger with an entry per reference:
 an object's count is the number of its entries, and it is freed when the last
 one goes.
 */
module Fork {
  import opened Common
  import opened Counting

  datatype Flag =
    | CloneVm | CloneFs | CloneFiles | CloneSighand | CloneThread | CloneParent
    | CloneNewNs | CloneNewUser | CloneNewPid | ClonePidfd | CloneDetached

  /** The steps of copy_process() that can fail for reasons outside this model. */
  datatype Fault =
    | SigPending | DupTask | Creds | NprocLimit | KthreadStruct | Mempolicy | SchedFork | PerfInit | AuditAlloc
    | SecurityAlloc | SemUndo | DupFd | FsAlloc | SighandAlloc | SignalAlloc | DupMm | Namespaces | Io | Thread
    | AllocPid | UnusedFd | PidFile | PutUser | CanFork | DyingNs | FatalSignal

  type Errno = e: int | e > 0 witness 1

  const EINTR: Errno := 4
  const EAGAIN: Errno := 11
  const ENOMEM: Errno := 12
  const EINVAL: Errno := 22
  const ERESTARTNOINTR: Errno := 513

  datatype Task = Task(
    mm: Option<nat>, files: Option<nat>, fs: nat, sighand: nat, signal: nat,
    leader: nat, user: nat, kthread: bool)

  datatype Signal = Signal(nrThreads: int, live: int, sigcnt: int, unkillable: bool)

  /** Everything with a count. */
  datatype Objects = Objects(
    mm: Pool,               // mm_users
    files: Pool,
    fs: Pool,
    sighand: Pool,
    signals: int,           // signal_structs allocated
    nproc: Refs,            // the process-count charge of each user
    multiprocess: Refs)     // an entry per delayed-signal node, naming the signal whose list it is on

  datatype Kern = Kern(
    tasks: seq<Task>,
    signal: seq<Signal>,    // of the visible thread groups
    objs: Objects,
    inExec: set<nat>,       // fs->in_exec
    nrThreads: int, maxThreads: int, totalForks: int)

  datatype Args = Args(flags: set<Flag>, newUser: nat, reaper: bool, pidNsDiffers: bool, timeNsDiffers: bool)

  datatype Outcome = Child(pid: nat) | Failed(err: Errno)

  // ---- reference counts ----

  datatype Refs = NoRefs | Ref(x: nat, others: Refs)

  function Count(r: Refs, x: nat): nat
  {
    match r
    case NoRefs => 0
    case Ref(y, others) => (if x == y then 1 else 0) + Count(others, x)
  }

  function Put(r: Refs, x: nat): Refs
  {
    match r
    case NoRefs => NoRefs
    case Ref(y, others) => if x == y then others else Ref(y, Put(others, x))
  }

  /** Putting a reference lowers that object's count by one and no other. */
  lemma {:induction false} PutCounts(r: Refs, x: nat, y: nat)
    requires Count(r, x) > 0
    ensures Count(Put(r, x), y) == Count(r, y) - if x == y then 1 else 0
  {
    if r.x == x {
    } else {
      PutCounts(r.others, x, y);
    }
  }

  /** All objects of one kind; identities from next on are unused. */
  datatype Pool = Pool(refs: Refs, next: nat)

  predicate PoolOk(m: Pool) { AllBelow(m.refs, m.next) }

  predicate AllBelow(r: Refs, next: nat)
  {
    match r
    case NoRefs => true
    case Ref(x, others) => x < next && AllBelow(others, next)
  }

  lemma {:induction false} Unseen(r: Refs, next: nat, x: nat)
    requires AllBelow(r, next)
    ensures Count(r, x) > 0 ==> x < next
  {
    if r.NoRefs? {
    } else {
      Unseen(r.others, next, x);
    }
  }

  lemma {:induction false} BelowMore(r: Refs, next: nat, more: nat)
    requires AllBelow(r, next) && next <= more
    ensures AllBelow(r, more)
  {
    if r.NoRefs? {
    } else {
      BelowMore(r.others, next, more);
    }
  }

  lemma CopiedFresh(m: Pool)
    requires PoolOk(m)
    ensures PoolOk(Copied(m)) && Count(m.refs, m.next) == 0
  {
    Unseen(m.refs, m.next, m.next);
    BelowMore(m.refs, m.next, m.next + 1);
  }

  function Shared(m: Pool, x: nat): Pool { m.(refs := Ref(x, m.refs)) }

  function Copied(m: Pool): Pool { Pool(Ref(m.next, m.refs), m.next + 1) }

  function Released(m: Pool, x: nat): Pool { m.(refs := Put(m.refs, x)) }

  // ---- what a fork does, and when it fails ----

  /** One kind of object: shared with the parent, or copied, or absent as it is in the parent. */
  predicate Passed(before: Pool, after: Pool, parent: Option<nat>, child: Option<nat>, share: bool)
  {
    if parent.None? then child.None? && after == before
    else
      && child.Some? && after.refs == Ref(child.value, before.refs) && after.next >= before.next
      && (if share then child == parent else Count(before.refs, child.value) == 0)
  }

  predicate AllPassed(k: Objects, r: Objects, parent: Task, child: Task, args: Args)
  {
    && Passed(k.mm, r.mm, parent.mm, child.mm, CloneVm in args.flags)
    && Passed(k.files, r.files, parent.files, child.files, CloneFiles in args.flags)
    && Passed(k.fs, r.fs, Some(parent.fs), Some(child.fs), CloneFs in args.flags)
    && Passed(k.sighand, r.sighand, Some(parent.sighand), Some(child.sighand), CloneSighand in args.flags)
  }

  predicate PoolsOk(k: Objects) { PoolOk(k.mm) && PoolOk(k.files) && PoolOk(k.fs) && PoolOk(k.sighand) }

  predicate Forked(k: Kern, r: Kern, cur: nat, args: Args, pid: nat)
    requires cur < |k.tasks|
  {
    && pid == |k.tasks| && |r.tasks| == pid + 1 && r.tasks == k.tasks + [r.tasks[pid]]
    && var parent, child, f := k.tasks[cur], r.tasks[pid], args.flags;
    && AllPassed(k.objs, r.objs, parent, child, args)
    && SignalPassed(k.signal, r.signal, parent.signal, child.signal, args)
    && child.leader == (if CloneThread in f then parent.leader else pid)
    && child.user == (if CloneNewUser in f then args.newUser else parent.user)
    && child.kthread == parent.kthread
    && r.objs.signals == k.objs.signals + (if CloneThread in f then 0 else 1)
    && r.objs.nproc == Ref(child.user, k.objs.nproc) && r.objs.multiprocess == k.objs.multiprocess
    && r.inExec == k.inExec && r.maxThreads == k.maxThreads
    && r.nrThreads == k.nrThreads + 1 && r.totalForks == k.totalForks + 1
    && PoolsOk(r.objs)
  }

  predicate SignalPassed(before: seq<Signal>, after: seq<Signal>, parent: nat, child: nat, args: Args)
  {
    if CloneThread in args.flags then
      && child == parent < |before|
      && after == before[parent := Joined(before[parent])]
    else
      && child == |before|
      && after == before + [Signal(1, 1, 1, args.reaper)]
  }

  function Joined(g: Signal): Signal
  {
    g.(nrThreads := g.nrThreads + 1, live := g.live + 1, sigcnt := g.sigcnt + 1)
  }

  predicate FlagsOk(k: Kern, cur: nat, args: Args)
    requires cur < |k.tasks| && k.tasks[cur].signal < |k.signal|
  {
    var f := args.flags;
    && !(CloneNewNs in f && CloneFs in f)
    && !(CloneNewUser in f && CloneFs in f)
    && (CloneThread in f ==> CloneSighand in f)
    && (CloneSighand in f ==> CloneVm in f)
    && !(CloneParent in f && k.signal[k.tasks[cur].signal].unkillable)
    && (CloneThread in f ==> CloneNewUser !in f && CloneNewPid !in f && !args.pidNsDiffers)
    && (CloneThread in f || CloneVm in f ==> !args.timeNsDiffers)
    && (ClonePidfd in f ==> CloneDetached !in f && CloneThread !in f)
  }

  /** What of the parent's state bears on the outcome. */
  datatype Env = Env(full: bool, exec: bool, kthread: bool, hasFiles: bool, hasMm: bool)

  function EnvOf(k: Kern, p: Task): Env
  {
    Env(k.nrThreads >= k.maxThreads, p.fs in k.inExec, p.kthread, p.files.Some?, p.mm.Some?)
  }

  /** The error copy_process() returns, None on success: the first applicable failure decides. */
  function Verdict(k: Kern, cur: nat, args: Args, faults: map<Fault, Errno>): Option<Errno>
    requires cur < |k.tasks| && k.tasks[cur].signal < |k.signal|
  {
    if !FlagsOk(k, cur, args) then Some(EINVAL) else SetupVerdict(EnvOf(k, k.tasks[cur]), args, faults)
  }

  function SetupVerdict(env: Env, args: Args, faults: map<Fault, Errno>): Option<Errno>
  {
    if StartVerdict(faults).Some? then StartVerdict(faults) else ObjectsVerdict(env, args, faults)
  }

  /** A signal to handle first, dup_task_struct(), copy_creds(). */
  function StartVerdict(faults: map<Fault, Errno>): Option<Errno>
  {
    if SigPending in faults then Some(ERESTARTNOINTR)
    else if DupTask in faults then Some(ENOMEM)
    else if Creds in faults then Some(faults[Creds])
    else None
  }

  function ObjectsVerdict(env: Env, args: Args, faults: map<Fault, Errno>): Option<Errno>
  {
    if EarlyVerdict(env, faults).Some? then EarlyVerdict(env, faults)
    else if TablesVerdict(env, args, faults).Some? then TablesVerdict(env, args, faults)
    else GroupVerdict(env, args, faults)
  }

  /** copy_files(), copy_fs(), copy_sighand(). */
  function TablesVerdict(env: Env, args: Args, faults: map<Fault, Errno>): Option<Errno>
  {
    if env.hasFiles && CloneFiles !in args.flags && DupFd in faults then Some(faults[DupFd])
    else if CloneFs in args.flags && env.exec then Some(EAGAIN)
    else if CloneFs !in args.flags && FsAlloc in faults then Some(ENOMEM)
    else if CloneSighand !in args.flags && SighandAlloc in faults then Some(ENOMEM)
    else None
  }

  /** copy_signal(), copy_mm() and everything after. */
  function GroupVerdict(env: Env, args: Args, faults: map<Fault, Errno>): Option<Errno>
  {
    if CloneThread !in args.flags && SignalAlloc in faults then Some(ENOMEM)
    else if env.hasMm && CloneVm !in args.flags && DupMm in faults then Some(ENOMEM)
    else LateVerdict(args, faults)
  }

  /** Between the charge and copy_files(): limits, and steps on objects outside this model. */
  function EarlyVerdict(env: Env, faults: map<Fault, Errno>): Option<Errno>
  {
    if NprocLimit in faults || env.full then Some(EAGAIN)
    else if env.kthread && KthreadStruct in faults then Some(EAGAIN)
    else if Mempolicy in faults then Some(faults[Mempolicy])
    else if SchedFork in faults then Some(faults[SchedFork])
    else if PerfInit in faults then Some(faults[PerfInit])
    else if AuditAlloc in faults then Some(faults[AuditAlloc])
    else if SecurityAlloc in faults then Some(faults[SecurityAlloc])
    else if SemUndo in faults then Some(faults[SemUndo])
    else None
  }

  /** After copy_mm(). */
  function LateVerdict(args: Args, faults: map<Fault, Errno>): Option<Errno>
  {
    if Namespaces in faults then Some(faults[Namespaces])
    else if Io in faults then Some(faults[Io])
    else if Thread in faults then Some(faults[Thread])
    else if AllocPid in faults then Some(faults[AllocPid])
    else if ClonePidfd in args.flags && UnusedFd in faults then Some(faults[UnusedFd])
    else if ClonePidfd in args.flags && PidFile in faults then Some(faults[PidFile])
    else if ClonePidfd in args.flags && PutUser in faults then Some(faults[PutUser])
    else if CanFork in faults then Some(faults[CanFork])
    else if DyingNs in faults then Some(ENOMEM)
    else if FatalSignal in faults then Some(EINTR)
    else None
  }

  /** Whether a step that would fail is taken at all. */
  predicate Reached(f: Fault, env: Env, args: Args)
  {
    match f
    case KthreadStruct => env.kthread
    case DupFd => env.hasFiles && CloneFiles !in args.flags
    case FsAlloc => CloneFs !in args.flags
    case SighandAlloc => CloneSighand !in args.flags
    case SignalAlloc => CloneThread !in args.flags
    case DupMm => env.hasMm && CloneVm !in args.flags
    case UnusedFd => ClonePidfd in args.flags
    case PidFile => ClonePidfd in args.flags
    case PutUser => ClonePidfd in args.flags
    case _ => true
  }

  /** A call succeeds exactly when the flags are valid, there is room, no shared fs is in exec and no step it takes
      fails. */
  lemma SucceedsIff(k: Kern, cur: nat, args: Args, faults: map<Fault, Errno>)
    requires cur < |k.tasks| && k.tasks[cur].signal < |k.signal|
    ensures Verdict(k, cur, args, faults).None? <==>
      var env := EnvOf(k, k.tasks[cur]);
      && FlagsOk(k, cur, args) && !env.full && !(CloneFs in args.flags && env.exec)
      && forall f :: f in faults ==> !Reached(f, env, args)
  {
  }

  // ---- what every fork keeps ----

  /** The four kinds of counted object a task refers to. */
  datatype Kind = MmKind | FilesKind | FsKind | SighandKind

  function RefOf(p: Task, kind: Kind): Option<nat>
  {
    match kind
    case MmKind => p.mm
    case FilesKind => p.files
    case FsKind => Some(p.fs)
    case SighandKind => Some(p.sighand)
  }

  function PoolOf(o: Objects, kind: Kind): Pool
  {
    match kind
    case MmKind => o.mm
    case FilesKind => o.files
    case FsKind => o.fs
    case SighandKind => o.sighand
  }

  function Refers(kind: Kind, x: nat): Task -> int { (p: Task) => if RefOf(p, kind) == Some(x) then 1 else 0 }

  function Belongs(g: nat): Task -> int { (p: Task) => if p.signal == g then 1 else 0 }

  /** References to an object held by others than tasks. */
  ghost function Surplus(k: Kern, kind: Kind, x: nat): int
  {
    Count(PoolOf(k.objs, kind).refs, x) - Sum(k.tasks, Refers(kind, x))
  }

  /** The same for the signal structure of group g; a group not there yet has none. */
  ghost function SignalSurplus(k: Kern, g: nat): int
  {
    if g < |k.signal| then k.signal[g].sigcnt - Sum(k.tasks, Belongs(g)) else 0
  }

  /** Every reference count covers the tasks that use the object. */
  ghost predicate Counted(k: Kern)
  {
    forall kind, x :: Surplus(k, kind, x) >= 0
  }

  /** Tasks of one thread group share address space, handlers and leader; its size is on record. */
  ghost predicate Grouped(k: Kern)
  {
    && (forall t, u :: 0 <= t < |k.tasks| && 0 <= u < |k.tasks| && k.tasks[t].signal == k.tasks[u].signal ==>
          && k.tasks[t].mm == k.tasks[u].mm && k.tasks[t].sighand == k.tasks[u].sighand
          && k.tasks[t].leader == k.tasks[u].leader)
    && (forall g :: 0 <= g < |k.signal| ==> k.signal[g].nrThreads == k.signal[g].live == Sum(k.tasks, Belongs(g)))
  }

  ghost predicate Valid(k: Kern)
  {
    && PoolsOk(k.objs) && k.objs.signals == |k.signal|
    && (forall t :: 0 <= t < |k.tasks| ==> k.tasks[t].signal < |k.signal|)
    && Counted(k) && Grouped(k)
  }

  /** A fork adds exactly the references it adds users: what others hold of any object is unchanged. */
  lemma ForkSurplus(k: Kern, r: Kern, cur: nat, args: Args, pid: nat, kind: Kind, x: nat)
    requires cur < |k.tasks| && Forked(k, r, cur, args, pid)
    ensures Surplus(r, kind, x) == Surplus(k, kind, x)
  {
    SumAppend(k.tasks, Refers(kind, x), r.tasks[pid]);
  }

  lemma ForkGrouped(k: Kern, r: Kern, cur: nat, args: Args, pid: nat)
    requires Valid(k) && cur < |k.tasks| && k.tasks[cur].signal < |k.signal| && FlagsOk(k, cur, args)
    requires Forked(k, r, cur, args, pid)
    ensures Grouped(r)
  {
    forall g | 0 <= g < |r.signal| ensures r.signal[g].nrThreads == r.signal[g].live == Sum(r.tasks, Belongs(g)) {
      ForkGroupSize(k, r, cur, args, pid, g);
    }
  }

  lemma ForkGroupSize(k: Kern, r: Kern, cur: nat, args: Args, pid: nat, g: nat)
    requires Valid(k) && cur < |k.tasks| && Forked(k, r, cur, args, pid) && g < |r.signal|
    ensures r.signal[g].nrThreads == r.signal[g].live == Sum(r.tasks, Belongs(g))
    ensures SignalSurplus(r, g) == SignalSurplus(k, g)
  {
    SumAppend(k.tasks, Belongs(g), r.tasks[pid]);
    if g >= |k.signal| {
      SumZero(k.tasks, Belongs(g));
    }
  }

  lemma ForkValid(k: Kern, r: Kern, cur: nat, args: Args, pid: nat)
    requires Valid(k) && cur < |k.tasks| && FlagsOk(k, cur, args)
    requires Forked(k, r, cur, args, pid)
    ensures Valid(r)
  {
    forall kind, x ensures Surplus(r, kind, x) >= 0 { ForkSurplus(k, r, cur, args, pid, kind, x); }
    ForkGrouped(k, r, cur, args, pid);
  }

  /** The same objects with the same references; only unused identities were skipped. */
  predicate Restored(k: Objects, r: Objects)
  {
    && Same(k.mm, r.mm) && Same(k.files, r.files) && Same(k.fs, r.fs) && Same(k.sighand, r.sighand)
    && r.signals == k.signals && r.nproc == k.nproc && r.multiprocess == k.multiprocess
  }

  predicate Same(m: Pool, n: Pool) { n.refs == m.refs && n.next >= m.next }

  lemma RestoredValid(k: Kern, o: Objects)
    requires Valid(k) && Restored(k.objs, o)
    ensures Valid(k.(objs := o))
  {
    BelowMore(o.mm.refs, k.objs.mm.next, o.mm.next);
    BelowMore(o.files.refs, k.objs.files.next, o.files.next);
    BelowMore(o.fs.refs, k.objs.fs.next, o.fs.next);
    BelowMore(o.sighand.refs, k.objs.sighand.next, o.sighand.next);
    forall kind, x ensures Surplus(k.(objs := o), kind, x) >= 0 { assert Surplus(k, kind, x) >= 0; }
  }

  lemma CurrentIssued(k: Kern, cur: nat)
    requires Valid(k) && cur < |k.tasks|
    ensures AllIssued(k.objs, k.tasks[cur])
  {
    ReferenceIssued(k, cur, MmKind);
    ReferenceIssued(k, cur, FilesKind);
    ReferenceIssued(k, cur, FsKind);
    ReferenceIssued(k, cur, SighandKind);
  }

  lemma ReferenceIssued(k: Kern, cur: nat, kind: Kind)
    requires Valid(k) && cur < |k.tasks|
    ensures Issued(RefOf(k.tasks[cur], kind), PoolOf(k.objs, kind))
  {
    var x := RefOf(k.tasks[cur], kind);
    if x.Some? {
      assert Surplus(k, kind, x.value) >= 0;
      SumBounds(k.tasks, Refers(kind, x.value));
      assert Refers(kind, x.value)(k.tasks[cur]) == 1;
      Unseen(PoolOf(k.objs, kind).refs, PoolOf(k.objs, kind).next, x.value);
    }
  }

  /** x is an identity that has been given out. */
  predicate Issued(x: Option<nat>, m: Pool) { x.Some? ==> x.value < m.next }

  predicate AllIssued(k: Objects, p: Task)
  {
    Issued(p.mm, k.mm) && Issued(p.files, k.files) && Issued(Some(p.fs), k.fs) && Issued(Some(p.sighand), k.sighand)
  }

  // ---- copy_process() itself ----

  /** One call: all or nothing. */
  predicate Called(k: Kern, r: Kern, cur: nat, args: Args, out: Outcome)
    requires cur < |k.tasks| && k.tasks[cur].signal < |k.signal|
  {
    match out
    case Failed(_) => r == k.(objs := r.objs) && Restored(k.objs, r.objs)
    case Child(pid) => FlagsOk(k, cur, args) && Forked(k, r, cur, args, pid)
  }

  /** How far the set-up got: the label that the failing step jumps to. */
  datatype Label = ForkOut | CleanupCount | CleanupFiles | CleanupFs | CleanupSighand | CleanupSignal | CleanupMm

  function Depth(l: Label): nat
  {
    match l
    case ForkOut => 0
    case CleanupCount => 1
    case CleanupFiles => 2
    case CleanupFs => 3
    case CleanupSighand => 4
    case CleanupSignal => 5
    case CleanupMm => 6
  }

  /** References to one kind of object while a task is set up: one more than before, once it is held. */
  predicate Holds(before: Pool, now: Pool, held: bool, x: Option<nat>)
  {
    now.refs == (if held && x.Some? then Ref(x.value, before.refs) else before.refs) && now.next >= before.next
  }

  /** What a task being set up holds when the label for undoing it is `to`. */
  predicate Acquired(k: Objects, r: Objects, to: Label, g: nat, p: Task, args: Args)
  {
    && r.multiprocess == (if CloneThread in args.flags then k.multiprocess else Ref(g, k.multiprocess))
    && r.nproc == (if Depth(to) >= Depth(CleanupCount) then Ref(p.user, k.nproc) else k.nproc)
    && ObjectsHeld(k, r, to, p, args)
  }

  predicate ObjectsHeld(k: Objects, r: Objects, to: Label, p: Task, args: Args)
  {
    && Holds(k.files, r.files, Depth(to) >= Depth(CleanupFiles), p.files)
    && Holds(k.fs, r.fs, Depth(to) >= Depth(CleanupFs), Some(p.fs))
    && Holds(k.sighand, r.sighand, Depth(to) >= Depth(CleanupSighand), Some(p.sighand))
    && r.signals == k.signals + (if Depth(to) >= Depth(CleanupSignal) && CloneThread !in args.flags then 1 else 0)
    && Holds(k.mm, r.mm, Depth(to) >= Depth(CleanupMm), p.mm)
  }

  method CopyFiles(o: Objects, p: Task, flags: set<Flag>, faults: map<Fault, Errno>)
    returns (err: Option<Errno>, q: Task, r: Objects)
    requires PoolOk(o.files) && Issued(p.files, o.files)
    ensures err == if p.files.Some? && CloneFiles !in flags && DupFd in faults then Some(faults[DupFd]) else None
    ensures q == p.(files := q.files) && r == o.(files := r.files)
    ensures err.Some? ==> r == o
    ensures err.None? ==> Passed(o.files, r.files, p.files, q.files, CloneFiles in flags) && PoolOk(r.files)
  {
    err, q, r := None, p, o;
    if p.files.None? { return; }
    if CloneFiles in flags {
      r := o.(files := Shared(o.files, p.files.value));
      return;
    }
    if DupFd in faults {
      err := Some(faults[DupFd]);
      return;
    }
    CopiedFresh(o.files);
    q, r := p.(files := Some(o.files.next)), o.(files := Copied(o.files));
  }

  method CopyFs(o: Objects, inExec: set<nat>, p: Task, flags: set<Flag>, faults: map<Fault, Errno>)
    returns (err: Option<Errno>, q: Task, r: Objects)
    requires PoolOk(o.fs) && Issued(Some(p.fs), o.fs)
    ensures err == if CloneFs in flags && p.fs in inExec then Some(EAGAIN)
                   else if CloneFs !in flags && FsAlloc in faults then Some(ENOMEM) else None
    ensures q == p.(fs := q.fs) && r == o.(fs := r.fs)
    ensures err.Some? ==> r == o
    ensures err.None? ==> Passed(o.fs, r.fs, Some(p.fs), Some(q.fs), CloneFs in flags) && PoolOk(r.fs)
  {
    err, q, r := None, p, o;
    if CloneFs in flags {
      if p.fs in inExec {
        err := Some(EAGAIN);
        return;
      }
      r := o.(fs := Shared(o.fs, p.fs));
      return;
    }
    if FsAlloc in faults {
      err := Some(ENOMEM);
      return;
    }
    CopiedFresh(o.fs);
    q, r := p.(fs := o.fs.next), o.(fs := Copied(o.fs));
  }

  method CopySighand(o: Objects, p: Task, flags: set<Flag>, faults: map<Fault, Errno>)
    returns (err: Option<Errno>, q: Task, r: Objects)
    requires PoolOk(o.sighand) && Issued(Some(p.sighand), o.sighand)
    ensures err == if CloneSighand !in flags && SighandAlloc in faults then Some(ENOMEM) else None
    ensures q == p.(sighand := q.sighand) && r == o.(sighand := r.sighand)
    ensures err.Some? ==> r == o
    ensures err.None? ==>
      Passed(o.sighand, r.sighand, Some(p.sighand), Some(q.sighand), CloneSighand in flags) && PoolOk(r.sighand)
  {
    err, q, r := None, p, o;
    if CloneSighand in flags {
      r := o.(sighand := Shared(o.sighand, p.sighand));
      return;
    }
    if SighandAlloc in faults {
      err := Some(ENOMEM);
      return;
    }
    CopiedFresh(o.sighand);
    q, r := p.(sighand := o.sighand.next), o.(sighand := Copied(o.sighand));
  }

  /** A new signal_struct is private to the task until the task becomes visible as group number `group`. */
  method CopySignal(o: Objects, p: Task, group: nat, flags: set<Flag>, faults: map<Fault, Errno>)
    returns (err: Option<Errno>, q: Task, r: Objects)
    ensures err == if CloneThread !in flags && SignalAlloc in faults then Some(ENOMEM) else None
    ensures q == p.(signal := if err.Some? || CloneThread in flags then p.signal else group)
    ensures r == o.(signals := o.signals + if err.Some? || CloneThread in flags then 0 else 1)
  {
    err, q, r := None, p, o;
    if CloneThread in flags { return; }
    if SignalAlloc in faults {
      err := Some(ENOMEM);
      return;
    }
    q, r := p.(signal := group), o.(signals := o.signals + 1);
  }

  method CopyMm(o: Objects, p: Task, flags: set<Flag>, faults: map<Fault, Errno>)
    returns (err: Option<Errno>, q: Task, r: Objects)
    requires PoolOk(o.mm) && Issued(p.mm, o.mm)
    ensures err == if p.mm.Some? && CloneVm !in flags && DupMm in faults then Some(ENOMEM) else None
    ensures q == p.(mm := q.mm) && r == o.(mm := r.mm)
    ensures err.Some? ==> r == o
    ensures err.None? ==> Passed(o.mm, r.mm, p.mm, q.mm, CloneVm in flags) && PoolOk(r.mm)
  {
    err, q, r := None, p.(mm := None), o;
    if p.mm.None? { return; }
    if CloneVm in flags {
      q, r := p, o.(mm := Shared(o.mm, p.mm.value));
      return;
    }
    if DupMm in faults {
      err := Some(ENOMEM);
      return;
    }
    CopiedFresh(o.mm);
    q, r := p.(mm := Some(o.mm.next)), o.(mm := Copied(o.mm));
  }

  /** copy_files(), copy_fs() and copy_sighand(). */
  method CopyTables(o: Objects, inExec: set<nat>, parent: Task, env: Env, args: Args, faults: map<Fault, Errno>)
    returns (err: Option<Errno>, to: Label, p: Task, r: Objects)
    requires PoolsOk(o) && AllIssued(o, parent)
    requires env.hasFiles == parent.files.Some? && env.exec == (parent.fs in inExec)
    ensures err == TablesVerdict(env, args, faults)
    ensures p == parent.(files := p.files, fs := p.fs, sighand := p.sighand)
    ensures r == o.(files := r.files, fs := r.fs, sighand := r.sighand)
    ensures Depth(CleanupCount) <= Depth(to) <= Depth(CleanupSighand)
    ensures Holds(o.files, r.files, Depth(to) >= Depth(CleanupFiles), p.files)
    ensures Holds(o.fs, r.fs, Depth(to) >= Depth(CleanupFs), Some(p.fs))
    ensures Holds(o.sighand, r.sighand, Depth(to) >= Depth(CleanupSighand), Some(p.sighand))
    ensures err.None? ==>
      && to == CleanupSighand && PoolsOk(r)
      && Passed(o.files, r.files, parent.files, p.files, CloneFiles in args.flags)
      && Passed(o.fs, r.fs, Some(parent.fs), Some(p.fs), CloneFs in args.flags)
      && Passed(o.sighand, r.sighand, Some(parent.sighand), Some(p.sighand), CloneSighand in args.flags)
  {
    to := CleanupCount;
    err, p, r := CopyFiles(o, parent, args.flags, faults);
    if err.Some? { return; }
    to := CleanupFiles;
    err, p, r := CopyFs(r, inExec, p, args.flags, faults);
    if err.Some? { return; }
    to := CleanupFs;
    err, p, r := CopySighand(r, p, args.flags, faults);
    if err.Some? { return; }
    to := CleanupSighand;
  }

  /** copy_signal(), copy_mm() and everything after. */
  method CopyGroup(o: Objects, group: nat, parent: Task, env: Env, args: Args, faults: map<Fault, Errno>)
    returns (err: Option<Errno>, to: Label, p: Task, r: Objects)
    requires PoolOk(o.mm) && Issued(parent.mm, o.mm) && env.hasMm == parent.mm.Some?
    ensures err == GroupVerdict(env, args, faults)
    ensures p == parent.(mm := p.mm, signal := p.signal) && r == o.(mm := r.mm, signals := r.signals)
    ensures Depth(CleanupSighand) <= Depth(to) <= Depth(CleanupMm)
    ensures r.signals == o.signals + if Depth(to) >= Depth(CleanupSignal) && CloneThread !in args.flags then 1 else 0
    ensures Holds(o.mm, r.mm, Depth(to) >= Depth(CleanupMm), p.mm)
    ensures err.None? ==>
      && to == CleanupMm && PoolOk(r.mm)
      && Passed(o.mm, r.mm, parent.mm, p.mm, CloneVm in args.flags)
      && p.signal == if CloneThread in args.flags then parent.signal else group
  {
    to := CleanupSighand;
    err, p, r := CopySignal(o, parent, group, args.flags, faults);
    if err.Some? { return; }
    to := CleanupSignal;
    err, p, r := CopyMm(r, p, args.flags, faults);
    if err.Some? { return; }
    to := CleanupMm;
    err := LateVerdict(args, faults);
  }

  /** The set-up steps after the charge. */
  method CopyObjects(o: Objects, inExec: set<nat>, group: nat, parent: Task, env: Env, args: Args,
                     faults: map<Fault, Errno>)
    returns (err: Option<Errno>, to: Label, p: Task, r: Objects)
    requires PoolsOk(o) && AllIssued(o, parent)
    requires env.hasFiles == parent.files.Some? && env.hasMm == parent.mm.Some? && env.exec == (parent.fs in inExec)
    ensures err == ObjectsVerdict(env, args, faults)
    ensures p == parent.(files := p.files, fs := p.fs, sighand := p.sighand, mm := p.mm, signal := p.signal)
    ensures Depth(to) >= Depth(CleanupCount) && ObjectsHeld(o, r, to, p, args)
    ensures r.nproc == o.nproc && r.multiprocess == o.multiprocess
    ensures err.None? ==>
      && to == CleanupMm && PoolsOk(r) && AllPassed(o, r, parent, p, args)
      && p.signal == if CloneThread in args.flags then parent.signal else group
  {
    to, p, r := CleanupCount, parent, o;
    err := EarlyVerdict(env, faults);
    if err.Some? { return; }
    err, to, p, r := CopyTables(o, inExec, p, env, args, faults);
    if err.Some? { return; }
    err, to, p, r := CopyGroup(r, group, p, env, args, faults);
  }

  /** The set-up steps in order; a failure names the label that undoes what is held so far. */
  method Setup(k: Kern, parent: Task, args: Args, faults: map<Fault, Errno>)
    returns (err: Option<Errno>, to: Label, p: Task, o: Objects)
    requires PoolsOk(k.objs) && AllIssued(k.objs, parent)
    ensures err == SetupVerdict(EnvOf(k, parent), args, faults)
    ensures Acquired(k.objs, o, to, parent.signal, p, args)
    ensures err.None? ==> to == CleanupMm && Prepared(k, o, parent, p, args)
  {
    p, o := parent, k.objs;
    var env := EnvOf(k, parent);
    if CloneThread !in args.flags { o := o.(multiprocess := Ref(parent.signal, o.multiprocess)); }
    err, to := StartVerdict(faults), ForkOut;
    if err.Some? { return; }
    if CloneNewUser in args.flags { p := p.(user := args.newUser); }
    o := o.(nproc := Ref(p.user, o.nproc));
    err, to, p, o := CopyObjects(o, k.inExec, |k.signal|, p, env, args, faults);
  }

  /** The unwind labels, each falling through to the next. */
  method Unwind(to: Label, g: nat, p: Task, args: Args, o: Objects, ghost k: Objects) returns (r: Objects)
    requires Acquired(k, o, to, g, p, args)
    ensures Restored(k, r)
  {
    r := o;
    if Depth(to) >= Depth(CleanupMm) && p.mm.Some? { r := r.(mm := Released(r.mm, p.mm.value)); }
    if Depth(to) >= Depth(CleanupSignal) && CloneThread !in args.flags { r := r.(signals := r.signals - 1); }
    if Depth(to) >= Depth(CleanupSighand) { r := r.(sighand := Released(r.sighand, p.sighand)); }
    if Depth(to) >= Depth(CleanupFs) { r := r.(fs := Released(r.fs, p.fs)); }
    if Depth(to) >= Depth(CleanupFiles) && p.files.Some? { r := r.(files := Released(r.files, p.files.value)); }
    if Depth(to) >= Depth(CleanupCount) { r := r.(nproc := Put(r.nproc, p.user)); }
    if CloneThread !in args.flags { r := r.(multiprocess := Put(r.multiprocess, g)); }
  }

  /** A thread is counted into its parent's group, a process starts a group of its own. */
  method JoinGroup(signal: seq<Signal>, g: nat, args: Args) returns (r: seq<Signal>)
    requires g < |signal|
    ensures SignalPassed(signal, r, g, if CloneThread in args.flags then g else |signal|, args)
  {
    if CloneThread in args.flags {
      r := signal[g := Joined(signal[g])];
    } else {
      r := signal + [Signal(1, 1, 1, args.reaper)];
    }
  }

  /** A task fully set up but not yet visible. */
  predicate Prepared(k: Kern, o: Objects, parent: Task, p: Task, args: Args)
  {
    && AllPassed(k.objs, o, parent, p, args) && PoolsOk(o)
    && p.user == (if CloneNewUser in args.flags then args.newUser else parent.user)
    && p.leader == parent.leader && p.kthread == parent.kthread
    && p.signal == (if CloneThread in args.flags then parent.signal else |k.signal|)
  }

  lemma AttachForked(k: Kern, r: Kern, cur: nat, p: Task, o: Objects, args: Args)
    requires cur < |k.tasks|
    requires Acquired(k.objs, o, CleanupMm, k.tasks[cur].signal, p, args) && Prepared(k, o, k.tasks[cur], p, args)
    requires SignalPassed(k.signal, r.signal, k.tasks[cur].signal, p.signal, args)
    requires r.tasks == k.tasks + [if CloneThread in args.flags then p else p.(leader := |k.tasks|)]
    requires r.objs == if CloneThread in args.flags then o
      else o.(multiprocess := Put(o.multiprocess, k.tasks[cur].signal))
    requires r.inExec == k.inExec && r.maxThreads == k.maxThreads
    requires r.nrThreads == k.nrThreads + 1 && r.totalForks == k.totalForks + 1
    ensures Forked(k, r, cur, args, |k.tasks|)
  {
  }

  class Kernel {
    var tasks: seq<Task>
    var signal: seq<Signal>
    var objs: Objects
    var inExec: set<nat>
    var nrThreads: int
    var maxThreads: int
    var totalForks: int

    function Now(): Kern
      reads this
    {
      Kern(tasks, signal, objs, inExec, nrThreads, maxThreads, totalForks)
    }

    /** All of copy_process(): nothing happens, or exactly what the flags say, and the first failing step names the
        error. */
    method CopyProcess(cur: nat, args: Args, faults: map<Fault, Errno>) returns (r: Outcome)
      requires Valid(Now()) && cur < |tasks| && tasks[cur].signal < |signal|
      modifies this
      ensures Verdict(old(Now()), cur, args, faults) == if r.Failed? then Some(r.err) else None
      ensures Called(old(Now()), Now(), cur, args, r)
      ensures Valid(Now())
    {
      if !FlagsOk(Now(), cur, args) { return Failed(EINVAL); }
      CurrentIssued(Now(), cur);
      var g := tasks[cur].signal;
      var err, to, p, o := Setup(Now(), tasks[cur], args, faults);
      if err.Some? {
        objs := Unwind(to, g, p, args, o, objs);
        RestoredValid(old(Now()), objs);
        return Failed(err.value);
      }
      var pid := |tasks|;
      tasks := tasks + [if CloneThread in args.flags then p else p.(leader := pid)];
      signal := JoinGroup(signal, g, args);
      objs := if CloneThread in args.flags then o else o.(multiprocess := Put(o.multiprocess, g));
      nrThreads, totalForks := nrThreads + 1, totalForks + 1;
      AttachForked(old(Now()), Now(), cur, p, o, args);
      ForkValid(old(Now()), Now(), cur, args, pid);
      return Child(pid);
    }
  }

  // ---- any sequence of calls ----

  datatype Call = Call(cur: nat, args: Args, out: Outcome)

  predicate Follows(trace: seq<Kern>, calls: seq<Call>, n: nat)
    requires |trace| == |calls| + 1 && n < |calls|
  {
    var k, c := trace[n], calls[n];
    c.cur < |k.tasks| && k.tasks[c.cur].signal < |k.signal| && Called(k, trace[n + 1], c.cur, c.args, c.out)
  }

  ghost predicate Run(trace: seq<Kern>, calls: seq<Call>)
  {
    |trace| == |calls| + 1 && Valid(trace[0]) && forall n :: 0 <= n < |calls| ==> Follows(trace, calls, n)
  }

  lemma CallKeeps(k: Kern, r: Kern, cur: nat, args: Args, out: Outcome, kind: Kind, x: nat)
    requires Valid(k) && cur < |k.tasks| && k.tasks[cur].signal < |k.signal| && Called(k, r, cur, args, out)
    ensures Valid(r) && Surplus(r, kind, x) == Surplus(k, kind, x) && SignalSurplus(r, x) == SignalSurplus(k, x)
  {
    match out
    case Failed(_) => RestoredValid(k, r.objs);
    case Child(pid) =>
      ForkValid(k, r, cur, args, pid);
      ForkSurplus(k, r, cur, args, pid, kind, x);
      if x < |r.signal| { ForkGroupSize(k, r, cur, args, pid, x); }
  }

  /** However the calls go, groups stay together and counted, and nothing leaks: what others hold is as at the start. */
  lemma {:induction false} RunKeeps(trace: seq<Kern>, calls: seq<Call>, n: nat, kind: Kind, x: nat)
    requires Run(trace, calls) && n <= |calls|
    ensures Valid(trace[n])
    ensures Surplus(trace[n], kind, x) == Surplus(trace[0], kind, x)
      && SignalSurplus(trace[n], x) == SignalSurplus(trace[0], x)
  {
    if n == 0 {
    } else {
      RunKeeps(trace, calls, n - 1, kind, x);
      assert Follows(trace, calls, n - 1);
      var c := calls[n - 1];
      CallKeeps(trace[n - 1], trace[n], c.cur, c.args, c.out, kind, x);
    }
  }
}
