/**
 The runqueue-lock indirection of core scheduling: raw_spin_rq_lock_nested(),
 raw_spin_rq_trylock() and raw_spin_rq_unlock() against sched_core_get() and
 sched_core_put() turning core scheduling on and off underneath them, for any
 number of lockers, users and cores.

 Each lockless read (the static key, the name of the lock, the recheck), each
 lock acquisition and each write of core_enabled is a step of its own.
 */
module CoreLock {

  type Cpu = nat
  type Locker = nat

  datatype Owner = Free | Held(t: Locker) | Flipper

  /** A context inside raw_spin_rq_lock_nested(rq of cpu c), preemption disabled unless Idle. */
  datatype Pc =
    | Idle
    | Entered(c: Cpu)
    | Direct(c: Cpu)             // saw core scheduling disabled
    | Spin(c: Cpu)               // about to read the lock's name
    | Want(c: Cpu, l: Cpu)
    | Got(c: Cpu, l: Cpu)        // about to recheck the name
    | Hold(c: Cpu, l: Cpu)       // returned

  /** What the holder of sched_core_mutex is doing. */
  datatype Admin =
    | NoAdmin
    | GetLocked
    | Syncing(waiting: set<Locker>)                                    // synchronize_rcu()
    | Flipping(on: bool, left: set<Cpu>)                               // next core of __sched_core_flip()
    | Locking(on: bool, left: set<Cpu>, core: set<Cpu>, held: set<Cpu>)
    | Writing(on: bool, left: set<Cpu>, core: set<Cpu>, written: set<Cpu>)
    | Unlocking(on: bool, left: set<Cpu>, held: set<Cpu>)

  datatype Work = NoWork | Pending | Blocked   // __sched_core_put()

  datatype State = State(
    key: bool,              // __sched_core_enabled
    leader: seq<Cpu>,       // rq->core
    enabled: seq<bool>,     // rq->core_enabled
    owner: seq<Owner>,      // rq->__lock
    pcs: seq<Pc>,
    admin: Admin,
    count: nat,             // sched_core_count
    refs: nat,              // users between get and put
    work: Work)

  datatype Step =
    | Enter(t: Locker, c: Cpu)
    | ReadKey(t: Locker)
    | TakeDirect(t: Locker)
    | ReadName(t: Locker)
    | Take(t: Locker)
    | Recheck(t: Locker)
    | GiveUp(t: Locker)          // a failed trylock
    | Unlock(t: Locker)
    | GetFast
    | GetSlow
    | GetDecide
    | SyncDone
    | FlipNext(c: Cpu)
    | FlipLock(c: Cpu)
    | FlipWrite(c: Cpu)
    | FlipUnlock(c: Cpu)
    | FlipDone
    | Put
    | WorkTry
    | WorkSlow

  /** __rq_lockp() */
  function Name(s: State, c: Cpu): Cpu
    requires c < |s.enabled| && c < |s.leader|
  {
    if s.enabled[c] then s.leader[c] else c
  }

  /** rq_lockp(), which also looks at the static key */
  function LockToRelease(s: State, c: Cpu): Cpu
    requires c < |s.enabled| && c < |s.leader|
  {
    if s.key && s.enabled[c] then s.leader[c] else c
  }

  /** cpu_smt_mask() */
  function Siblings(leader: seq<Cpu>, c: Cpu): set<Cpu>
    requires c < |leader|
  {
    set d | 0 <= d < |leader| && leader[d] == leader[c]
  }

  predicate Shape(s: State)
  {
    && |s.leader| == |s.enabled| == |s.owner|
    && (forall c :: 0 <= c < |s.leader| ==> s.leader[c] < |s.leader| && s.leader[s.leader[c]] == s.leader[c])
    && (forall t :: 0 <= t < |s.pcs| ==> PcInRange(s, s.pcs[t]))
  }

  predicate PcInRange(s: State, pc: Pc)
  {
    match pc
    case Idle => true
    case Entered(c) => c < |s.leader|
    case Direct(c) => c < |s.leader|
    case Spin(c) => c < |s.leader|
    case Want(c, l) => c < |s.leader| && l < |s.leader|
    case Got(c, l) => c < |s.leader| && l < |s.leader|
    case Hold(c, l) => c < |s.leader| && l < |s.leader|
  }

  function AllCpus(s: State): set<Cpu> { set c {:trigger s.leader[c]} | 0 <= c < |s.leader| }

  predicate Enabled(s: State, a: Step)
  {
    && Shape(s)
    && match a
       case Enter(t, c) => t < |s.pcs| && s.pcs[t] == Idle && c < |s.leader|
       case ReadKey(t) => t < |s.pcs| && s.pcs[t].Entered?
       case TakeDirect(t) => t < |s.pcs| && s.pcs[t].Direct? && s.owner[s.pcs[t].c] == Free
       case ReadName(t) => t < |s.pcs| && s.pcs[t].Spin?
       case Take(t) => t < |s.pcs| && s.pcs[t].Want? && s.owner[s.pcs[t].l] == Free
       case Recheck(t) => t < |s.pcs| && s.pcs[t].Got?
       case GiveUp(t) => t < |s.pcs| && (s.pcs[t].Direct? || s.pcs[t].Want?)
       case Unlock(t) => t < |s.pcs| && s.pcs[t].Hold?
       case GetFast => s.count > 0
       case GetSlow => s.admin == NoAdmin
       case GetDecide => s.admin == GetLocked
       case SyncDone => s.admin == Syncing({})
       case FlipNext(c) => s.admin.Flipping? && c in s.admin.left && c < |s.leader|
       case FlipLock(c) =>
         s.admin.Locking? && c in s.admin.core - s.admin.held && c < |s.owner| && s.owner[c] == Free
       case FlipWrite(c) => s.admin.Writing? && c in s.admin.core - s.admin.written && c < |s.enabled|
       case FlipUnlock(c) => s.admin.Unlocking? && c in s.admin.held && c < |s.owner|
       case FlipDone => s.admin.Flipping? && s.admin.left == {}
       case Put => s.refs > 0
       case WorkTry => s.work == Pending
       case WorkSlow => s.work == Blocked && s.admin == NoAdmin && s.count > 0
  }

  function PutPc(s: State, t: Locker, pc: Pc): State
    requires t < |s.pcs|
  {
    s.(pcs := s.pcs[t := pc])
  }

  /** Leaving the preempt-disabled section also ends this context's part in a grace period. */
  function Leave(s: State, t: Locker): State
    requires t < |s.pcs|
  {
    PutPc(s, t, Idle).(admin := if s.admin.Syncing? then Syncing(s.admin.waiting - {t}) else s.admin)
  }

  predicate LockerStep(a: Step)
  {
    a.Enter? || a.ReadKey? || a.TakeDirect? || a.ReadName? || a.Take? || a.Recheck? || a.GiveUp? || a.Unlock?
  }

  function LockerApply(s: State, a: Step): State
    requires Enabled(s, a) && LockerStep(a)
  {
    match a
    case Enter(t, c) => PutPc(s, t, Entered(c))
    case ReadKey(t) => PutPc(s, t, if s.key then Spin(s.pcs[t].c) else Direct(s.pcs[t].c))
    case TakeDirect(t) => var c := s.pcs[t].c; PutPc(s, t, Hold(c, c)).(owner := s.owner[c := Held(t)])
    case ReadName(t) => PutPc(s, t, Want(s.pcs[t].c, Name(s, s.pcs[t].c)))
    case Take(t) => var pc := s.pcs[t]; PutPc(s, t, Got(pc.c, pc.l)).(owner := s.owner[pc.l := Held(t)])
    case Recheck(t) =>
      var pc := s.pcs[t];
      if pc.l == Name(s, pc.c) then PutPc(s, t, Hold(pc.c, pc.l))
      else PutPc(s, t, Spin(pc.c)).(owner := s.owner[pc.l := Free])
    case GiveUp(t) => Leave(s, t)
    case Unlock(t) => Leave(s, t).(owner := s.owner[LockToRelease(s, s.pcs[t].c) := Free])
  }

  function Apply(s: State, a: Step): State
    requires Enabled(s, a)
  {
    match a
    case GetFast => s.(count := s.count + 1, refs := s.refs + 1)
    case GetSlow => s.(admin := GetLocked)
    case GetDecide =>
      if s.count > 0 then s.(count := s.count + 1, refs := s.refs + 1, admin := NoAdmin)
      else s.(key := true, admin := Syncing(set t | 0 <= t < |s.pcs| && s.pcs[t] != Idle))
    case SyncDone => s.(admin := Flipping(true, AllCpus(s)))
    case FlipNext(c) => s.(admin := Locking(s.admin.on, s.admin.left, Siblings(s.leader, c), {}))
    case FlipLock(c) =>
      var m := s.admin;
      s.(owner := s.owner[c := Flipper],
         admin := if m.held + {c} == m.core then Writing(m.on, m.left, m.core, {})
           else Locking(m.on, m.left, m.core, m.held + {c}))
    case FlipWrite(c) =>
      var m := s.admin;
      s.(enabled := s.enabled[c := m.on],
         admin := if m.written + {c} == m.core then Unlocking(m.on, m.left - m.core, m.core)
                  else Writing(m.on, m.left, m.core, m.written + {c}))
    case FlipUnlock(c) =>
      var m := s.admin;
      s.(owner := s.owner[c := Free],
         admin := if m.held == {c} then Flipping(m.on, m.left) else Unlocking(m.on, m.left, m.held - {c}))
    case FlipDone =>
      if s.admin.on then s.(count := s.count + 1, refs := s.refs + 1, admin := NoAdmin)
      else s.(key := false, admin := NoAdmin)
    case Put =>
      if s.count == 1 then s.(refs := s.refs - 1, work := Pending)
      else s.(refs := s.refs - 1, count := if s.count > 0 then s.count - 1 else 0)
    case WorkTry => if s.count > 1 then s.(count := s.count - 1, work := NoWork) else s.(work := Blocked)
    case WorkSlow =>
      if s.count > 1 then s.(count := s.count - 1, work := NoWork)
      else s.(count := 0, work := NoWork, admin := Flipping(false, AllCpus(s)))
    case _ => LockerApply(s, a)
  }

  ghost predicate Init(s: State)
  {
    && Shape(s) && !s.key && s.admin == NoAdmin && s.count == 0 && s.refs == 0 && s.work == NoWork
    && (forall c :: 0 <= c < |s.leader| ==> !s.enabled[c] && s.owner[c] == Free)
    && (forall t :: 0 <= t < |s.pcs| ==> s.pcs[t] == Idle)
  }

  // ---------------------------------------------------------------- invariant

  /** Union of whole cores. */
  ghost predicate Closed(s: State, left: set<Cpu>)
    requires Shape(s)
  {
    forall c, d :: 0 <= c < |s.leader| && 0 <= d < |s.leader| && s.leader[c] == s.leader[d] ==>
      (c in left <==> d in left)
  }

  function HeldByFlipper(m: Admin): set<Cpu>
  {
    match m
    case Locking(_, _, _, held) => held
    case Writing(_, _, core, _) => core
    case Unlocking(_, _, held) => held
    case _ => {}
  }

  /** What core_enabled has to be on CPU c. */
  function Flag(s: State, c: Cpu): bool
  {
    match s.admin
    case NoAdmin => s.key
    case GetLocked => s.key
    case Syncing(_) => false
    case Flipping(on, left) => if c in left then !on else on
    case Locking(on, left, _, _) => if c in left then !on else on
    case Writing(on, left, _, written) => if c in left && c !in written then !on else on
    case Unlocking(on, left, _) => if c in left then !on else on
  }

  ghost predicate AdminOk(s: State)
    requires Shape(s)
  {
    && (forall c :: 0 <= c < |s.leader| ==> s.enabled[c] == Flag(s, c))
    && (s.admin == NoAdmin || s.admin == GetLocked ==> (s.key <==> s.count > 0))
    && (s.admin != NoAdmin && s.admin != GetLocked ==> s.key && s.count == 0)
    && (s.count == s.refs + (if s.work == NoWork then 0 else 1))
    && (s.admin.Flipping? || s.admin.Locking? || s.admin.Writing? || s.admin.Unlocking? ==>
          Closed(s, s.admin.left) && forall c :: c in s.admin.left ==> c < |s.leader|)
    && (s.admin.Locking? || s.admin.Writing? ==>
          && s.admin.core <= s.admin.left && s.admin.core != {}
          && exists c :: 0 <= c < |s.leader| && s.admin.core == Siblings(s.leader, c))
    && (s.admin.Locking? ==> s.admin.held < s.admin.core)
    && (s.admin.Writing? ==> s.admin.written < s.admin.core)
    && (s.admin.Unlocking? ==>
          && s.admin.held != {}
          && forall c :: c in s.admin.held ==> c < |s.leader| && c !in s.admin.left)
    && (s.admin.Syncing? ==> forall t :: t in s.admin.waiting ==> t < |s.pcs| && s.pcs[t] != Idle)
  }

  ghost predicate OwnerOk(s: State)
    requires Shape(s)
  {
    && (forall c :: 0 <= c < |s.owner| ==> (s.owner[c] == Flipper <==> c in HeldByFlipper(s.admin)))
    && (forall c :: 0 <= c < |s.owner| && s.owner[c].Held? ==>
          s.owner[c].t < |s.pcs| && (s.pcs[s.owner[c].t].Got? || s.pcs[s.owner[c].t].Hold?)
            && s.pcs[s.owner[c].t].l == c)
  }

  /** A locker that skipped the recheck saw the key off, and the grace period waits for it. */
  ghost predicate LockerOk(s: State, t: Locker)
    requires Shape(s) && t < |s.pcs|
  {
    var pc := s.pcs[t];
    && (pc.Direct? ==> !s.key || (s.admin.Syncing? && t in s.admin.waiting))
    && (pc.Got? || pc.Hold? ==> s.owner[pc.l] == Held(t))
    && (pc.Want? || pc.Got? || pc.Hold? ==> s.leader[pc.l] == s.leader[pc.c])
    && (pc.Hold? ==> pc.l == Name(s, pc.c))
  }

  ghost predicate Inv(s: State)
  {
    && Shape(s) && AdminOk(s) && OwnerOk(s)
    && forall t :: 0 <= t < |s.pcs| ==> LockerOk(s, t)
  }

  // -------------------------------------------------------- step preservation

  /** A holder names and releases the lock it took, whatever the key says by then. */
  lemma HolderAgrees(s: State, t: Locker)
    requires Inv(s) && t < |s.pcs| && s.pcs[t].Hold?
    ensures var pc := s.pcs[t];
      pc.l == Name(s, pc.c) == LockToRelease(s, pc.c) && s.owner[pc.l] == Held(t)
  {
    assert LockerOk(s, t);
    assert s.enabled[s.pcs[t].c] == Flag(s, s.pcs[t].c);
  }

  /** One locker moves: the mutex holder sees at most that it left a preempt-disabled section. */
  lemma AdminFrame(s: State, s': State, t: Locker)
    requires Shape(s) && Shape(s') && AdminOk(s) && t < |s.pcs|
    requires s' == s.(pcs := s'.pcs, owner := s'.owner, admin := s'.admin)
    requires |s'.pcs| == |s.pcs| && forall u :: 0 <= u < |s.pcs| && u != t ==> s'.pcs[u] == s.pcs[u]
    requires s'.admin == if s.admin.Syncing? && s'.pcs[t] == Idle then Syncing(s.admin.waiting - {t}) else s.admin
    ensures AdminOk(s')
  {
    assert forall c :: Flag(s', c) == Flag(s, c);
  }

  lemma LockerOwner(s: State, a: Step)
    requires Inv(s) && Enabled(s, a) && LockerStep(a) && Shape(LockerApply(s, a))
    ensures OwnerOk(LockerApply(s, a))
  {
    assert LockerOk(s, a.t);
    if a.Unlock? { HolderAgrees(s, a.t); }
  }

  lemma LockerSelf(s: State, a: Step)
    requires Inv(s) && Enabled(s, a) && LockerStep(a) && Shape(LockerApply(s, a))
    ensures LockerOk(LockerApply(s, a), a.t)
  {
    assert LockerOk(s, a.t);
    if a.TakeDirect? { assert s.enabled[s.pcs[a.t].c] == Flag(s, s.pcs[a.t].c); }
  }

  lemma LockerOther(s: State, a: Step, u: Locker)
    requires Inv(s) && Enabled(s, a) && LockerStep(a) && Shape(LockerApply(s, a)) && u < |s.pcs| && u != a.t
    ensures LockerOk(LockerApply(s, a), u)
  {
    assert LockerOk(s, u);
    match a
    case Unlock(t) => HolderAgrees(s, t);
    case Recheck(t) => assert LockerOk(s, t);
    case TakeDirect(_) =>
    case Take(_) =>
    case _ =>
  }

  lemma LockerShape(s: State, a: Step)
    requires Inv(s) && Enabled(s, a) && LockerStep(a)
    ensures var s' := LockerApply(s, a);
      && Apply(s, a) == s' && Shape(s') && s' == s.(pcs := s'.pcs, owner := s'.owner, admin := s'.admin)
      && |s'.pcs| == |s.pcs| && (forall u :: 0 <= u < |s.pcs| && u != a.t ==> s'.pcs[u] == s.pcs[u])
      && s'.admin == if s.admin.Syncing? && s'.pcs[a.t] == Idle then Syncing(s.admin.waiting - {a.t}) else s.admin
  {
  }

  lemma LockerInv(s: State, a: Step)
    requires Inv(s) && Enabled(s, a) && LockerStep(a)
    ensures Inv(Apply(s, a))
  {
    LockerShape(s, a);
    AdminFrame(s, LockerApply(s, a), a.t);
    LockerOwner(s, a);
    forall u | 0 <= u < |s.pcs| ensures LockerOk(LockerApply(s, a), u) {
      if u == a.t { LockerSelf(s, a); } else { LockerOther(s, a, u); }
    }
  }

  /** Users and the deferred put: the count moves, the mutex holder stays where it is or starts. */
  lemma UserInv(s: State, a: Step)
    requires Inv(s) && Enabled(s, a) && (a.GetFast? || a.GetSlow? || a.Put? || a.WorkTry? || a.WorkSlow?)
    ensures Inv(Apply(s, a))
  {
    var s' := Apply(s, a);
    forall u | 0 <= u < |s'.pcs| ensures LockerOk(s', u) { assert LockerOk(s, u); }
  }

  lemma GetInv(s: State, a: Step)
    requires Inv(s) && Enabled(s, a) && (a.GetDecide? || a.SyncDone? || a.FlipDone?)
    ensures Inv(Apply(s, a))
  {
    var s' := Apply(s, a);
    forall u | 0 <= u < |s'.pcs| ensures LockerOk(s', u) { assert LockerOk(s, u); }
  }

  lemma FlipNextInv(s: State, c: Cpu)
    requires Inv(s) && Enabled(s, FlipNext(c))
    ensures Inv(Apply(s, FlipNext(c)))
  {
    var s' := Apply(s, FlipNext(c));
    assert c in Siblings(s.leader, c);
    forall u | 0 <= u < |s'.pcs| ensures LockerOk(s', u) { assert LockerOk(s, u); }
  }

  lemma FlipLockInv(s: State, c: Cpu)
    requires Inv(s) && Enabled(s, FlipLock(c))
    ensures Inv(Apply(s, FlipLock(c)))
  {
    var s' := Apply(s, FlipLock(c));
    var d :| 0 <= d < |s.leader| && s.admin.core == Siblings(s.leader, d);
    forall u | 0 <= u < |s'.pcs| ensures LockerOk(s', u) { assert LockerOk(s, u); }
  }

  /** While the flipper writes, it holds every lock of the core, so nobody holds a runqueue of that core. */
  lemma FlipWriteInv(s: State, c: Cpu)
    requires Inv(s) && Enabled(s, FlipWrite(c))
    ensures Inv(Apply(s, FlipWrite(c)))
  {
    var s' := Apply(s, FlipWrite(c));
    var d :| 0 <= d < |s.leader| && s.admin.core == Siblings(s.leader, d);
    assert forall l :: 0 <= l < |s.leader| && s.leader[l] == s.leader[c] ==> l in s.admin.core;
    forall u | 0 <= u < |s'.pcs| ensures LockerOk(s', u) { assert LockerOk(s, u); }
  }

  lemma FlipUnlockInv(s: State, c: Cpu)
    requires Inv(s) && Enabled(s, FlipUnlock(c))
    ensures Inv(Apply(s, FlipUnlock(c)))
  {
    var s' := Apply(s, FlipUnlock(c));
    forall u | 0 <= u < |s'.pcs| ensures LockerOk(s', u) { assert LockerOk(s, u); }
  }

  lemma StepInv(s: State, a: Step)
    requires Inv(s) && Enabled(s, a)
    ensures Inv(Apply(s, a))
  {
    if LockerStep(a) { LockerInv(s, a); }
    else if a.FlipNext? { FlipNextInv(s, a.c); }
    else if a.FlipLock? { FlipLockInv(s, a.c); }
    else if a.FlipWrite? { FlipWriteInv(s, a.c); }
    else if a.FlipUnlock? { FlipUnlockInv(s, a.c); }
    else if a.GetDecide? || a.SyncDone? || a.FlipDone? { GetInv(s, a); }
    else { UserInv(s, a); }
  }

  // --------------------------------------------------------------- whole runs

  ghost predicate Run(trace: seq<State>, steps: seq<Step>)
  {
    && |trace| == |steps| + 1 && Init(trace[0])
    && forall n :: 0 <= n < |steps| ==> Enabled(trace[n], steps[n]) && trace[n + 1] == Apply(trace[n], steps[n])
  }

  lemma {:induction false} RunInv(trace: seq<State>, steps: seq<Step>, n: nat)
    requires Run(trace, steps) && n < |trace|
    ensures Inv(trace[n])
  {
    if n == 0 {
    } else {
      RunInv(trace, steps, n - 1);
      StepInv(trace[n - 1], steps[n - 1]);
    }
  }

  /** Whoever returned from the lock call holds the lock the runqueue names now and will release that very lock. */
  ghost predicate Agreement(s: State)
  {
    && Shape(s)
    && (forall t :: 0 <= t < |s.pcs| && s.pcs[t].Hold? ==>
          var pc := s.pcs[t];
          pc.l == Name(s, pc.c) == LockToRelease(s, pc.c) && s.owner[pc.l] == Held(t))
    && (forall t, u ::
          0 <= t < |s.pcs| && 0 <= u < |s.pcs| && s.pcs[t].Hold? && s.pcs[u].Hold? && s.pcs[t].c == s.pcs[u].c ==>
            t == u)
  }

  /** With the mutex free, core scheduling is on everywhere or nowhere, and on exactly while somebody counts. */
  ghost predicate CountAgrees(s: State)
  {
    && Shape(s)
    && (s.admin == NoAdmin ==>
          (s.key <==> s.count > 0) && forall c :: 0 <= c < |s.leader| ==> (s.enabled[c] <==> s.count > 0))
    && (s.refs > 0 && s.admin == NoAdmin ==> s.key)
    && (Enabled(s, Put) && s.count == 1 ==> s.work == NoWork)  // schedule_work() never meets a pending work
  }

  lemma InvSafe(s: State)
    requires Inv(s)
    ensures Agreement(s) && CountAgrees(s)
  {
    forall t | 0 <= t < |s.pcs| && s.pcs[t].Hold?
      ensures var pc := s.pcs[t]; pc.l == Name(s, pc.c) == LockToRelease(s, pc.c) && s.owner[pc.l] == Held(t)
    {
      HolderAgrees(s, t);
    }
  }

  lemma RunSafe(trace: seq<State>, steps: seq<Step>, n: nat)
    requires Run(trace, steps) && n < |trace|
    ensures Agreement(trace[n]) && CountAgrees(trace[n])
  {
    RunInv(trace, steps, n);
    InvSafe(trace[n]);
  }
}
