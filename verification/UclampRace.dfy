/**
 Writes of group clamps while tasks are enqueued and dequeued. The walk stores
 the two effective clamps of a group one after the other and then refreshes the
 group's tasks one by one, each under its runqueue lock. An enqueue, under the
 same lock, reads the two clamps of its group one after the other, once for
 either clamp of the task. Nothing else keeps the two apart.
 */
module UclampRace {
  import opened Ancestry
  import opened UclampGroups

  datatype Id = Min | Max

  /** Where a task is in being enqueued; unless Settled its runqueue lock is held. */
  datatype Place =
    | Settled
    | Reading(id: Id)               // about to read the group's MIN
    | Seen(id: Id, tgMin: nat)      // about to read the group's MAX and store the clamp

  datatype Thread = Thread(self: Task, place: Place)

  /** Where the walk of a write below group top is; changed are the groups it has changed. */
  datatype Walk =
    | Rest
    | At(top: nat, end: nat, g: nat, changed: set<nat>)
    | Storing(top: nat, end: nat, g: nat, changed: set<nat>, now: Clamp, half: bool)
    | Refreshing(top: nat, end: nat, g: nat, changed: set<nat>, left: set<nat>)

  datatype State = State(
    parent: seq<nat>, cap: Clamp, req: seq<Clamp>, eff: seq<Clamp>, threads: seq<Thread>, walk: Walk)

  datatype Step =
    | Write(top: nat, end: nat, request: Clamp)
    | Prune(next: nat)
    | Change
    | StoreMin
    | StoreMax
    | Refresh(t: nat)               // uclamp_update_active()
    | NextGroup
    | Finish
    | Enqueue(t: nat)
    | Read(t: nat)
    | Store(t: nat)
    | Dequeue(t: nat)

  predicate Shaped(s: State)
  {
    && Preorder(s.parent) && |s.parent| == |s.req| == |s.eff|
    && forall t :: 0 <= t < |s.threads| ==> s.threads[t].self.group < |s.eff|
  }

  /** What the walk computes for group g. */
  function Computed(s: State, g: nat): Clamp
    requires Shaped(s) && g < |s.parent|
  {
    if g == 0 then RootClamp(s.req[0]) else Restricted(s.req[g], s.eff[s.parent[g]])
  }

  predicate WalkEnabled(s: State, a: Step)
    requires Shaped(s)
  {
    match a
    case Write(top, end, _) => s.walk == Rest && top < |s.parent| && IsSubtree(s.parent, top, end)
    case Prune(next) =>
      && s.walk.At? && s.walk.g < s.walk.end <= |s.parent| && Computed(s, s.walk.g) == s.eff[s.walk.g]
      && IsSubtree(s.parent, s.walk.g, next)
    case Change => s.walk.At? && s.walk.g < s.walk.end <= |s.parent| && Computed(s, s.walk.g) != s.eff[s.walk.g]
    case StoreMin => s.walk.Storing? && !s.walk.half && s.walk.g < |s.eff|
    case StoreMax => s.walk.Storing? && s.walk.half && s.walk.g < |s.eff|
    case Refresh(t) => s.walk.Refreshing? && t in s.walk.left && t < |s.threads| && s.threads[t].place == Settled
    case NextGroup => s.walk.Refreshing? && s.walk.left == {}
    case Finish => s.walk.At? && s.walk.g >= s.walk.end
    case _ => false
  }

  predicate ThreadEnabled(k: Thread, a: Step)
  {
    match a
    case Enqueue(_) => k.place == Settled && !k.self.active
    case Read(_) => k.place.Reading?
    case Store(_) => k.place.Seen?
    case Dequeue(_) => k.place == Settled && k.self.active
    case _ => false
  }

  predicate OfThread(a: Step) { a.Enqueue? || a.Read? || a.Store? || a.Dequeue? }

  predicate Enabled(s: State, a: Step)
  {
    Shaped(s) && if OfThread(a) then a.t < |s.threads| && ThreadEnabled(s.threads[a.t], a) else WalkEnabled(s, a)
  }

  function Members(s: State, g: nat): set<nat> { set t | 0 <= t < |s.threads| && s.threads[t].self.group == g }

  function Refreshed(k: Thread, eff: seq<Clamp>, cap: Clamp): Thread
    requires k.self.group < |eff|
  {
    if k.self.active then k.(self := k.self.(clamp := EffectiveGet(eff, cap, k.self))) else k
  }

  function WalkApply(s: State, a: Step): State
    requires Shaped(s) && WalkEnabled(s, a)
  {
    var w := s.walk;
    match a
    case Write(top, end, request) => s.(req := s.req[top := request], walk := At(top, end, top, {}))
    case Prune(next) => s.(walk := At(w.top, w.end, next, w.changed))
    case Change => s.(walk := Storing(w.top, w.end, w.g, w.changed, Computed(s, w.g), false))
    case StoreMin => s.(eff := s.eff[w.g := s.eff[w.g].(lo := w.now.lo)], walk := w.(half := true))
    case StoreMax =>
      s.(eff := s.eff[w.g := s.eff[w.g].(hi := w.now.hi)],
         walk := Refreshing(w.top, w.end, w.g, w.changed, Members(s, w.g)))
    case Refresh(t) =>
      s.(threads := s.threads[t := Refreshed(s.threads[t], s.eff, s.cap)], walk := w.(left := w.left - {t}))
    case NextGroup => s.(walk := At(w.top, w.end, w.g + 1, w.changed + {w.g}))
    case Finish => s.(walk := Rest)
  }

  /** An enqueue reads the group's clamps twice, for MIN and for MAX of the task. */
  function ThreadApply(k: Thread, tg: Clamp, cap: Clamp, a: Step): Thread
    requires ThreadEnabled(k, a)
  {
    match a
    case Enqueue(_) => k.(place := Reading(Min))
    case Read(_) => k.(place := Seen(k.place.id, tg.lo))
    case Store(_) =>
      var got := UnderGroup(Clamp(k.place.tgMin, tg.hi), cap, k.self);
      if k.place.id == Min then Thread(k.self.(clamp := k.self.clamp.(lo := got.lo)), Reading(Max))
      else Thread(k.self.(clamp := k.self.clamp.(hi := got.hi), active := true), Settled)
    case Dequeue(_) => k.(self := k.self.(active := false))
  }

  function Apply(s: State, a: Step): State
    requires Enabled(s, a)
  {
    if OfThread(a) then
      var k := s.threads[a.t];
      s.(threads := s.threads[a.t := ThreadApply(k, s.eff[k.self.group], s.cap, a)])
    else WalkApply(s, a)
  }

  // ---- invariant ----

  /** The walk has yet to come to this task in the group it is at: it may be counted under older clamps. */
  predicate Awaits(w: Walk, t: nat, group: nat)
  {
    (w.Storing? && w.g == group) || (w.Refreshing? && w.g == group && t in w.left)
  }

  /** What a task is counted under, or has read so far, is what its group's clamps make of it now. */
  predicate Current(k: Thread, tg: Clamp, cap: Clamp)
  {
    var now := UnderGroup(tg, cap, k.self);
    && (k.self.active ==> k.place == Settled && k.self.clamp == now)
    && (k.place.Seen? ==> k.place.tgMin == tg.lo)
    && (!k.place.Settled? && k.place.id == Max ==> k.self.clamp.lo == now.lo)
  }

  predicate ThreadOk(s: State, t: nat)
    requires Shaped(s) && t < |s.threads|
  {
    var k := s.threads[t];
    && (k.self.active ==> k.place == Settled)
    && (Awaits(s.walk, t, k.self.group) || Current(k, s.eff[k.self.group], s.cap))
  }

  /** In the middle of storing g's clamps: nothing depends on what is stored there. */
  ghost predicate Mid(s: State, top: nat, g: nat, changed: set<nat>)
    requires Shaped(s)
  {
    && (forall h :: 0 <= h < g && h < |s.parent| ==> Solved(s.parent, s.req, s.eff, h))
    && (forall h :: g < h < |s.parent| && !Solved(s.parent, s.req, s.eff, h) ==> s.parent[h] in changed + {g})
    && (forall c :: c in changed ==> c < g)
    && (forall c :: c in changed + {g} ==> c < |s.parent| && Below(s.parent, c, top))
  }

  ghost predicate WalkOk(s: State)
    requires Shaped(s)
  {
    match s.walk
    case Rest => forall g :: 0 <= g < |s.parent| ==> Solved(s.parent, s.req, s.eff, g)
    case At(top, end, g, changed) =>
      IsSubtree(s.parent, top, end) && top <= g <= end && Walking(s.parent, s.req, s.eff, top, g, changed)
    case Storing(top, end, g, changed, now, half) =>
      && IsSubtree(s.parent, top, end) && top <= g < end && Mid(s, top, g, changed) && now == Computed(s, g)
      && (half ==> s.eff[g].lo == now.lo)
    case Refreshing(top, end, g, changed, left) =>
      && IsSubtree(s.parent, top, end) && top <= g < end
      && Walking(s.parent, s.req, s.eff, top, g + 1, changed + {g})
  }

  ghost predicate Inv(s: State)
  {
    Shaped(s) && WalkOk(s) && forall t :: 0 <= t < |s.threads| ==> ThreadOk(s, t)
  }

  // ---- the walk's steps on the groups ----

  lemma WriteOk(s: State, a: Step)
    requires Inv(s) && Enabled(s, a) && a.Write?
    ensures Shaped(Apply(s, a)) && WalkOk(Apply(s, a))
  {
    var r := Apply(s, a);
    forall g | 0 <= g < |s.parent| && g != a.top ensures Solved(r.parent, r.req, r.eff, g) {
      assert Solved(s.parent, s.req, s.eff, g);
    }
    WalkBegun(r.parent, r.req, r.eff, a.top);
  }

  lemma PruneOk(s: State, a: Step)
    requires Inv(s) && Enabled(s, a) && a.Prune?
    ensures Shaped(Apply(s, a)) && WalkOk(Apply(s, a))
  {
    var w := s.walk;
    WalkPruned(s.parent, s.req, s.eff, w.top, w.end, w.g, a.next, w.changed);
  }

  lemma ChangeOk(s: State)
    requires Inv(s) && Enabled(s, Change)
    ensures Shaped(Apply(s, Change)) && WalkOk(Apply(s, Change))
  {
    var w := s.walk;
    assert Below(s.parent, w.g, w.top);
  }

  /** Whatever is stored for g, the groups before it stay solved and only its children can come undone. */
  lemma MidKept(s: State, top: nat, g: nat, changed: set<nat>, x: Clamp)
    requires Shaped(s) && g < |s.parent| && Mid(s, top, g, changed)
    ensures Shaped(s.(eff := s.eff[g := x])) && Mid(s.(eff := s.eff[g := x]), top, g, changed)
    ensures Computed(s.(eff := s.eff[g := x]), g) == Computed(s, g)
  {
    var r := s.(eff := s.eff[g := x]);
    forall h | 0 <= h < |s.parent| && h != g && (h == 0 || s.parent[h] != g)
      ensures Solved(r.parent, r.req, r.eff, h) == Solved(s.parent, s.req, s.eff, h)
    {
    }
  }

  lemma StoreMinOk(s: State)
    requires Inv(s) && Enabled(s, StoreMin)
    ensures Shaped(Apply(s, StoreMin)) && WalkOk(Apply(s, StoreMin))
  {
    var w := s.walk;
    MidKept(s, w.top, w.g, w.changed, s.eff[w.g].(lo := w.now.lo));
  }

  lemma MidDone(s: State, top: nat, g: nat, changed: set<nat>)
    requires Shaped(s) && g < |s.parent| && Mid(s, top, g, changed) && s.eff[g] == Computed(s, g)
    ensures Walking(s.parent, s.req, s.eff, top, g + 1, changed + {g})
  {
    assert Solved(s.parent, s.req, s.eff, g);
  }

  lemma StoreMaxOk(s: State)
    requires Inv(s) && Enabled(s, StoreMax)
    ensures Shaped(Apply(s, StoreMax)) && WalkOk(Apply(s, StoreMax))
  {
    var w := s.walk;
    var x := s.eff[w.g].(hi := w.now.hi);
    MidKept(s, w.top, w.g, w.changed, x);
    MidDone(s.(eff := s.eff[w.g := x]), w.top, w.g, w.changed);
  }

  lemma FinishOk(s: State)
    requires Inv(s) && Enabled(s, Finish)
    ensures Shaped(Apply(s, Finish)) && WalkOk(Apply(s, Finish))
  {
    var w := s.walk;
    forall h | 0 <= h < |s.parent| ensures Solved(s.parent, s.req, s.eff, h) {
      if h >= w.end { assert !Below(s.parent, h, w.top); }
    }
  }

  lemma StepWalkOk(s: State, a: Step)
    requires Inv(s) && Enabled(s, a)
    ensures Shaped(Apply(s, a)) && WalkOk(Apply(s, a))
  {
    match a
    case Write(_, _, _) => WriteOk(s, a);
    case Prune(_) => PruneOk(s, a);
    case Change => ChangeOk(s);
    case StoreMin => StoreMinOk(s);
    case StoreMax => StoreMaxOk(s);
    case Finish => FinishOk(s);
    case _ =>
  }

  // ---- the tasks ----

  lemma ThreadCurrent(k: Thread, tg: Clamp, cap: Clamp, a: Step)
    requires ThreadEnabled(k, a) && Current(k, tg, cap)
    ensures Current(ThreadApply(k, tg, cap, a), tg, cap)
  {
  }

  lemma ThreadKept(k: Thread, tg: Clamp, cap: Clamp, a: Step)
    requires ThreadEnabled(k, a) && (k.self.active ==> k.place == Settled)
    ensures var r := ThreadApply(k, tg, cap, a);
      r.self.group == k.self.group && (r.self.active ==> r.place == Settled)
  {
  }

  lemma StepThreadOk(s: State, a: Step, t: nat)
    requires Inv(s) && Enabled(s, a) && Shaped(Apply(s, a)) && t < |s.threads|
    ensures |Apply(s, a).threads| == |s.threads| && ThreadOk(Apply(s, a), t)
  {
    var k := s.threads[t];
    assert ThreadOk(s, t);
    if OfThread(a) {
      if a.t == t {
        ThreadKept(k, s.eff[k.self.group], s.cap, a);
        if Current(k, s.eff[k.self.group], s.cap) { ThreadCurrent(k, s.eff[k.self.group], s.cap, a); }
      }
    } else {
      WalkThreadOk(s, a, t);
    }
  }

  lemma WalkThreadOk(s: State, a: Step, t: nat)
    requires Inv(s) && Enabled(s, a) && !OfThread(a) && Shaped(Apply(s, a)) && t < |s.threads|
    ensures |Apply(s, a).threads| == |s.threads| && ThreadOk(Apply(s, a), t)
  {
    assert ThreadOk(s, t);
    match a
    case Write(_, _, _) =>
    case Prune(_) =>
    case Change =>
    case StoreMin =>
    case StoreMax => assert s.threads[t].self.group == s.walk.g ==> t in Members(s, s.walk.g);
    case Refresh(u) =>
    case NextGroup =>
    case Finish =>
  }

  lemma StepInv(s: State, a: Step)
    requires Inv(s) && Enabled(s, a)
    ensures Inv(Apply(s, a))
  {
    StepWalkOk(s, a);
    var r := Apply(s, a);
    forall t | 0 <= t < |r.threads| ensures ThreadOk(r, t) { StepThreadOk(s, a, t); }
  }

  // ---- whole runs ----

  ghost predicate Init(s: State)
  {
    && Shaped(s) && s.walk == Rest && (forall g :: 0 <= g < |s.parent| ==> Solved(s.parent, s.req, s.eff, g))
    && forall t :: 0 <= t < |s.threads| ==> s.threads[t].place == Settled && !s.threads[t].self.active
  }

  predicate Leads(trace: seq<State>, steps: seq<Step>, n: nat)
    requires |trace| == |steps| + 1 && n < |steps|
  {
    Enabled(trace[n], steps[n]) && trace[n + 1] == Apply(trace[n], steps[n])
  }

  ghost predicate Run(trace: seq<State>, steps: seq<Step>)
  {
    |trace| == |steps| + 1 && Init(trace[0]) && forall n :: 0 <= n < |steps| ==> Leads(trace, steps, n)
  }

  lemma {:induction false} RunInv(trace: seq<State>, steps: seq<Step>, n: nat)
    requires Run(trace, steps) && n <= |steps|
    ensures Inv(trace[n])
  {
    if n == 0 {
    } else {
      RunInv(trace, steps, n - 1);
      assert Leads(trace, steps, n - 1);
      StepInv(trace[n - 1], steps[n - 1]);
    }
  }

  /** At every point of every interleaving an active task is counted under its current effective clamps unless the
      walk is at its group and has yet to refresh it; between writes all are, and every group is as full recomputation
      would have it. */
  lemma RunFresh(trace: seq<State>, steps: seq<Step>, n: nat)
    requires Run(trace, steps) && n <= |steps|
    ensures Shaped(trace[n])
    ensures forall t :: 0 <= t < |trace[n].threads| && !Awaits(trace[n].walk, t, trace[n].threads[t].self.group) ==>
      Fresh(trace[n].eff, trace[n].cap, trace[n].threads[t].self)
    ensures trace[n].walk == Rest ==> forall g :: 0 <= g < |trace[n].parent| ==>
      trace[n].eff[g] == Effective(trace[n].parent, trace[n].req, g)
  {
    RunInv(trace, steps, n);
    var s := trace[n];
    forall t | 0 <= t < |s.threads| && !Awaits(s.walk, t, s.threads[t].self.group)
      ensures Fresh(s.eff, s.cap, s.threads[t].self)
    {
      assert ThreadOk(s, t);
    }
    if s.walk == Rest {
      forall g | 0 <= g < |s.parent| ensures s.eff[g] == Effective(s.parent, s.req, g) {
        SolvedIsEffective(s.parent, s.req, s.eff, g);
      }
    }
  }
}
