/**
 Propagation of task-group clamps: cpu_util_update_eff() walks the groups below
 the one written to in pre-order, skips the whole subtree of a group whose
 effective clamps did not change, and refreshes the active tasks of every group
 that did. The result equals recomputing every group.

 Groups are numbered in pre-order: parent[g] < g, and the descendants of g are
 the numbers from g up to the end of its subtree. Group 0 is the root group.
 */
module UclampGroups {
  import opened Ancestry
  import Uclamp

  datatype Clamp = Clamp(lo: nat, hi: nat)

  function Least(a: nat, b: nat): nat { if a <= b then a else b }

  function Greatest(a: nat, b: nat): nat { if a >= b then a else b }

  /** Pre-order numbering: each group's parent is an ancestor of the group numbered just before it. */
  predicate Preorder(parent: seq<nat>)
  {
    |parent| > 0 && TreeShaped(parent) && forall g :: 0 < g < |parent| ==> Follows(parent, g)
  }

  /** The group before g is its parent or below it. */
  predicate Follows(parent: seq<nat>, g: nat)
    requires TreeShaped(parent) && 0 < g < |parent|
  {
    Below(parent, g - 1, parent[g])
  }

  /** What a group's effective clamps have to be, given its request and its parent's effective clamps. */
  function Restricted(req: Clamp, up: Clamp): Clamp
  {
    var hi := Least(req.hi, up.hi);
    Clamp(Least(Least(req.lo, up.lo), hi), hi)
  }

  function RootClamp(req: Clamp): Clamp { Clamp(Least(req.lo, req.hi), req.hi) }

  /** Full recomputation, from the root down. */
  function Effective(parent: seq<nat>, req: seq<Clamp>, g: nat): Clamp
    requires g < |parent| == |req| && TreeShaped(parent)
    decreases g
  {
    if g == 0 then RootClamp(req[0]) else Restricted(req[g], Effective(parent, req, parent[g]))
  }

  /** Group g satisfies the effective-clamp equations. */
  predicate Solved(parent: seq<nat>, req: seq<Clamp>, eff: seq<Clamp>, g: nat)
    requires g < |parent| == |req| == |eff| && TreeShaped(parent)
  {
    eff[g] == if g == 0 then RootClamp(req[0]) else Restricted(req[g], eff[parent[g]])
  }

  /** The equations have one solution: the full recomputation. */
  lemma {:induction false} SolvedIsEffective(parent: seq<nat>, req: seq<Clamp>, eff: seq<Clamp>, g: nat)
    requires g < |parent| == |req| == |eff| && TreeShaped(parent)
    requires forall h :: 0 <= h <= g ==> Solved(parent, req, eff, h)
    ensures eff[g] == Effective(parent, req, g)
    decreases g
  {
    assert Solved(parent, req, eff, g);
    if g == 0 {
    } else {
      SolvedIsEffective(parent, req, eff, parent[g]);
    }
  }

  /** Effective clamps are ordered, and no group exceeds any group above it. */
  lemma {:induction false} EffectiveCapped(parent: seq<nat>, req: seq<Clamp>, d: nat, g: nat)
    requires d < |parent| == |req| && TreeShaped(parent) && Below(parent, d, g) && g < |parent|
    ensures Effective(parent, req, d).lo <= Effective(parent, req, d).hi <= req[d].hi
    ensures Effective(parent, req, d).lo <= Effective(parent, req, g).lo
    ensures Effective(parent, req, d).hi <= Effective(parent, req, g).hi
    decreases d
  {
    if d == g {
    } else {
      EffectiveCapped(parent, req, parent[d], g);
    }
  }

  /** Subtrees are contiguous: between g and a group below g, everything is below g. */
  lemma {:induction false} SubtreeContiguous(parent: seq<nat>, g: nat, d: nat, m: nat)
    requires Preorder(parent) && g <= m <= d < |parent| && Below(parent, d, g)
    ensures Below(parent, m, g)
    decreases d
  {
    if m < d && d != g {
      assert Follows(parent, d);
      BelowTrans(parent, d - 1, parent[d], g);
      SubtreeContiguous(parent, g, d - 1, m);
    }
  }

  /** [g, end) is exactly the subtree of g. */
  predicate IsSubtree(parent: seq<nat>, g: nat, end: nat)
    requires TreeShaped(parent)
  {
    g < end <= |parent| && forall d :: 0 <= d < |parent| ==> (Below(parent, d, g) <==> g <= d < end)
  }

  /** css_rightmost_descendant() + 1: the first number after the subtree of g. */
  method SubtreeEnd(parent: seq<nat>, g: nat) returns (end: nat)
    requires Preorder(parent) && g < |parent|
    ensures IsSubtree(parent, g, end)
  {
    end := g + 1;
    while end < |parent| && Below(parent, end, g)
      invariant g < end <= |parent| && forall d :: g <= d < end ==> Below(parent, d, g)
    {
      end := end + 1;
    }
    forall d | 0 <= d < |parent| ensures Below(parent, d, g) <==> g <= d < end {
      if Below(parent, d, g) {
        BelowLater(parent, d, g);
        if end <= d { SubtreeContiguous(parent, g, d, end); }
      }
    }
  }

  // -------------------------------------------------------------------- tasks

  /** active: it is counted in the clamp buckets of its CPU's runqueue, with `clamp`. */
  datatype Task = Task(group: nat, autogroup: bool, req: Clamp, active: bool, clamp: Clamp, cpu: nat)

  function Bounded(v: nat, lo: nat, hi: nat): nat { Least(Greatest(v, lo), hi) }

  /** uclamp_eff_get() for both clamps: the group's restrict, then the system default. */
  function UnderGroup(tg: Clamp, cap: Clamp, t: Task): Clamp
  {
    var req := if t.autogroup || t.group == 0 then t.req
               else Clamp(Bounded(t.req.lo, tg.lo, tg.hi), Bounded(t.req.hi, tg.lo, tg.hi));
    Clamp(Least(req.lo, cap.lo), Least(req.hi, cap.hi))
  }

  function EffectiveGet(eff: seq<Clamp>, cap: Clamp, t: Task): Clamp
    requires t.group < |eff|
  {
    UnderGroup(eff[t.group], cap, t)
  }

  predicate Fresh(eff: seq<Clamp>, cap: Clamp, t: Task)
    requires t.group < |eff|
  {
    t.active ==> t.clamp == EffectiveGet(eff, cap, t)
  }

  predicate AllFresh(eff: seq<Clamp>, cap: Clamp, tasks: seq<Task>)
  {
    forall t :: 0 <= t < |tasks| ==> tasks[t].group < |eff| && Fresh(eff, cap, tasks[t])
  }

  /** The active tasks of group g refreshed, the others as they were. */
  predicate GroupRefreshed(eff: seq<Clamp>, cap: Clamp, g: nat, before: seq<Task>, after: seq<Task>)
    requires |before| == |after| && forall t :: 0 <= t < |before| ==> before[t].group < |eff|
  {
    forall t :: 0 <= t < |before| ==>
      after[t] == if before[t].group == g && before[t].active
                  then before[t].(clamp := EffectiveGet(eff, cap, before[t])) else before[t]
  }

  /** When only group g's effective clamps change, refreshing its tasks is enough. */
  lemma GroupFresh(eff: seq<Clamp>, cap: Clamp, g: nat, now: Clamp, before: seq<Task>, after: seq<Task>)
    requires g < |eff| && |before| == |after| && AllFresh(eff, cap, before)
      && GroupRefreshed(eff[g := now], cap, g, before, after)
    ensures AllFresh(eff[g := now], cap, after)
  {
  }

  // ------------------------------------------------- the runqueue of any one CPU

  ghost function Footprint(rq: Uclamp.Rq): set<object> { {rq, rq.min, rq.max, rq.min.bucket, rq.max.bucket} }

  /** The aggregates of CPU c are in order and count exactly the active tasks there, each under its stored clamps. */
  ghost predicate Kept(rq: Uclamp.Rq, c: nat, tasks: seq<Task>)
    reads Footprint(rq)
  {
    && rq.Valid()
    && (forall t: nat :: t in rq.min.clamps <==> t < |tasks| && tasks[t].active && tasks[t].cpu == c)
    && (forall t: nat :: t in rq.max.clamps <==> t < |tasks| && tasks[t].active && tasks[t].cpu == c)
    && (forall t: nat :: t in rq.min.clamps ==> rq.min.clamps[t] == tasks[t].clamp.lo)
    && (forall t: nat :: t in rq.max.clamps ==> rq.max.clamps[t] == tasks[t].clamp.hi)
  }

  /** An active task under new clamps. */
  function Refreshed(tasks: seq<Task>, t: nat, clamp: Clamp): (r: seq<Task>)
    requires t < |tasks|
    ensures |r| == |tasks|
  {
    if tasks[t].active then tasks[t := tasks[t].(clamp := clamp)] else tasks
  }

  /** uclamp_update_active(), the runqueue's side. */
  method RefreshRq(rq: Uclamp.Rq, t: nat, clamp: Clamp, ghost tasks: seq<Task>)
    requires t < |tasks| && Kept(rq, tasks[t].cpu, tasks)
    requires clamp.lo <= Uclamp.CAPACITY && clamp.hi <= Uclamp.CAPACITY
    modifies Footprint(rq)
    ensures Kept(rq, tasks[t].cpu, Refreshed(tasks, t, clamp))
  {
    var warned := rq.UpdateActive(t, clamp.lo, clamp.hi);
  }

  /** A runqueue does not notice that a task of another CPU is refreshed. */
  lemma OtherKept(rq: Uclamp.Rq, c: nat, tasks: seq<Task>, t: nat, clamp: Clamp)
    requires t < |tasks| && Kept(rq, c, tasks) && tasks[t].cpu != c
    ensures Kept(rq, c, Refreshed(tasks, t, clamp))
  {
  }

  /** A call of uclamp_update_active() that finds these effective clamps. */
  datatype Call = Call(t: nat, clamp: Clamp)

  predicate CallOk(call: Call, n: nat)
  {
    call.t < n && call.clamp.lo <= Uclamp.CAPACITY && call.clamp.hi <= Uclamp.CAPACITY
  }

  predicate CallsOk(calls: seq<Call>, n: nat) { forall k :: 0 <= k < |calls| ==> CallOk(calls[k], n) }

  /** The stored clamps after a sequence of calls. */
  function Replay(tasks: seq<Task>, calls: seq<Call>): (r: seq<Task>)
    requires CallsOk(calls, |tasks|)
    ensures |r| == |tasks| && forall t :: 0 <= t < |tasks| ==> r[t] == tasks[t].(clamp := r[t].clamp)
  {
    if calls == [] then tasks
    else
      var last := calls[|calls| - 1];
      Refreshed(Replay(tasks, calls[..|calls| - 1]), last.t, last.clamp)
  }

  lemma ReplayNext(tasks: seq<Task>, calls: seq<Call>, call: Call)
    requires CallsOk(calls, |tasks|) && CallOk(call, |tasks|)
    ensures CallsOk(calls + [call], |tasks|)
    ensures Replay(tasks, calls + [call]) == Refreshed(Replay(tasks, calls), call.t, call.clamp)
  {
    assert (calls + [call])[..|calls|] == calls;
  }

  method FollowCall(rq: Uclamp.Rq, c: nat, tasks: seq<Task>, ghost done: seq<Call>, call: Call, ghost calls: seq<Call>)
    requires CallsOk(done, |tasks|) && CallOk(call, |tasks|) && Kept(rq, c, Replay(tasks, done))
      && calls == done + [call]
    modifies Footprint(rq)
    ensures CallsOk(calls, |tasks|) && Kept(rq, c, Replay(tasks, calls))
  {
    ReplayNext(tasks, done, call);
    if tasks[call.t].cpu == c {
      RefreshRq(rq, call.t, call.clamp, Replay(tasks, done));
    } else {
      OtherKept(rq, c, Replay(tasks, done), call.t, call.clamp);
    }
  }

  /** The runqueue of CPU c takes part in the calls for its own tasks and ends in order for the stored clamps they
      leave. */
  method FollowCalls(rq: Uclamp.Rq, c: nat, tasks: seq<Task>, calls: seq<Call>)
    requires CallsOk(calls, |tasks|) && Kept(rq, c, tasks)
    modifies Footprint(rq)
    ensures Kept(rq, c, Replay(tasks, calls))
    decreases |calls|
  {
    if calls != [] {
      var done, last := calls[..|calls| - 1], calls[|calls| - 1];
      FollowCalls(rq, c, tasks, done);
      FollowCall(rq, c, tasks, done, last, calls);
    }
  }

  /** uclamp_update_active_tasks(): exactly the active tasks of the group are refreshed; the calls made for it. */
  method UpdateActiveTasks(tasks: array<Task>, eff: seq<Clamp>, cap: Clamp, g: nat, ghost first: seq<Task>,
                           calls: seq<Call>)
    returns (more: seq<Call>)
    requires forall t :: 0 <= t < tasks.Length ==> tasks[t].group < |eff|
    requires cap.lo <= Uclamp.CAPACITY && cap.hi <= Uclamp.CAPACITY
    requires |first| == tasks.Length && CallsOk(calls, |first|) && tasks[..] == Replay(first, calls)
    modifies tasks
    ensures GroupRefreshed(eff, cap, g, old(tasks[..]), tasks[..])
    ensures CallsOk(more, |first|) && tasks[..] == Replay(first, more)
  {
    more := calls;
    var t := 0;
    while t < tasks.Length
      invariant t <= tasks.Length && CallsOk(more, |first|) && tasks[..] == Replay(first, more)
      invariant forall u :: 0 <= u < tasks.Length ==>
        tasks[u] == if u < t && old(tasks[u]).group == g && old(tasks[u]).active
                    then old(tasks[u]).(clamp := EffectiveGet(eff, cap, old(tasks[u]))) else old(tasks[u])
    {
      if tasks[t].group == g {
        var call := Call(t, EffectiveGet(eff, cap, tasks[t]));
        ghost var now := tasks[..];
        if tasks[t].active {
          tasks[t] := tasks[t].(clamp := call.clamp);
        }
        assert tasks[..] == Refreshed(now, t, call.clamp);
        ReplayNext(first, more, call);
        more := more + [call];
      }
      t := t + 1;
    }
  }

  // --------------------------------------------------------------- the walk

  /** Unsolved groups not reached yet hang directly below a group the walk has changed. */
  ghost predicate Pending(parent: seq<nat>, req: seq<Clamp>, eff: seq<Clamp>, g: nat, changed: set<nat>)
    requires |parent| == |req| == |eff| && TreeShaped(parent)
  {
    && (forall h :: 0 <= h < g && h < |parent| ==> Solved(parent, req, eff, h))
    && (forall h :: g < h < |parent| && !Solved(parent, req, eff, h) ==> parent[h] in changed)
    && (forall c :: c in changed ==> c < g)
  }

  /** Pruning is sound: when g came out unchanged, nothing below it is left to solve. */
  lemma PruneSubtree(parent: seq<nat>, req: seq<Clamp>, eff: seq<Clamp>, g: nat, end: nat, changed: set<nat>)
    requires |parent| == |req| == |eff| && Preorder(parent) && g < end <= |parent|
    requires Pending(parent, req, eff, g, changed) && Solved(parent, req, eff, g)
    requires IsSubtree(parent, g, end)
    ensures forall h :: 0 <= h < end ==> Solved(parent, req, eff, h)
  {
    forall h | g < h < end ensures Solved(parent, req, eff, h) {
      assert Below(parent, h, g) && Below(parent, parent[h], g);
    }
  }

  lemma StepPast(parent: seq<nat>, req: seq<Clamp>, eff: seq<Clamp>, g: nat, changed: set<nat>, now: Clamp)
    requires |parent| == |req| == |eff| && TreeShaped(parent) && g < |parent|
    requires Pending(parent, req, eff, g, changed) && Solved(parent, req, eff[g := now], g)
    ensures Pending(parent, req, eff[g := now], g + 1, changed + {g})
  {
    var eff' := eff[g := now];
    forall h | 0 <= h < |parent| && h != g && (h == 0 || parent[h] != g)
      ensures Solved(parent, req, eff', h) == Solved(parent, req, eff, h)
    {
    }
  }

  /** The walk below `top` is at g: everything before is solved, and g too unless the walk changed the group above
      it. */
  ghost predicate Walking(parent: seq<nat>, req: seq<Clamp>, eff: seq<Clamp>, top: nat, g: nat, changed: set<nat>)
    requires |parent| == |req| == |eff| && TreeShaped(parent)
  {
    && Pending(parent, req, eff, g, changed)
    && (forall c :: c in changed ==> c < |parent| && Below(parent, c, top))
    && (top < g < |parent| && !Solved(parent, req, eff, g) ==> parent[g] in changed)
  }

  lemma WalkBegun(parent: seq<nat>, req: seq<Clamp>, eff: seq<Clamp>, top: nat)
    requires TreeShaped(parent) && top < |parent| == |req| == |eff|
    requires forall g :: 0 <= g < |parent| && g != top ==> Solved(parent, req, eff, g)
    ensures Walking(parent, req, eff, top, top, {})
  {
  }

  lemma WalkPruned(parent: seq<nat>, req: seq<Clamp>, eff: seq<Clamp>, top: nat, end: nat, g: nat, next: nat,
                   changed: set<nat>)
    requires |parent| == |req| == |eff| && Preorder(parent) && top <= g < end && IsSubtree(parent, top, end)
    requires IsSubtree(parent, g, next) && Walking(parent, req, eff, top, g, changed) && Solved(parent, req, eff, g)
    ensures g < next <= end && Walking(parent, req, eff, top, next, changed)
  {
    PruneSubtree(parent, req, eff, g, next, changed);
    assert Below(parent, next - 1, g) && Below(parent, g, top);
    BelowTrans(parent, next - 1, g, top);
  }

  lemma WalkStepped(parent: seq<nat>, req: seq<Clamp>, eff: seq<Clamp>, top: nat, end: nat, g: nat, now: Clamp,
                    changed: set<nat>)
    requires |parent| == |req| == |eff| && Preorder(parent) && top <= g < end && IsSubtree(parent, top, end)
    requires Walking(parent, req, eff, top, g, changed) && Solved(parent, req, eff[g := now], g)
    ensures Walking(parent, req, eff[g := now], top, g + 1, changed + {g})
  {
    StepPast(parent, req, eff, g, changed, now);
    assert Below(parent, g, top);
    if g + 1 < |parent| && parent[g + 1] != g {
      assert Solved(parent, req, eff[g := now], g + 1) == Solved(parent, req, eff, g + 1);
    }
  }

  /** Past the subtree of `top` nothing can be unsolved: every changed group is inside it. */
  lemma WalkDone(parent: seq<nat>, req: seq<Clamp>, eff: seq<Clamp>, top: nat, end: nat, changed: set<nat>)
    requires |parent| == |req| == |eff| && Preorder(parent) && IsSubtree(parent, top, end)
    requires Walking(parent, req, eff, top, end, changed)
    ensures forall h :: 0 <= h < |parent| ==> eff[h] == Effective(parent, req, h)
  {
    forall h | 0 <= h < |parent| ensures Solved(parent, req, eff, h) {
      if h >= end { assert !Below(parent, h, top); }
    }
    forall h | 0 <= h < |parent| ensures eff[h] == Effective(parent, req, h) { SolvedIsEffective(parent, req, eff, h); }
  }

  /** New effective clamps for group g, and for its active tasks with them. */
  method SetEffective(eff: array<Clamp>, tasks: array<Task>, cap: Clamp, g: nat, now: Clamp,
                      ghost first: seq<Task>, calls: seq<Call>)
    returns (more: seq<Call>)
    requires g < eff.Length && AllFresh(eff[..], cap, tasks[..])
    requires cap.lo <= Uclamp.CAPACITY && cap.hi <= Uclamp.CAPACITY
    requires |first| == tasks.Length && CallsOk(calls, |first|) && tasks[..] == Replay(first, calls)
    modifies eff, tasks
    ensures eff[..] == old(eff[..])[g := now] && AllFresh(eff[..], cap, tasks[..])
    ensures CallsOk(more, |first|) && tasks[..] == Replay(first, more)
  {
    ghost var was, before := eff[..], tasks[..];
    eff[g] := now;
    assert eff[..] == was[g := now];
    more := UpdateActiveTasks(tasks, eff[..], cap, g, first, calls);
    GroupFresh(was, cap, g, now, before, tasks[..]);
  }

  /** cpu_util_update_eff(): after the request of `top` changed, every group and every active task is up to date
      again. */
  method UpdateEffective(parent: seq<nat>, req: seq<Clamp>, eff: array<Clamp>, tasks: array<Task>, cap: Clamp, top: nat)
    returns (calls: seq<Call>)
    requires Preorder(parent) && top < |parent| == |req| == eff.Length
    requires forall g :: 0 <= g < |parent| && g != top ==> Solved(parent, req, eff[..], g)
    requires AllFresh(eff[..], cap, tasks[..])
    requires cap.lo <= Uclamp.CAPACITY && cap.hi <= Uclamp.CAPACITY
    modifies eff, tasks
    ensures forall g :: 0 <= g < |parent| ==> eff[g] == Effective(parent, req, g)
    ensures AllFresh(eff[..], cap, tasks[..])
    ensures CallsOk(calls, tasks.Length) && tasks[..] == Replay(old(tasks[..]), calls)
  {
    calls := [];
    var end := SubtreeEnd(parent, top);
    var g := top;
    ghost var changed: set<nat> := {};
    WalkBegun(parent, req, eff[..], top);
    while g < end
      invariant top <= g <= end && Walking(parent, req, eff[..], top, g, changed)
      invariant AllFresh(eff[..], cap, tasks[..])
      invariant CallsOk(calls, tasks.Length) && tasks[..] == Replay(old(tasks[..]), calls)
    {
      var now := if g == 0 then RootClamp(req[0]) else Restricted(req[g], eff[parent[g]]);
      if now == eff[g] {
        var next := SubtreeEnd(parent, g);
        WalkPruned(parent, req, eff[..], top, end, g, next, changed);
        g := next;
      } else {
        ghost var was := eff[..];
        WalkStepped(parent, req, was, top, end, g, now, changed);
        calls := SetEffective(eff, tasks, cap, g, now, old(tasks[..]), calls);
        assert eff[..] == was[g := now];
        changed := changed + {g};
        g := g + 1;
      }
    }
    WalkDone(parent, req, eff[..], top, end, changed);
  }

  /** capacity_from_percent(): hundredths of a percent to capacity, rounded to the closest. */
  function Util(percent: nat): (u: nat)
    ensures percent <= 10000 ==> u <= Uclamp.CAPACITY
  {
    (percent * 1024 + 5000) / 10000
  }

  /** The request after one of its two bounds is written. */
  function Requested(was: Clamp, low: bool, percent: nat): Clamp
  {
    if low then Clamp(Util(percent), was.hi) else Clamp(was.lo, Util(percent))
  }

  /** The groups' side of cpu_uclamp_write(): out of range is refused, otherwise the whole hierarchy and all tasks
      follow. */
  method WriteGroups(parent: seq<nat>, req: array<Clamp>, eff: array<Clamp>, tasks: array<Task>, cap: Clamp,
                     top: nat, low: bool, percent: nat)
    returns (ok: bool, calls: seq<Call>)
    requires Preorder(parent) && top < |parent| == req.Length == eff.Length && req != eff
    requires forall g :: 0 <= g < |parent| ==> Solved(parent, req[..], eff[..], g)
    requires AllFresh(eff[..], cap, tasks[..])
    requires cap.lo <= Uclamp.CAPACITY && cap.hi <= Uclamp.CAPACITY
    modifies req, eff, tasks
    ensures ok <==> percent <= 10000
    ensures req[..] == if ok then old(req[..])[top := Requested(old(req[top]), low, percent)] else old(req[..])
    ensures !ok ==> eff[..] == old(eff[..]) && calls == []
    ensures forall g :: 0 <= g < |parent| ==> eff[g] == Effective(parent, req[..], g)
    ensures AllFresh(eff[..], cap, tasks[..])
    ensures CallsOk(calls, tasks.Length) && tasks[..] == Replay(old(tasks[..]), calls)
  {
    calls := [];
    if percent > 10000 {
      forall h | 0 <= h < |parent| ensures eff[h] == Effective(parent, req[..], h) {
        SolvedIsEffective(parent, req[..], eff[..], h);
      }
      return false, [];
    }
    ghost var was := req[..];
    var util := Util(percent);
    if low && req[top].lo != util {
      req[top] := Clamp(util, req[top].hi);
    } else if !low && req[top].hi != util {
      req[top] := Clamp(req[top].lo, util);
    }
    assert forall h :: 0 <= h < |parent| && h != top ==> req[h] == was[h];
    forall h | 0 <= h < |parent| && h != top ensures Solved(parent, req[..], eff[..], h) {
      assert Solved(parent, was, eff[..], h);
    }
    calls := UpdateEffective(parent, req[..], eff, tasks, cap, top);
    ok := true;
  }

  /** cpu_uclamp_write(): a refusal changes nothing; otherwise groups, active tasks and the runqueue of any CPU c
      agree again. */
  method Write(parent: seq<nat>, req: array<Clamp>, eff: array<Clamp>, tasks: array<Task>, cap: Clamp,
               top: nat, low: bool, percent: nat, rq: Uclamp.Rq, c: nat)
    returns (ok: bool)
    requires Preorder(parent) && top < |parent| == req.Length == eff.Length && req != eff
    requires forall g :: 0 <= g < |parent| ==> Solved(parent, req[..], eff[..], g)
    requires AllFresh(eff[..], cap, tasks[..])
    requires cap.lo <= Uclamp.CAPACITY && cap.hi <= Uclamp.CAPACITY
    requires Kept(rq, c, tasks[..]) && {req as object, eff, tasks} !! Footprint(rq)
    modifies req, eff, tasks, Footprint(rq)
    ensures ok <==> percent <= 10000
    ensures req[..] == if ok then old(req[..])[top := Requested(old(req[top]), low, percent)] else old(req[..])
    ensures !ok ==> eff[..] == old(eff[..]) && tasks[..] == old(tasks[..])
    ensures forall g :: 0 <= g < |parent| ==> eff[g] == Effective(parent, req[..], g)
    ensures AllFresh(eff[..], cap, tasks[..])
    ensures forall t :: 0 <= t < tasks.Length ==> tasks[t] == old(tasks[t]).(clamp := tasks[t].clamp)
    ensures Kept(rq, c, tasks[..])
  {
    var before := tasks[..];
    var calls;
    ok, calls := WriteGroups(parent, req, eff, tasks, cap, top, low, percent);
    FollowCalls(rq, c, before, calls);
  }
}
