/**
 CFS group bandwidth: tg_set_cfs_bandwidth() and the admission walk
 __cfs_schedulable(), in the source's 64-bit arithmetic, on the cgroup v1 and on
 the unified (v2) hierarchy.
 */
module Bandwidth {
  import opened Ancestry
  import opened TgWalk

  const U64: nat := 0x1_0000_0000_0000_0000
  const RUNTIME_INF: nat := U64 - 1
  const BW_UNIT: nat := 0x10_0000              // 1 << BW_SHIFT
  const MAX_BW: nat := 0x0FFF_FFFF_FFFF        // (1 << (64 - BW_SHIFT)) - 1
  const NSEC_PER_USEC: nat := 1000
  const MIN_PERIOD: nat := 1_000_000           // min_cfs_quota_period
  const MAX_PERIOD: nat := 1_000_000_000       // max_cfs_quota_period
  const MAX_RUNTIME: nat := MAX_BW * NSEC_PER_USEC
  const EINVAL := 22
  const NO_LIMIT := -1                         // RUNTIME_INF read as a signed number

  datatype Bw = Bw(period: nat, quota: nat, burst: nat)

  function AsSigned(x: nat): int { if x < U64 / 2 then x else x - U64 }

  /** to_ratio(), with the shift wrapping at 64 bits. */
  function ToRatio(period: nat, runtime: nat): nat
  {
    if runtime == RUNTIME_INF then BW_UNIT
    else if period == 0 then 0
    else (runtime * BW_UNIT % U64) / period
  }

  /** normalize_cfs_quota() as stored in the signed hierarchical_quota. */
  function Normalized(b: Bw): int
  {
    if b.quota == RUNTIME_INF then AsSigned(RUNTIME_INF)
    else AsSigned(ToRatio(b.period / NSEC_PER_USEC, b.quota / NSEC_PER_USEC))
  }

  /** The range checks of tg_set_cfs_bandwidth(). */
  predicate InBounds(b: Bw)
  {
    && b.quota >= MIN_PERIOD && b.period >= MIN_PERIOD && b.period <= MAX_PERIOD
    && (b.quota != RUNTIME_INF ==> b.quota <= MAX_RUNTIME && b.burst <= b.quota && b.burst + b.quota <= MAX_RUNTIME)
  }

  lemma FactorLess(d: nat, k: nat, m: nat)
    requires d * k < d * m
    ensures k < m
  {
    assert d * (m - k) > 0;
  }

  lemma DivBelow(x: nat, d: nat, q: nat)
    requires d > 0 && x < d * (q + 1)
    ensures x / d <= q
  {
    FactorLess(d, x / d, q + 1);
  }

  /** Within the bounds the shift cannot overflow, and the ratio is a non-negative signed number: no limit is -1
      only. */
  lemma ShiftFits(b: Bw)
    requires InBounds(b)
    ensures b.quota != RUNTIME_INF ==> b.quota / NSEC_PER_USEC * BW_UNIT < U64
    ensures b.quota != RUNTIME_INF ==>
      Normalized(b) == b.quota / NSEC_PER_USEC * BW_UNIT / (b.period / NSEC_PER_USEC) >= 0
    ensures Normalized(b) == NO_LIMIT <==> b.quota == RUNTIME_INF
  {
    if b.quota != RUNTIME_INF {
      DivBelow(b.quota, NSEC_PER_USEC, MAX_BW);
      var x := b.quota / NSEC_PER_USEC * BW_UNIT;
      var p := b.period / NSEC_PER_USEC;
      assert x < U64 && p >= 1000;
      assert x < p * (U64 / 2) by { assert p * (U64 / 2) >= 1000 * (U64 / 2); }
      DivBelow(x, p, U64 / 2 - 1);
    }
  }

  /** The tightest normalized quota on the path from the root to g. */
  function PathLimit(t: Tree, norm: seq<int>, g: nat): int
    requires TreeOk(t) && g < |t.parent| == |norm|
    decreases g
  {
    if g == 0 then NO_LIMIT
    else
      var up := PathLimit(t, norm, t.parent[g]);
      if norm[g] == NO_LIMIT then up
      else if up == NO_LIMIT || norm[g] <= up then norm[g]
      else up
  }

  /** A group's own quota fits into what the groups above leave it. */
  predicate Fits(t: Tree, norm: seq<int>, g: nat)
    requires TreeOk(t) && g < |t.parent| == |norm|
  {
    g == 0 || norm[g] == NO_LIMIT || PathLimit(t, norm, t.parent[g]) == NO_LIMIT
      || norm[g] <= PathLimit(t, norm, t.parent[g])
  }

  predicate Feasible(t: Tree, norm: seq<int>)
    requires TreeOk(t) && |t.parent| == |norm|
  {
    forall g :: 0 <= g < |norm| ==> Fits(t, norm, g)
  }

  /** What the walk leaves in g's hierarchical_quota, and whether it admits g; v2 takes a plain signed minimum. */
  function Stored(t: Tree, norm: seq<int>, v2: bool, g: nat): int
    requires TreeOk(t) && g < |t.parent| == |norm|
    decreases g
  {
    if !v2 then PathLimit(t, norm, g)
    else if g == 0 then NO_LIMIT
    else
      var up := Stored(t, norm, v2, t.parent[g]);
      if norm[g] < up then norm[g] else up
  }

  predicate Admitted(t: Tree, norm: seq<int>, v2: bool, g: nat)
    requires TreeOk(t) && g < |t.parent| == |norm|
  {
    v2 || Fits(t, norm, g)
  }

  /** tg_cfs_schedulable_down(); hq holds every group's hierarchical_quota. */
  function Down(t: Tree, norm: seq<int>, v2: bool, g: nat, hq: seq<int>): Visit<seq<int>>
  {
    if g >= |hq| then Visit(0, hq)
    else if g == 0 then Visit(0, hq[0 := NO_LIMIT])
    else if g >= |norm| || g >= |t.parent| || t.parent[g] >= |hq| then Visit(0, hq)
    else
      var up := hq[t.parent[g]];
      if v2 then Visit(0, hq[g := if norm[g] < up then norm[g] else up])
      else if norm[g] == NO_LIMIT then Visit(0, hq[g := up])
      else if up != NO_LIMIT && norm[g] > up then Visit(-EINVAL, hq)
      else Visit(0, hq[g := norm[g]])
  }

  function Nop(g: nat, hq: seq<int>): Visit<seq<int>> { Visit(0, hq) }

  function DownOf(t: Tree, norm: seq<int>, v2: bool): (nat, seq<int>) -> Visit<seq<int>>
  {
    (g: nat, hq: seq<int>) => Down(t, norm, v2, g, hq)
  }

  /** What visiting a set of groups does to hq: only they change, all are admitted or one is refused. */
  ghost predicate Walked(t: Tree, norm: seq<int>, v2: bool, groups: set<nat>, hq: seq<int>, v: Visit<seq<int>>)
    requires TreeOk(t) && |t.parent| == |norm| == |hq|
  {
    && |v.data| == |hq|
    && (forall d: nat :: d < |hq| && d !in groups ==> v.data[d] == hq[d])
    && (v.ret == 0 ==> forall d: nat :: d < |hq| && d in groups ==>
          Admitted(t, norm, v2, d) && v.data[d] == Stored(t, norm, v2, d))
    && (v.ret != 0 ==> v.ret == -EINVAL && exists d: nat :: d < |hq| && d in groups && !Admitted(t, norm, v2, d))
  }

  ghost function Subtree(t: Tree, p: nat): set<nat>
    requires TreeOk(t)
  {
    set d: nat | d < |t.parent| && Below(t.parent, d, p)
  }

  /** The subtrees of p's children from the k-th on. */
  ghost function Later(t: Tree, p: nat, k: nat): set<nat>
    requires TreeOk(t) && p < |t.parent|
  {
    set d: nat | d < |t.parent| && BelowLaterChild(t, p, k, d)
  }

  ghost predicate BelowLaterChild(t: Tree, p: nat, k: nat, d: nat)
    requires TreeOk(t) && p < |t.parent| && d < |t.parent|
  {
    exists j: nat :: k <= j < |t.children[p]| && Below(t.parent, d, t.children[p][j])
  }

  lemma {:induction false} BelowChild(t: Tree, d: nat, p: nat)
    requires TreeOk(t) && d < |t.parent| && p < |t.parent|
    ensures Below(t.parent, d, p) <==> d == p || d in Later(t, p, 0)
    decreases d
  {
    if d > 0 {
      BelowChild(t, t.parent[d], p);
      if d in Later(t, p, 0) {
        var j: nat :| j < |t.children[p]| && Below(t.parent, d, t.children[p][j]);
        assert ChildOk(t, p, j);
        assert t.parent[d] == p || Below(t.parent, t.parent[d], t.children[p][j]);
      }
      if t.parent[d] == p {
        assert t.children[p][t.pos[d]] == d;
      }
      if t.parent[d] in Later(t, p, 0) {
        var j: nat :| j < |t.children[p]| && Below(t.parent, t.parent[d], t.children[p][j]);
        assert Below(t.parent, d, t.children[p][j]);
      }
    } else {
      forall j: nat | j < |t.children[p]| ensures !Below(t.parent, 0, t.children[p][j]) { assert ChildOk(t, p, j); }
    }
  }

  /** Subtrees of different children do not meet. */
  lemma {:induction false} ChildrenApart(t: Tree, d: nat, p: nat, j: nat, k: nat)
    requires TreeOk(t) && d < |t.parent| && p < |t.parent| && j < |t.children[p]| && k < |t.children[p]| && j != k
    requires Below(t.parent, d, t.children[p][j])
    ensures !Below(t.parent, d, t.children[p][k])
    decreases d
  {
    assert ChildOk(t, p, j) && ChildOk(t, p, k);
    if d == t.children[p][j] {
      if Below(t.parent, p, t.children[p][k]) { BelowLater(t.parent, p, t.children[p][k]); }
    } else {
      ChildrenApart(t, t.parent[d], p, j, k);
      if d == t.children[p][k] { BelowLater(t.parent, p, t.children[p][j]); }
    }
  }

  lemma LaterSplit(t: Tree, p: nat, k: nat)
    requires TreeOk(t) && p < |t.parent| && k < |t.children[p]|
    ensures Later(t, p, k) == Subtree(t, t.children[p][k]) + Later(t, p, k + 1)
    ensures Subtree(t, t.children[p][k]) !! Later(t, p, k + 1)
    ensures p !in Later(t, p, k)
  {
    forall d | d in Later(t, p, k + 1)
      ensures d !in Subtree(t, t.children[p][k])
    {
      var j: nat :| k + 1 <= j < |t.children[p]| && Below(t.parent, d, t.children[p][j]);
      ChildrenApart(t, d, p, j, k);
    }
    forall j: nat | k <= j < |t.children[p]|
      ensures !Below(t.parent, p, t.children[p][j])
    {
      assert ChildOk(t, p, j);
      if Below(t.parent, p, t.children[p][j]) { BelowLater(t.parent, p, t.children[p][j]); }
    }
  }

  /** The depth-first walk of one subtree, given that p's parent has its value. */
  lemma {:induction false} DfsWalked(t: Tree, norm: seq<int>, v2: bool, p: nat, hq: seq<int>)
    requires TreeOk(t) && p < |t.parent| == |norm| == |hq|
    requires p > 0 ==> hq[t.parent[p]] == Stored(t, norm, v2, t.parent[p])
    ensures Walked(t, norm, v2, Subtree(t, p), hq, Dfs(t, DownOf(t, norm, v2), Nop, p, hq))
    decreases |t.parent| - p, 1, 0
  {
    var v := Down(t, norm, v2, p, hq);
    assert Below(t.parent, p, p);
    if v.ret == 0 {
      ChildrenWalked(t, norm, v2, p, 0, v.data);
      forall d: nat | d < |hq| ensures Below(t.parent, d, p) <==> d == p || d in Later(t, p, 0) { BelowChild(t, d, p); }
      LaterApart(t, p);
    } else {
      assert p in Subtree(t, p) && !Admitted(t, norm, v2, p);
    }
  }

  lemma LaterApart(t: Tree, p: nat)
    requires TreeOk(t) && p < |t.parent|
    ensures p !in Later(t, p, 0)
  {
    if |t.children[p]| > 0 { LaterSplit(t, p, 0); }
  }

  lemma {:induction false} ChildrenWalked(t: Tree, norm: seq<int>, v2: bool, p: nat, k: nat, hq: seq<int>)
    requires TreeOk(t) && p < |t.parent| == |norm| == |hq| && k <= |t.children[p]|
    requires hq[p] == Stored(t, norm, v2, p)
    ensures Walked(t, norm, v2, Later(t, p, k), hq, DfsChildren(t, DownOf(t, norm, v2), Nop, p, k, hq))
    decreases |t.parent| - p, 0, |t.children[p]| - k
  {
    if k < |t.children[p]| {
      assert ChildOk(t, p, k);
      var c := t.children[p][k];
      LaterSplit(t, p, k);
      DfsWalked(t, norm, v2, c, hq);
      var v := Dfs(t, DownOf(t, norm, v2), Nop, c, hq);
      if v.ret == 0 {
        ChildrenWalked(t, norm, v2, p, k + 1, v.data);
      }
    }
  }

  lemma {:induction false} AllBelowRoot(t: Tree, d: nat)
    requires TreeOk(t) && d < |t.parent|
    ensures Below(t.parent, d, 0)
    decreases d
  {
    if d == 0 {
    } else {
      AllBelowRoot(t, t.parent[d]);
    }
  }

  /** The whole walk: it accepts v1 settings exactly when each group fits and v2 settings always,
      whatever hierarchical_quota held before. */
  lemma WalkDecides(t: Tree, norm: seq<int>, v2: bool, hq: seq<int>)
    requires TreeOk(t) && |t.parent| == |norm| == |hq|
    ensures
      var v := Dfs(t, DownOf(t, norm, v2), Nop, 0, hq);
      && |v.data| == |hq|
      && (v.ret == 0 || v.ret == -EINVAL)
      && (v.ret == 0 <==> v2 || Feasible(t, norm))
      && (v.ret == 0 ==> forall d: nat :: d < |hq| ==> v.data[d] == Stored(t, norm, v2, d))
  {
    DfsWalked(t, norm, v2, 0, hq);
    forall d: nat | d < |hq|
      ensures d in Subtree(t, 0) && (Admitted(t, norm, v2, d) <==> v2 || Fits(t, norm, d))
    {
      AllBelowRoot(t, d);
    }
  }

  /** The tightest limit is attained by a group on the path, and bounds everything below that group. */
  lemma {:induction false} LimitAttained(t: Tree, norm: seq<int>, d: nat) returns (g: nat)
    requires TreeOk(t) && d < |t.parent| == |norm|
    ensures PathLimit(t, norm, d) != NO_LIMIT ==>
      0 < g <= d && Below(t.parent, d, g) && norm[g] == PathLimit(t, norm, d)
    decreases d
  {
    g := d;
    if d > 0 && norm[d] != PathLimit(t, norm, d) {
      g := LimitAttained(t, norm, t.parent[d]);
    }
  }

  lemma {:induction false} LimitSigned(t: Tree, norm: seq<int>, d: nat)
    requires TreeOk(t) && d < |t.parent| == |norm|
    requires forall i :: 0 <= i < |norm| ==> norm[i] >= NO_LIMIT
    ensures PathLimit(t, norm, d) >= NO_LIMIT
    decreases d
  {
    if d == 0 {
    } else {
      LimitSigned(t, norm, t.parent[d]);
    }
  }

  lemma {:induction false} LimitBounds(t: Tree, norm: seq<int>, d: nat, g: nat)
    requires TreeOk(t) && d < |t.parent| == |norm| && 0 < g < |norm| && Below(t.parent, d, g) && norm[g] != NO_LIMIT
    requires forall i :: 0 <= i < |norm| ==> norm[i] >= NO_LIMIT
    ensures NO_LIMIT < PathLimit(t, norm, d) <= norm[g]
    decreases d
  {
    if d != g {
      LimitBounds(t, norm, t.parent[d], g);
    } else {
      LimitSigned(t, norm, t.parent[d]);
    }
  }

  /** No group asks for more than any group above it: the hierarchy's promise, pair by pair. */
  ghost predicate Nested(t: Tree, norm: seq<int>)
    requires TreeOk(t) && |t.parent| == |norm|
  {
    forall d: nat, g: nat ::
      0 < g < |norm| && d < |norm| && Below(t.parent, d, g) && norm[g] != NO_LIMIT && norm[d] != NO_LIMIT ==>
      norm[d] <= norm[g]
  }

  lemma FeasibleIffNested(t: Tree, norm: seq<int>)
    requires TreeOk(t) && |t.parent| == |norm|
    requires forall i :: 0 <= i < |norm| ==> norm[i] >= NO_LIMIT
    ensures Feasible(t, norm) <==> Nested(t, norm)
  {
    if Feasible(t, norm) {
      forall d: nat, g: nat |
        0 < g < |norm| && d < |norm| && d != g && Below(t.parent, d, g) && norm[g] != NO_LIMIT && norm[d] != NO_LIMIT
        ensures norm[d] <= norm[g]
      {
        LimitBounds(t, norm, t.parent[d], g);
        assert Fits(t, norm, d);
      }
    }
    if Nested(t, norm) {
      forall d: nat | 0 < d < |norm|
        ensures Fits(t, norm, d)
      {
        var g := LimitAttained(t, norm, t.parent[d]);
        assert Below(t.parent, t.parent[d], g) ==> Below(t.parent, d, g);
      }
      assert Fits(t, norm, 0);
    }
  }

  /** On the unified hierarchy the minimum with -1 is -1: no group keeps a limit. */
  lemma {:induction false} UnifiedForgets(t: Tree, norm: seq<int>, g: nat)
    requires TreeOk(t) && g < |t.parent| == |norm|
    requires forall i :: 0 <= i < |norm| ==> norm[i] >= NO_LIMIT
    ensures Stored(t, norm, true, g) == NO_LIMIT
    decreases g
  {
    if g == 0 {
    } else {
      UnifiedForgets(t, norm, t.parent[g]);
    }
  }

  lemma {:induction false} UnlimitedPath(t: Tree, norm: seq<int>, g: nat)
    requires TreeOk(t) && g < |t.parent| == |norm|
    requires forall i :: 0 < i < |norm| ==> norm[i] == NO_LIMIT
    ensures PathLimit(t, norm, g) == NO_LIMIT
    decreases g
  {
    if g == 0 {
    } else {
      UnlimitedPath(t, norm, t.parent[g]);
    }
  }

  lemma OwnLimit(t: Tree, norm: seq<int>, g: nat)
    requires TreeOk(t) && 0 < g < |t.parent| == |norm|
    requires forall i :: 0 <= i < |norm| ==> norm[i] >= NO_LIMIT
    ensures PathLimit(t, norm, g) == NO_LIMIT ==> norm[g] == NO_LIMIT
  {
    LimitSigned(t, norm, t.parent[g]);
  }

  ghost predicate UnifiedIsMinimum(t: Tree, norm: seq<int>)
    requires TreeOk(t) && |t.parent| == |norm|
  {
    forall g: nat :: g < |norm| ==> Stored(t, norm, true, g) == PathLimit(t, norm, g)
  }

  predicate Unlimited(norm: seq<int>) { forall g :: 0 < g < |norm| ==> norm[g] == NO_LIMIT }

  /** The stored value is the path's minimum on the unified hierarchy exactly when no group has a quota at all. */
  lemma UnifiedMinimumIff(t: Tree, norm: seq<int>)
    requires TreeOk(t) && |t.parent| == |norm|
    requires forall i :: 0 <= i < |norm| ==> norm[i] >= NO_LIMIT
    ensures UnifiedIsMinimum(t, norm) <==> Unlimited(norm)
  {
    if UnifiedIsMinimum(t, norm) {
      forall g: nat | 0 < g < |norm| ensures norm[g] == NO_LIMIT {
        UnifiedForgets(t, norm, g);
        OwnLimit(t, norm, g);
      }
    }
    if Unlimited(norm) {
      forall g: nat | g < |norm| ensures Stored(t, norm, true, g) == PathLimit(t, norm, g) {
        UnifiedForgets(t, norm, g);
        UnlimitedPath(t, norm, g);
      }
    }
  }

  /** Half a CPU for the only child of the root: on the unified hierarchy the walk stores no limit for it. */
  lemma UnifiedLosesLimit()
    ensures
      var t := Tree([0, 0], [0, 0], [[1], []]);
      var norm := [NO_LIMIT, BW_UNIT / 2];
      TreeOk(t) && Stored(t, norm, true, 1) == NO_LIMIT && PathLimit(t, norm, 1) == BW_UNIT / 2
  {
    var t := Tree([0, 0], [0, 0], [[1], []]);
    assert TreeOk(t);
    assert PathLimit(t, [NO_LIMIT, BW_UNIT / 2], 0) == NO_LIMIT;
  }

  function Norms(bw: seq<Bw>): (norm: seq<int>)
    ensures |norm| == |bw| && forall i :: 0 <= i < |bw| ==> norm[i] == Normalized(bw[i])
  {
    seq(|bw|, i requires 0 <= i < |bw| => Normalized(bw[i]))
  }

  lemma NormsBounded(bw: seq<Bw>)
    requires forall i :: 0 <= i < |bw| ==> InBounds(bw[i])
    ensures forall i :: 0 <= i < |bw| ==> Norms(bw)[i] >= NO_LIMIT
  {
    forall i | 0 <= i < |bw| ensures Normalized(bw[i]) >= NO_LIMIT { ShiftFits(bw[i]); }
  }

  ghost predicate LimitsStored(t: Tree, bw: seq<Bw>, unified: bool, hq: seq<int>)
    requires TreeOk(t) && |t.parent| == |bw|
  {
    |hq| == |bw| && forall d: nat :: d < |bw| ==> hq[d] == if unified then NO_LIMIT else PathLimit(t, Norms(bw), d)
  }

  /** __cfs_schedulable() accepts v1 settings exactly when they are nested, and v2 settings always. */
  lemma AdmissionDecides(t: Tree, bw: seq<Bw>, unified: bool, hq: seq<int>)
    requires TreeOk(t) && |t.parent| == |bw| == |hq|
    requires forall i :: 0 <= i < |bw| ==> InBounds(bw[i])
    ensures
      var v := Dfs(t, DownOf(t, Norms(bw), unified), Nop, 0, hq);
      && |v.data| == |hq|
      && (v.ret == 0 || v.ret == -EINVAL)
      && (v.ret == 0 <==> unified || Nested(t, Norms(bw)))
      && (v.ret == 0 ==> LimitsStored(t, bw, unified, v.data))
  {
    var norm := Norms(bw);
    NormsBounded(bw);
    WalkDecides(t, norm, unified, hq);
    if unified {
      forall d: nat | d < |bw| ensures Stored(t, norm, true, d) == NO_LIMIT { UnifiedForgets(t, norm, d); }
    } else {
      FeasibleIffNested(t, norm);
    }
  }

  /** The groups' bandwidth settings and the scratch values the walk leaves behind. */
  class Groups {
    const tree: Tree
    const unified: bool
    var bw: seq<Bw>
    var hierarchical: seq<int>

    ghost predicate Valid()
      reads this
    {
      && TreeOk(tree) && |tree.parent| == |bw| == |hierarchical|
      && (forall i :: 0 <= i < |bw| ==> InBounds(bw[i]))
      && (!unified ==> Nested(tree, Norms(bw)))
    }

    constructor (tree: Tree, unified: bool, period: nat)
      requires TreeOk(tree) && MIN_PERIOD <= period <= MAX_PERIOD
      ensures Valid() && this.tree == tree && this.unified == unified
      ensures forall i :: 0 <= i < |bw| ==> bw[i] == Bw(period, RUNTIME_INF, 0)
    {
      this.tree := tree;
      this.unified := unified;
      bw := seq(|tree.parent|, i => Bw(period, RUNTIME_INF, 0));
      hierarchical := seq(|tree.parent|, i => NO_LIMIT);
    }

    /** tg_set_cfs_bandwidth(): refused settings are not stored, accepted ones keep every pair of groups nested. */
    method SetBandwidth(g: nat, b: Bw) returns (ret: int)
      requires Valid() && g < |bw|
      modifies this
      ensures Valid()
      ensures ret == 0 || ret == -EINVAL
      ensures ret == 0 <==> g != 0 && InBounds(b) && (unified || Nested(tree, Norms(old(bw)[g := b])))
      ensures bw == if ret == 0 then old(bw)[g := b] else old(bw)
      ensures g == 0 || !InBounds(b) ==> hierarchical == old(hierarchical)
      ensures ret == 0 ==> LimitsStored(tree, bw, unified, hierarchical)
    {
      if g == 0 { return -EINVAL; }
      if b.quota < MIN_PERIOD || b.period < MIN_PERIOD { return -EINVAL; }
      if b.period > MAX_PERIOD { return -EINVAL; }
      if b.quota != RUNTIME_INF && b.quota > MAX_RUNTIME { return -EINVAL; }
      if b.quota != RUNTIME_INF && (b.burst > b.quota || b.burst + b.quota > MAX_RUNTIME) { return -EINVAL; }
      var now := bw[g := b];
      AdmissionDecides(tree, now, unified, hierarchical);
      var v := Walk(tree, 0, DownOf(tree, Norms(now), unified), Nop, hierarchical);
      hierarchical := v.data;
      ret := v.ret;
      if ret == 0 {
        bw := now;
      }
    }
  }
}
