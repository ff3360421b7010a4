/**
 walk_tg_tree_from(): the iterative walk over the task-group tree with its two
 gotos refines the recursive depth-first walk that stops at the first visitor
 returning non-zero, for any visitors and any data they thread through.

 Groups are numbered parents first; children[p] is the list of p's children and
 pos[c] is where c stands in its parent's list.
 */
module TgWalk {
  import opened Ancestry

  datatype Tree = Tree(parent: seq<nat>, pos: seq<nat>, children: seq<seq<nat>>)

  datatype Visit<D> = Visit(ret: int, data: D)

  predicate TreeOk(t: Tree)
  {
    && |t.parent| == |t.pos| == |t.children| > 0 && TreeShaped(t.parent)
    && (forall p, k :: 0 <= p < |t.children| && 0 <= k < |t.children[p]| ==> ChildOk(t, p, k))
    && (forall c :: 0 < c < |t.parent| ==>
          t.pos[c] < |t.children[t.parent[c]]| && t.children[t.parent[c]][t.pos[c]] == c)
  }

  predicate ChildOk(t: Tree, p: nat, k: nat)
    requires p < |t.children| == |t.parent| == |t.pos| && k < |t.children[p]|
  {
    var c := t.children[p][k];
    p < c < |t.parent| && t.parent[c] == p && t.pos[c] == k
  }

  /** Visit p: down on entry, its children in order, up on leaving; the first non-zero return ends it all. */
  function Dfs<D>(t: Tree, down: (nat, D) -> Visit<D>, up: (nat, D) -> Visit<D>, p: nat, d: D): Visit<D>
    requires TreeOk(t) && p < |t.parent|
    decreases |t.parent| - p, 1, 0
  {
    var v := down(p, d);
    if v.ret != 0 then v
    else
      var w := DfsChildren(t, down, up, p, 0, v.data);
      if w.ret != 0 then w else up(p, w.data)
  }

  /** The children of p from the k-th on. */
  function DfsChildren<D>(t: Tree, down: (nat, D) -> Visit<D>, up: (nat, D) -> Visit<D>, p: nat, k: nat, d: D): Visit<D>
    requires TreeOk(t) && p < |t.parent| && k <= |t.children[p]|
    decreases |t.parent| - p, 0, |t.children[p]| - k
  {
    if k == |t.children[p]| then Visit(0, d)
    else
      assert ChildOk(t, p, k);
      var v := Dfs(t, down, up, t.children[p][k], d);
      if v.ret != 0 then v else DfsChildren(t, down, up, p, k + 1, v.data)
  }

  /** What is left of the whole walk when p's children before the k-th are done. */
  ghost function After<D>(t: Tree, down: (nat, D) -> Visit<D>, up: (nat, D) -> Visit<D>, from: nat, p: nat, k: nat,
                          d: D): Visit<D>
    requires TreeOk(t) && p < |t.parent| && k <= |t.children[p]| && Below(t.parent, p, from)
    decreases p
  {
    var w := DfsChildren(t, down, up, p, k, d);
    if w.ret != 0 then w
    else
      var v := up(p, w.data);
      if v.ret != 0 || p == from then v else After(t, down, up, from, t.parent[p], t.pos[p] + 1, v.data)
  }

  /** What is left of it when p is about to be entered. */
  ghost function Entering<D>(t: Tree, down: (nat, D) -> Visit<D>, up: (nat, D) -> Visit<D>, from: nat, p: nat,
                             d: D): Visit<D>
    requires TreeOk(t) && p < |t.parent| && Below(t.parent, p, from)
  {
    var v := Dfs(t, down, up, p, d);
    if v.ret != 0 || p == from then v else After(t, down, up, from, t.parent[p], t.pos[p] + 1, v.data)
  }

  /** Visitor calls inside the subtree of p, and among p's children from the k-th on. */
  ghost function Work(t: Tree, p: nat): nat
    requires TreeOk(t) && p < |t.parent|
    decreases |t.parent| - p, 1, 0
  {
    2 + WorkChildren(t, p, 0)
  }

  ghost function WorkChildren(t: Tree, p: nat, k: nat): nat
    requires TreeOk(t) && p < |t.parent| && k <= |t.children[p]|
    decreases |t.parent| - p, 0, |t.children[p]| - k
  {
    if k == |t.children[p]| then 0
    else
      assert ChildOk(t, p, k);
      Work(t, t.children[p][k]) + WorkChildren(t, p, k + 1)
  }

  ghost function WorkAfter(t: Tree, from: nat, p: nat, k: nat): nat
    requires TreeOk(t) && p < |t.parent| && k <= |t.children[p]| && Below(t.parent, p, from)
    decreases p
  {
    WorkChildren(t, p, k) + 1 + if p == from then 0 else WorkAfter(t, from, t.parent[p], t.pos[p] + 1)
  }

  ghost function WorkEntering(t: Tree, from: nat, p: nat): nat
    requires TreeOk(t) && p < |t.parent| && Below(t.parent, p, from)
  {
    Work(t, p) + if p == from then 0 else WorkAfter(t, from, t.parent[p], t.pos[p] + 1)
  }

  /** walk_tg_tree_from(), label by label. */
  method Walk<D>(t: Tree, from: nat, down: (nat, D) -> Visit<D>, up: (nat, D) -> Visit<D>, d: D) returns (v: Visit<D>)
    requires TreeOk(t) && from < |t.parent|
    ensures v == Dfs(t, down, up, from, d)
  {
    var parent: nat := from;
    var child: nat := 0;            // position in parent's list of children
    var entering := true;      // at the label "down"
    v := Visit(0, d);
    while true
      invariant parent < |t.parent| && Below(t.parent, parent, from) && child <= |t.children[parent]|
      invariant Dfs(t, down, up, from, d) ==
        if entering then Entering(t, down, up, from, parent, v.data)
          else After(t, down, up, from, parent, child, v.data)
      decreases if entering then WorkEntering(t, from, parent) else WorkAfter(t, from, parent, child),
                if entering then 0 else 1
    {
      if entering {
        v := down(parent, v.data);
        if v.ret != 0 {
          return;
        }
        child := 0;
        entering := false;
      } else if child < |t.children[parent]| {
        assert ChildOk(t, parent, child);
        parent := t.children[parent][child];
        child := 0;
        entering := true;
      } else {
        v := up(parent, v.data);
        if v.ret != 0 || parent == from {
          return;
        }
        child := t.pos[parent] + 1;
        parent := t.parent[parent];
      }
    }
  }
}
