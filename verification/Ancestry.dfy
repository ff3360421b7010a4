/** Trees given by the parent of each node, numbered parents first; node 0 is the root. */
module Ancestry {

  predicate TreeShaped(parent: seq<nat>) { forall g :: 0 < g < |parent| ==> parent[g] < g }

  /** d is g itself or below it. */
  predicate Below(parent: seq<nat>, d: nat, g: nat)
    requires d < |parent| && TreeShaped(parent)
    decreases d
  {
    d == g || (d > 0 && Below(parent, parent[d], g))
  }

  lemma {:induction false} BelowTrans(parent: seq<nat>, d: nat, m: nat, g: nat)
    requires TreeShaped(parent) && d < |parent| && m < |parent| && Below(parent, d, m) && Below(parent, m, g)
    ensures Below(parent, d, g)
    decreases d
  {
    if d == m {
    } else {
      BelowTrans(parent, parent[d], m, g);
    }
  }

  lemma {:induction false} BelowLater(parent: seq<nat>, d: nat, g: nat)
    requires TreeShaped(parent) && d < |parent| && Below(parent, d, g)
    ensures g <= d
    decreases d
  {
    if d == g {
    } else {
      BelowLater(parent, parent[d], g);
    }
  }
}
