/**
 Sums over a sequence of records, used to state the conservation laws:
 a counter kept by the kernel equals the number of records it stands for.
 */
module Counting {

  function One(b: bool): int { if b then 1 else 0 }

  function Sum<T>(s: seq<T>, f: T -> int): (total: int)
  {
    if s == [] then 0 else Sum(s[..|s| - 1], f) + f(s[|s| - 1])
  }

  /** Replacing one record changes the sum by the difference of the two contributions. */
  lemma {:induction false} SumUpdate<T>(s: seq<T>, f: T -> int, i: nat, x: T)
    requires i < |s|
    ensures Sum(s[i := x], f) == Sum(s, f) - f(s[i]) + f(x)
  {
    var last := |s| - 1;
    if i == last {
      assert s[i := x][..last] == s[..last];
    } else {
      SumUpdate(s[..last], f, i, x);
      assert s[i := x][..last] == s[..last][i := x];
    }
  }

  /** A sum of non-negative contributions is non-negative, and bounds each of them. */
  lemma {:induction false} SumBounds<T>(s: seq<T>, f: T -> int)
    requires forall x :: x in s ==> f(x) >= 0
    ensures Sum(s, f) >= 0
    ensures forall i :: 0 <= i < |s| ==> f(s[i]) <= Sum(s, f)
  {
    if s == [] {
    } else {
      SumBounds(s[..|s| - 1], f);
    }
  }

  lemma {:induction false} SumZero<T>(s: seq<T>, f: T -> int)
    requires forall x :: x in s ==> f(x) == 0
    ensures Sum(s, f) == 0
  {
    if s == [] {
    } else {
      SumZero(s[..|s| - 1], f);
    }
  }

  lemma SumAppend<T>(s: seq<T>, f: T -> int, x: T)
    ensures Sum(s + [x], f) == Sum(s, f) + f(x)
  {
    assert (s + [x])[..|s|] == s;
  }
}
