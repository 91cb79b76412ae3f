module Counting {
  lemma SubsetCount(a: set<nat>, b: set<nat>)
    requires a <= b
    ensures |a| <= |b|
  {
    assert b == a + (b - a);
  }

  function Ids(n: nat): (ids: set<nat>)
    ensures |ids| == n
    ensures forall t :: t in ids <==> 0 <= t < n
  {
    if n == 0 then {} else Ids(n - 1) + {n - 1}
  }

  lemma Distribute(a: int, b: int)
    ensures a * (b + 1) == a * b + a
  {
  }
}
