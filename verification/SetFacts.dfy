/** Counting with finite sets. */
module SetFacts {
  ghost function Numbers(n: nat): (xs: set<nat>)
    ensures |xs| == n && forall k: nat :: k in xs <==> k < n
  {
    if n == 0 then {} else Numbers(n - 1) + {n - 1}
  }

  lemma Smaller<T>(xs: set<T>, ys: set<T>)
    requires xs <= ys
    ensures |xs| <= |ys|
  {
    assert ys == xs + (ys - xs);
  }

  lemma SameSize<T>(xs: set<T>, ys: set<T>)
    requires xs <= ys && |xs| == |ys|
    ensures xs == ys
  {
    assert ys == xs + (ys - xs);
  }

  lemma TwoOf<T>(xs: set<T>) returns (x: T, y: T)
    requires |xs| > 1
    ensures x in xs && y in xs && x != y
  {
    x :| x in xs;
    assert |xs - {x}| > 0;
    y :| y in xs - {x};
  }

  /** An index with the lowest value. */
  lemma {:induction false} Lowest(xs: seq<nat>) returns (p: nat)
    requires xs != []
    ensures p < |xs| && forall k | 0 <= k < |xs| :: xs[p] <= xs[k]
  {
    p := 0;
    if |xs| > 1 {
      var n := |xs| - 1;
      p := Lowest(xs[..n]);
      if xs[n] < xs[p] {
        p := n;
      }
    }
  }
}
