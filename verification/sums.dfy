/** Finite sums over sequences, accumulated from the front to the back, which is
    the order in which the source's loops accumulate them. */
module Sums {

  /** Sum of a sequence of reals. */
  function Sum(s: seq<real>): real
    decreases |s|
  {
    if |s| == 0 then 0.0 else Sum(s[..|s| - 1]) + s[|s| - 1]
  }

  /** Sum of a sequence of integers (the total of a run of dice). */
  function SumInts(s: seq<int>): int
    decreases |s|
  {
    if |s| == 0 then 0 else SumInts(s[..|s| - 1]) + s[|s| - 1]
  }

  predicate NonNegative(s: seq<real>)
  {
    forall i :: 0 <= i < |s| ==> 0.0 <= s[i]
  }

  predicate Within(s: seq<real>, lo: real, hi: real)
  {
    forall i :: 0 <= i < |s| ==> lo <= s[i] <= hi
  }

  lemma {:induction false} SumAppend(u: seq<real>, v: seq<real>)
    ensures Sum(u + v) == Sum(u) + Sum(v)
    decreases |v|
  {
    if |v| == 0 {
      assert u + v == u;
    } else {
      assert (u + v)[..|u + v| - 1] == u + v[..|v| - 1];
      SumAppend(u, v[..|v| - 1]);
    }
  }

  lemma {:induction false} SumIntsAppend(u: seq<int>, v: seq<int>)
    ensures SumInts(u + v) == SumInts(u) + SumInts(v)
    decreases |v|
  {
    if |v| == 0 {
      assert u + v == u;
    } else {
      assert (u + v)[..|u + v| - 1] == u + v[..|v| - 1];
      SumIntsAppend(u, v[..|v| - 1]);
    }
  }

  /** A sequence whose every entry lies in [lo, hi] sums to between |s|·lo and |s|·hi. */
  lemma {:induction false} SumBounds(s: seq<real>, lo: real, hi: real)
    requires Within(s, lo, hi)
    ensures |s| as real * lo <= Sum(s) <= |s| as real * hi
    decreases |s|
  {
    if |s| > 0 {
      SumBounds(s[..|s| - 1], lo, hi);
      assert (|s| - 1) as real * lo + lo == |s| as real * lo;
      assert (|s| - 1) as real * hi + hi == |s| as real * hi;
    }
  }

  lemma {:induction false} SumNonNegative(s: seq<real>)
    requires NonNegative(s)
    ensures 0.0 <= Sum(s)
    decreases |s|
  {
    if |s| > 0 {
      SumNonNegative(s[..|s| - 1]);
    }
  }

  /** Summing two sequences entry by entry adds their sums. */
  lemma {:induction false} SumPointwise(u: seq<real>, v: seq<real>, w: seq<real>)
    requires |u| == |v| == |w|
    requires forall i :: 0 <= i < |w| ==> w[i] == u[i] + v[i]
    ensures Sum(w) == Sum(u) + Sum(v)
    decreases |w|
  {
    if |w| > 0 {
      var n := |w| - 1;
      SumPointwise(u[..n], v[..n], w[..n]);
    }
  }

  /** Scaling every entry by x scales the sum by x. */
  lemma {:induction false} SumScaled(x: real, b: seq<real>, w: seq<real>)
    requires |w| == |b|
    requires forall i :: 0 <= i < |w| ==> w[i] == x * b[i]
    ensures Sum(w) == x * Sum(b)
    decreases |w|
  {
    if |w| > 0 {
      var n := |w| - 1;
      SumScaled(x, b[..n], w[..n]);
    }
  }

  /** A sequence of n copies of c sums to n·c. */
  lemma {:induction false} SumConstant(s: seq<real>, c: real)
    requires forall i :: 0 <= i < |s| ==> s[i] == c
    ensures Sum(s) == |s| as real * c
    decreases |s|
  {
    if |s| > 0 {
      SumConstant(s[..|s| - 1], c);
    }
  }

  /** Zeros around a sequence do not change its sum. */
  lemma SumZeroPadded(front: seq<real>, middle: seq<real>, back: seq<real>)
    requires forall i :: 0 <= i < |front| ==> front[i] == 0.0
    requires forall i :: 0 <= i < |back| ==> back[i] == 0.0
    ensures Sum(front + middle + back) == Sum(middle)
  {
    SumAppend(front + middle, back);
    SumAppend(front, middle);
    SumConstant(front, 0.0);
    SumConstant(back, 0.0);
  }
}
