/**
 Finite statistics over sequences of reals: the sums, means, maxima and
 population variances the scoring script takes with numpy. Float rounding is
 not modelled; every quantity is an exact real.
 */
module Stats {

  /** Sum of the elements, left to right. */
  function Sum(s: seq<real>): real
  {
    if |s| == 0 then 0.0 else s[0] + Sum(s[1..])
  }

  /** Arithmetic mean (numpy `mean`). */
  function Mean(s: seq<real>): real
    requires |s| > 0
  {
    Sum(s) / (|s| as real)
  }

  /** Largest element (numpy `max`): it is an element and bounds every element. */
  function Max(s: seq<real>): (m: real)
    requires |s| > 0
    ensures m in s
    ensures forall i :: 0 <= i < |s| ==> s[i] <= m
  {
    if |s| == 1 then s[0]
    else
      var rest := Max(s[1..]);
      assert rest in s[1..];
      if s[0] >= rest then s[0] else rest
  }

  /** Smallest element: it is an element and is bounded by every element. */
  function Min(s: seq<real>): (m: real)
    requires |s| > 0
    ensures m in s
    ensures forall i :: 0 <= i < |s| ==> m <= s[i]
  {
    if |s| == 1 then s[0]
    else
      var rest := Min(s[1..]);
      assert rest in s[1..];
      if s[0] <= rest then s[0] else rest
  }

  /** Squared deviations from the mean. */
  function SquaredDeviations(s: seq<real>): (d: seq<real>)
    requires |s| > 0
    ensures |d| == |s|
  {
    var mu := Mean(s);
    seq(|s|, i requires 0 <= i < |s| => Square(s[i] - mu))
  }

  function Square(x: real): (y: real)
    ensures y >= 0.0
  {
    x * x
  }

  /** Population variance (numpy `std` squared, ddof = 0); never negative. */
  function Variance(s: seq<real>): (v: real)
    requires |s| > 0
    ensures v >= 0.0
  {
    var d := SquaredDeviations(s);
    SumAtLeast(d, 0.0);
    Sum(d) / (|d| as real)
  }

  lemma {:induction false} SumAtLeast(s: seq<real>, lo: real)
    requires forall i :: 0 <= i < |s| ==> lo <= s[i]
    ensures (|s| as real) * lo <= Sum(s)
  {
    if |s| > 0 {
      SumAtLeast(s[1..], lo);
    }
  }

  lemma {:induction false} SumAtMost(s: seq<real>, hi: real)
    requires forall i :: 0 <= i < |s| ==> s[i] <= hi
    ensures Sum(s) <= (|s| as real) * hi
  {
    if |s| > 0 {
      SumAtMost(s[1..], hi);
    }
  }

  /** A mean lies between any lower and upper bound of its elements. */
  lemma MeanBounds(s: seq<real>, lo: real, hi: real)
    requires |s| > 0
    requires forall i :: 0 <= i < |s| ==> lo <= s[i] <= hi
    ensures lo <= Mean(s) <= hi
  {
    SumAtLeast(s, lo);
    SumAtMost(s, hi);
    var n := |s| as real;
    assert Mean(s) * n == Sum(s);
  }

  lemma {:induction false} SumConstant(s: seq<real>, c: real)
    requires forall i :: 0 <= i < |s| ==> s[i] == c
    ensures Sum(s) == (|s| as real) * c
  {
    if |s| > 0 {
      SumConstant(s[1..], c);
    }
  }

  /** The mean of a constant sequence is that constant. */
  lemma MeanConstant(s: seq<real>, c: real)
    requires |s| > 0
    requires forall i :: 0 <= i < |s| ==> s[i] == c
    ensures Mean(s) == c
  {
    SumConstant(s, c);
  }

  /** A sequence whose elements all agree has zero variance. */
  lemma VarianceConstant(s: seq<real>)
    requires |s| > 0
    requires forall i :: 0 <= i < |s| ==> s[i] == s[0]
    ensures Variance(s) == 0.0
  {
    MeanConstant(s, s[0]);
    var d := SquaredDeviations(s);
    MeanConstant(d, 0.0);
  }

  /** In particular a single value has zero variance. */
  lemma VarianceSingleton(s: seq<real>)
    requires |s| == 1
    ensures Variance(s) == 0.0
  {
    VarianceConstant(s);
  }
}
