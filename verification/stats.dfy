/**
 * Sums, minima, maxima and means over sequences of reals: the arithmetic that the
 * source delegates to Python's `sum`, `min`, `max` and to numpy's `mean`/`min`/`max`/`var`.
 */
module Stats {

  function Sum(s: seq<real>): real
  {
    if s == [] then 0.0 else Sum(s[..|s| - 1]) + s[|s| - 1]
  }

  /** Smallest element; the result is a lower bound that is attained. */
  function SeqMin(s: seq<real>): (m: real)
    requires |s| > 0
    ensures forall i :: 0 <= i < |s| ==> m <= s[i]
    ensures exists i :: 0 <= i < |s| && m == s[i]
  {
    if |s| == 1 then s[0]
    else
      var rest := SeqMin(s[..|s| - 1]);
      if s[|s| - 1] < rest then s[|s| - 1] else rest
  }

  /** Largest element; the result is an upper bound that is attained. */
  function SeqMax(s: seq<real>): (m: real)
    requires |s| > 0
    ensures forall i :: 0 <= i < |s| ==> s[i] <= m
    ensures exists i :: 0 <= i < |s| && m == s[i]
  {
    if |s| == 1 then s[0]
    else
      var rest := SeqMax(s[..|s| - 1]);
      if s[|s| - 1] > rest then s[|s| - 1] else rest
  }

  function Mean(s: seq<real>): real
    requires |s| > 0
  {
    Sum(s) / (|s| as real)
  }

  /** Population variance, as numpy's `var` computes it: the mean squared deviation. */
  function Variance(s: seq<real>): real
    requires |s| > 0
  {
    var m := Mean(s);
    Mean(seq(|s|, i requires 0 <= i < |s| => (s[i] - m) * (s[i] - m)))
  }

  function Squares(s: seq<real>): (r: seq<real>)
    ensures |r| == |s|
  {
    seq(|s|, i requires 0 <= i < |s| => s[i] * s[i])
  }

  lemma {:induction false} SumAppend(s: seq<real>, x: real)
    ensures Sum(s + [x]) == Sum(s) + x
  {
    assert (s + [x])[..|s + [x]| - 1] == s;
  }

  /** Every element at least `lo` bounds the sum below by `|s| * lo`. */
  lemma {:induction false} SumLowerBound(s: seq<real>, lo: real)
    requires forall i :: 0 <= i < |s| ==> lo <= s[i]
    ensures (|s| as real) * lo <= Sum(s)
  {
    if s != [] {
      SumLowerBound(s[..|s| - 1], lo);
      assert (|s| as real) * lo == ((|s| - 1) as real) * lo + lo;
    }
  }

  /** Every element at most `hi` bounds the sum above by `|s| * hi`. */
  lemma {:induction false} SumUpperBound(s: seq<real>, hi: real)
    requires forall i :: 0 <= i < |s| ==> s[i] <= hi
    ensures Sum(s) <= (|s| as real) * hi
  {
    if s != [] {
      SumUpperBound(s[..|s| - 1], hi);
      assert (|s| as real) * hi == ((|s| - 1) as real) * hi + hi;
    }
  }

  /** Dividing `n * a <= t` by a positive `n`. */
  lemma DivideLowerBound(n: real, a: real, t: real)
    requires n > 0.0 && n * a <= t
    ensures a <= t / n
  {
    assert t / n - a == (t - n * a) / n;
  }

  /** Dividing `t <= n * a` by a positive `n`. */
  lemma DivideUpperBound(n: real, a: real, t: real)
    requires n > 0.0 && t <= n * a
    ensures t / n <= a
  {
    assert a - t / n == (n * a - t) / n;
  }

  /** A lower bound on every element is a lower bound on the mean. */
  lemma MeanLowerBound(s: seq<real>, lo: real)
    requires |s| > 0
    requires forall i :: 0 <= i < |s| ==> lo <= s[i]
    ensures lo <= Mean(s)
  {
    SumLowerBound(s, lo);
    DivideLowerBound(|s| as real, lo, Sum(s));
  }

  /** An upper bound on every element is an upper bound on the mean. */
  lemma MeanUpperBound(s: seq<real>, hi: real)
    requires |s| > 0
    requires forall i :: 0 <= i < |s| ==> s[i] <= hi
    ensures Mean(s) <= hi
  {
    SumUpperBound(s, hi);
    DivideUpperBound(|s| as real, hi, Sum(s));
  }

  /** The mean lies between the minimum and the maximum. */
  lemma MeanBetweenMinAndMax(s: seq<real>)
    requires |s| > 0
    ensures SeqMin(s) <= Mean(s) <= SeqMax(s)
  {
    MeanLowerBound(s, SeqMin(s));
    MeanUpperBound(s, SeqMax(s));
  }

  /** A sum of squares is never negative. */
  lemma SumOfSquaresNonNegative(s: seq<real>)
    ensures Sum(Squares(s)) >= 0.0
  {
    var sq := Squares(s);
    forall i | 0 <= i < |sq| ensures 0.0 <= sq[i] {
      assert sq[i] == s[i] * s[i];
    }
    SumLowerBound(sq, 0.0);
  }

  /** The population variance is never negative. */
  lemma VarianceNonNegative(s: seq<real>)
    requires |s| > 0
    ensures Variance(s) >= 0.0
  {
    var m := Mean(s);
    var dev := seq(|s|, i requires 0 <= i < |s| => (s[i] - m) * (s[i] - m));
    forall i | 0 <= i < |dev| ensures 0.0 <= dev[i] {
      assert dev[i] == (s[i] - m) * (s[i] - m);
    }
    SumLowerBound(dev, 0.0);
  }
}
