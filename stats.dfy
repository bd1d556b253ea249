/** `np.mean` and `np.std` on exact reals; the square root is supplied by the caller. */
module Stats {

  function Sum(xs: seq<real>): real
  {
    if xs == [] then 0.0 else xs[0] + Sum(xs[1..])
  }

  lemma {:induction false} SumAppend(xs: seq<real>, x: real)
    ensures Sum(xs + [x]) == Sum(xs) + x
  {
    if xs != [] {
      assert (xs + [x])[1..] == xs[1..] + [x];
      SumAppend(xs[1..], x);
    }
  }

  lemma {:induction false} SumConcat(xs: seq<real>, ys: seq<real>)
    ensures Sum(xs + ys) == Sum(xs) + Sum(ys)
  {
    if xs != [] {
      assert (xs + ys)[1..] == xs[1..] + ys;
      SumConcat(xs[1..], ys);
      assert Sum(xs + ys) == xs[0] + Sum(xs[1..] + ys);
    } else {
      assert xs + ys == ys;
    }
  }

  lemma {:induction false} SumBounds(xs: seq<real>, lo: real, hi: real)
    requires forall i :: 0 <= i < |xs| ==> lo <= xs[i] <= hi
    ensures |xs| as real * lo <= Sum(xs) <= |xs| as real * hi
  {
    if xs != [] {
      SumBounds(xs[1..], lo, hi);
    }
  }

  /** `np.mean(xs)` for a non-empty list. */
  function Mean(xs: seq<real>): real
    requires xs != []
  {
    Sum(xs) / |xs| as real
  }

  /** `np.mean(xs) if xs else 0`, the guard every caller in the source writes. */
  function MeanOrZero(xs: seq<real>): (m: real)
    ensures xs == [] ==> m == 0.0
  {
    if xs == [] then 0.0 else Mean(xs)
  }

  /** The mean lies between any lower and upper bound of the values. */
  lemma MeanBounds(xs: seq<real>, lo: real, hi: real)
    requires xs != []
    requires forall i :: 0 <= i < |xs| ==> lo <= xs[i] <= hi
    ensures lo <= Mean(xs) <= hi
  {
    SumBounds(xs, lo, hi);
    var n := |xs| as real;
    assert n * lo <= Sum(xs) <= n * hi;
    assert lo == (n * lo) / n && hi == (n * hi) / n;
  }

  function Squares(xs: seq<real>, m: real): (ds: seq<real>)
    ensures |ds| == |xs| && forall i :: 0 <= i < |xs| ==> ds[i] == (xs[i] - m) * (xs[i] - m)
  {
    if xs == [] then [] else [(xs[0] - m) * (xs[0] - m)] + Squares(xs[1..], m)
  }

  /** The population variance `np.var(xs)`. */
  function PopVariance(xs: seq<real>): real
    requires xs != []
  {
    Mean(Squares(xs, Mean(xs)))
  }

  /** `np.std(xs) if len(xs) > 1 else 0`: the square root of the population variance. */
  function GuardedStd(xs: seq<real>, sqrt: real -> real): (s: real)
    ensures |xs| < 2 ==> s == 0.0
    ensures |xs| >= 2 ==> s == sqrt(PopVariance(xs))
  {
    if |xs| > 1 then sqrt(PopVariance(xs)) else 0.0
  }

  lemma {:induction false} SumNonNegative(xs: seq<real>)
    requires forall i :: 0 <= i < |xs| ==> 0.0 <= xs[i]
    ensures 0.0 <= Sum(xs)
  {
    if xs != [] { SumNonNegative(xs[1..]); }
  }

  lemma PopVarianceNonNegative(xs: seq<real>)
    requires xs != []
    ensures 0.0 <= PopVariance(xs)
  {
    var ds := Squares(xs, Mean(xs));
    SumNonNegative(ds);
  }

  lemma {:induction false} SumConstant(xs: seq<real>, c: real)
    requires forall i :: 0 <= i < |xs| ==> xs[i] == c
    ensures Sum(xs) == |xs| as real * c
  {
    if xs != [] { SumConstant(xs[1..], c); }
  }

  /** Identical runs have that value as their mean and no spread. */
  lemma ConstantRuns(xs: seq<real>, c: real)
    requires xs != [] && forall i :: 0 <= i < |xs| ==> xs[i] == c
    ensures Mean(xs) == c && PopVariance(xs) == 0.0
  {
    var n := |xs| as real;
    SumConstant(xs, c);
    assert Mean(xs) == (n * c) / n;
    assert (n * c) / n == c;
    var ds := Squares(xs, c);
    assert forall i :: 0 <= i < |ds| ==> ds[i] == 0.0;
    SumConstant(ds, 0.0);
    assert Mean(ds) == (n * 0.0) / n == 0.0;
  }
}
