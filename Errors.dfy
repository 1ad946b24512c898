/** The error measures of the network: mean squared error and its root, over
    `std::vector`s (libraries/mlp/activations.cpp). The array versions of the
    C library are in CActivations. */
module Errors {
  import opened Numerics
  import opened Outcomes

  /** The mean of the squared element-wise differences. */
  ghost function MeanSquaredError(p: seq<real>, t: seq<real>): real
    requires 0 < |p| <= |t|
  {
    SumMap(Diff(p, t), Square) / (|p| as real)
  }

  /** The square root of the mean squared error. */
  ghost function RootMeanSquaredError(p: seq<real>, t: seq<real>): real
    requires 0 < |p| <= |t|
  {
    Sqrt(MeanSquaredError(p, t))
  }

  const LengthMismatch := "Vectors must be of the same length"

  /** The accumulation loop shared by `MSE` and `rMSE`: the sum of the squared
      differences of the first |p| entries. */
  method SumSquaredDifferences(p: seq<real>, t: seq<real>) returns (sum: real)
    requires |p| <= |t|
    ensures sum == SumMap(Diff(p, t), Square)
    ensures sum >= 0.0
  {
    sum := 0.0;
    for i := 0 to |p|
      invariant sum == SumMap(Diff(p[..i], t), Square)
    {
      assert Diff(p[..i + 1], t) == Diff(p[..i], t) + [p[i] - t[i]];
      SumMapStep(Diff(p[..i + 1], t), Square, i);
      assert Diff(p[..i + 1], t)[..i] == Diff(p[..i], t);
      sum := sum + (p[i] - t[i]) * (p[i] - t[i]);
    }
    assert p[..|p|] == p;
    SumMapNonneg(Diff(p, t), Square);
  }

  /** `MSE`: throws `invalid_argument` on a length mismatch; otherwise the mean
      squared error. Two empty vectors would divide 0 by 0, so a successful
      call needs at least one element. */
  method MSE(predicted: seq<real>, target: seq<real>) returns (r: Result<real>)
    requires |predicted| == |target| ==> |predicted| > 0
    ensures r.Fail? <==> |predicted| != |target|
    ensures r.Fail? ==> r.error == InvalidArgument(LengthMismatch)
    ensures r.Ok? ==> r.value == MeanSquaredError(predicted, target) && r.value >= 0.0
  {
    if |predicted| != |target| {
      return Fail(InvalidArgument(LengthMismatch));
    }
    var sum := SumSquaredDifferences(predicted, target);
    MseNonneg(predicted, target);
    return Ok(sum / (|predicted| as real));
  }

  /** `rMSE`: the same check, then the square root of the mean. */
  method RMSE(predicted: seq<real>, target: seq<real>) returns (r: Result<real>)
    requires |predicted| == |target| ==> |predicted| > 0
    ensures r.Fail? <==> |predicted| != |target|
    ensures r.Fail? ==> r.error == InvalidArgument(LengthMismatch)
    ensures r.Ok? ==> r.value == RootMeanSquaredError(predicted, target) && r.value >= 0.0
  {
    if |predicted| != |target| {
      return Fail(InvalidArgument(LengthMismatch));
    }
    var sum := SumSquaredDifferences(predicted, target);
    sum := sum / (|predicted| as real);
    return Ok(Sqrt(sum));
  }

  /** The mean squared error is non-negative. */
  lemma MseNonneg(p: seq<real>, t: seq<real>)
    requires 0 < |p| <= |t|
    ensures MeanSquaredError(p, t) >= 0.0
  {
    SumMapNonneg(Diff(p, t), Square);
    QuotientSign(SumMap(Diff(p, t), Square), |p| as real);
  }

  /** So is its root, which is the square root of a non-negative mean. */
  lemma RmseNonneg(p: seq<real>, t: seq<real>)
    requires 0 < |p| <= |t|
    ensures RootMeanSquaredError(p, t) >= 0.0
    ensures RootMeanSquaredError(p, t) == 0.0 ==> MeanSquaredError(p, t) == 0.0
  {
    MseNonneg(p, t);
  }

  /** The error vanishes exactly when prediction and target agree. */
  lemma MseZeroIffEqual(p: seq<real>, t: seq<real>)
    requires 0 < |p| == |t|
    ensures MeanSquaredError(p, t) == 0.0 <==> p == t
    ensures RootMeanSquaredError(p, t) == 0.0 <==> p == t
  {
    var d := Diff(p, t);
    var mean := MeanSquaredError(p, t);
    SumMapNonneg(d, Square);
    QuotientSign(SumMap(d, Square), |p| as real);
    if p == t {
      assert AllZero(d);
      SumMapOfZeros(d, Square);
    }
    if mean == 0.0 {
      SumMapZeroOnlyForZeros(d, Square);
      forall i | 0 <= i < |p| ensures p[i] == t[i] {
        SquareZero(d[i]);
      }
    }
    assert RootMeanSquaredError(p, t) == Sqrt(mean);
    assert mean > 0.0 ==> Sqrt(mean) > 0.0;
  }

  /** A prediction that equals its target has no error. */
  lemma MseOfSelf(p: seq<real>)
    requires |p| > 0
    ensures MeanSquaredError(p, p) == 0.0
  {
    MseZeroIffEqual(p, p);
  }

  /** A non-negative quantity over a positive count is non-negative, and zero
      only when the quantity is. */
  lemma QuotientSign(a: real, n: real)
    requires a >= 0.0 && n > 0.0
    ensures a / n >= 0.0
    ensures a / n == 0.0 <==> a == 0.0
  {
  }

  /** Swapping prediction and target leaves the error unchanged. */
  lemma {:induction false} SumSquaresSymmetric(p: seq<real>, t: seq<real>)
    requires |p| == |t|
    ensures SumMap(Diff(p, t), Square) == SumMap(Diff(t, p), Square)
    decreases |p|
  {
    if |p| > 0 {
      var n := |p| - 1;
      SumSquaresSymmetric(p[..n], t[..n]);
      assert Diff(p, t)[..n] == Diff(p[..n], t[..n]);
      assert Diff(t, p)[..n] == Diff(t[..n], p[..n]);
    }
  }

  lemma MseSymmetric(p: seq<real>, t: seq<real>)
    requires 0 < |p| == |t|
    ensures MeanSquaredError(p, t) == MeanSquaredError(t, p)
    ensures RootMeanSquaredError(p, t) == RootMeanSquaredError(t, p)
  {
    SumSquaresSymmetric(p, t);
  }
}
