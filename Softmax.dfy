/** Softmax with a temperature and its derivative, over `std::vector`s
    (libraries/mlp/activations.cpp; the same code is repeated in
    maths/src/basics/src/activations.cpp and activationsder.cpp). */
module Softmax {
  import opened Numerics

  /** `exp(x_i / temp)` for every entry. */
  function Exps(x: seq<real>, temp: real): (e: seq<real>)
    requires temp != 0.0
    ensures |e| == |x|
    ensures forall i :: 0 <= i < |x| ==> e[i] > 0.0
  {
    seq(|x|, i requires 0 <= i < |x| => Exp(x[i] / temp))
  }

  /** A sum of positive entries is positive as soon as there is one entry. */
  lemma PositiveSum(e: seq<real>)
    requires |e| > 0
    requires forall i :: 0 <= i < |e| ==> e[i] > 0.0
    ensures Sum(e) > 0.0
  {
    ElementAtMostSum(e, 0);
  }

  /** `softmax(x, temp)`: `exp(x_i / temp)` over the sum of all of them. */
  function Softmax(x: seq<real>, temp: real): (y: seq<real>)
    requires temp != 0.0
    ensures |y| == |x|
  {
    if |x| == 0 then []
    else
      var e := Exps(x, temp);
      PositiveSum(e);
      Normalised(e, Sum(e))
  }

  /** The softmax is a probability distribution: every entry lies in (0, 1]
      and, for a non-empty input, they add up to 1. */
  lemma SoftmaxIsDistribution(x: seq<real>, temp: real)
    requires temp != 0.0
    ensures forall i :: 0 <= i < |x| ==> 0.0 < Softmax(x, temp)[i] <= 1.0
    ensures |x| > 0 ==> Sum(Softmax(x, temp)) == 1.0
  {
    if |x| > 0 {
      var e := Exps(x, temp);
      PositiveSum(e);
      NormalisedIsDistribution(e, Sum(e));
    }
  }

  /** The values `softmaxder` differentiates: `exp(x_i)` (without the
      temperature) over the sum of `exp(x_j / temp)`. */
  function DerivativeWeights(x: seq<real>, temp: real): (y: seq<real>)
    requires temp != 0.0
    ensures |y| == |x|
  {
    if |x| == 0 then []
    else
      PositiveSum(Exps(x, temp));
      seq(|x|, i requires 0 <= i < |x| => Exp(x[i]) / Sum(Exps(x, temp)))
  }

  /** `y_i (1 - y_i)` minus every other entry `y_j`. */
  function OthersRemoved(y: seq<real>): (d: seq<real>)
    ensures |d| == |y|
  {
    seq(|y|, i requires 0 <= i < |y| => y[i] * (1.0 - y[i]) - (Sum(y) - y[i]))
  }

  /** `softmaxder` as written. */
  function SoftmaxDerOf(x: seq<real>, temp: real): (d: seq<real>)
    requires temp != 0.0
    ensures |d| == |x|
  {
    OthersRemoved(DerivativeWeights(x, temp))
  }

  /** The loop accumulating `exp(x_i / temp)`. */
  method SumOfExps(x: seq<real>, temp: real) returns (sum: real)
    requires temp != 0.0
    ensures sum == Sum(Exps(x, temp))
    ensures |x| > 0 ==> sum > 0.0
  {
    var e := Exps(x, temp);
    sum := 0.0;
    for i := 0 to |x|
      invariant sum == Sum(e[..i])
    {
      SumStep(e, i);
      sum := sum + Exp(x[i] / temp);
    }
    assert e[..|x|] == e;
    if |x| > 0 {
      PositiveSum(e);
    }
  }

  /** The nested loop of `softmaxder`: start from `y_i (1 - y_i)` and subtract
      each `y_j` with `j != i`. */
  method SubtractOthers(y: seq<real>) returns (result: seq<real>)
    ensures result == OthersRemoved(y)
  {
    result := Zeros(|y|);
    for i := 0 to |y|
      invariant |result| == |y|
      invariant forall r :: 0 <= r < i ==> result[r] == OthersRemoved(y)[r]
    {
      result := result[i := y[i] * (1.0 - y[i])];
      for j := 0 to |y|
        invariant |result| == |y|
        invariant forall r :: 0 <= r < i ==> result[r] == OthersRemoved(y)[r]
        invariant result[i] == y[i] * (1.0 - y[i]) - (Sum(y[..j]) - (if i < j then y[i] else 0.0))
      {
        SumStep(y, j);
        if i != j {
          result := result[i := result[i] - y[j]];
        }
      }
      assert y[..|y|] == y;
    }
  }

  /** `softmaxder(x, temp)`: the sum of the tempered exponentials, the
      weights `exp(x_i) / sum`, then the subtraction loop. */
  method SoftmaxDer(x: seq<real>, temp: real) returns (result: seq<real>)
    requires temp != 0.0
    ensures result == SoftmaxDerOf(x, temp)
  {
    var sum := SumOfExps(x, temp);
    var y := x;
    for i := 0 to |x|
      invariant |y| == |x|
      invariant forall r :: 0 <= r < i ==> y[r] == DerivativeWeights(x, temp)[r]
    {
      y := y[i := Exp(x[i]) / sum];
    }
    assert y == DerivativeWeights(x, temp);
    result := SubtractOthers(y);
  }

  /** At temperature 1 the weights are the softmax, which sums to 1, so the
      subtracted terms are `1 - y_i` and every entry is `-(1 - y_i)^2`:
      never positive. */
  lemma SoftmaxDerAtUnitTemperature(x: seq<real>)
    requires |x| > 0
    ensures DerivativeWeights(x, 1.0) == Softmax(x, 1.0)
    ensures forall i :: 0 <= i < |x| ==>
      SoftmaxDerOf(x, 1.0)[i] == -Square(1.0 - Softmax(x, 1.0)[i]) <= 0.0
  {
    WeightsAtUnitTemperature(x);
    forall i | 0 <= i < |x|
      ensures SoftmaxDerOf(x, 1.0)[i] == -Square(1.0 - Softmax(x, 1.0)[i]) <= 0.0
    {
      UnitTemperatureEntry(x, i);
    }
  }

  lemma UnitTemperatureEntry(x: seq<real>, i: nat)
    requires i < |x|
    ensures SoftmaxDerOf(x, 1.0)[i] == -Square(1.0 - Softmax(x, 1.0)[i]) <= 0.0
  {
    WeightsAtUnitTemperature(x);
    SoftmaxIsDistribution(x, 1.0);
    OthersRemovedFromDistribution(Softmax(x, 1.0), i);
  }

  /** When the entries add up to 1, removing the others leaves `-(1 - y_i)^2`. */
  lemma OthersRemovedFromDistribution(y: seq<real>, i: nat)
    requires i < |y| && Sum(y) == 1.0
    ensures OthersRemoved(y)[i] == -Square(1.0 - y[i]) <= 0.0
  {
    ComplementIdentity(y[i], Sum(y));
  }

  /** Without a temperature the numerator's missing `/ temp` does not matter. */
  lemma WeightsAtUnitTemperature(x: seq<real>)
    requires |x| > 0
    ensures DerivativeWeights(x, 1.0) == Softmax(x, 1.0)
  {
    var e := Exps(x, 1.0);
    PositiveSum(e);
    forall i | 0 <= i < |x| ensures DerivativeWeights(x, 1.0)[i] == Softmax(x, 1.0)[i] {
      assert e[i] == Exp(x[i] / 1.0);
      assert x[i] / 1.0 == x[i];
    }
  }

  /** With the entries summing to 1, the subtracted terms are `1 - y`. */
  lemma ComplementIdentity(y: real, total: real)
    requires total == 1.0
    ensures y * (1.0 - y) - (total - y) == -Square(1.0 - y) <= 0.0
  {
  }

  /** `s_i (1 - s_i)` for every entry. */
  function ComplementProducts(s: seq<real>): (d: seq<real>)
    ensures |d| == |s|
  {
    seq(|s|, i requires 0 <= i < |s| => s[i] * (1.0 - s[i]))
  }

  /** `s (1 - s)` for `s` in (0, 1] is never negative and at most 1/4, and
      positive below 1. */
  lemma ComplementProductBounds(s: real)
    requires 0.0 < s <= 1.0
    ensures 0.0 <= s * (1.0 - s) <= 0.25
    ensures s < 1.0 ==> s * (1.0 - s) > 0.0
  {
    assert 0.25 - s * (1.0 - s) == (s - 0.5) * (s - 0.5);
    if s < 1.0 {
      ProductOfPositives(s, 1.0 - s);
    }
  }

  /** The derivative the documentation promises, `s_i (1 - s_i)` for the
      softmax `s`: the diagonal of the softmax Jacobian. */
  function SoftmaxDiagonalDer(x: seq<real>, temp: real): (d: seq<real>)
    requires temp != 0.0
    ensures |d| == |x|
  {
    ComplementProducts(Softmax(x, temp))
  }

  /** Every entry of the documented derivative lies within [0, 1/4]. */
  lemma SoftmaxDiagonalDerBounds(x: seq<real>, temp: real)
    requires temp != 0.0
    ensures forall i :: 0 <= i < |x| ==> 0.0 <= SoftmaxDiagonalDer(x, temp)[i] <= 0.25
  {
    SoftmaxIsDistribution(x, temp);
    ComplementProductsBounded(Softmax(x, temp));
  }

  /** Entries in (0, 1] give complement products in [0, 1/4]. */
  lemma ComplementProductsBounded(s: seq<real>)
    requires forall i :: 0 <= i < |s| ==> 0.0 < s[i] <= 1.0
    ensures forall i :: 0 <= i < |s| ==> 0.0 <= ComplementProducts(s)[i] <= 0.25
  {
    forall i | 0 <= i < |s| ensures 0.0 <= ComplementProducts(s)[i] <= 0.25 {
      ComplementProductBounds(s[i]);
    }
  }

  /** On two equal inputs the softmax is (1/2, 1/2). */
  lemma SoftmaxOfTwoZeros()
    ensures Softmax([0.0, 0.0], 1.0) == [0.5, 0.5]
  {
    var x := [0.0, 0.0];
    var e := Exps(x, 1.0);
    assert e == [1.0, 1.0] by {
      assert e[0] == Exp(0.0 / 1.0) == 1.0 && e[1] == Exp(0.0 / 1.0) == 1.0;
    }
    assert Sum(e) == 2.0 by {
      assert e[..1] == [1.0];
      assert [1.0][..0] == [];
    }
  }

  /** There the as-written derivative gives -1/4 per entry ... */
  lemma SoftmaxDerSignExample()
    ensures SoftmaxDerOf([0.0, 0.0], 1.0) == [-0.25, -0.25]
  {
    var x := [0.0, 0.0];
    SoftmaxOfTwoZeros();
    SoftmaxDerAtUnitTemperature(x);
    var d := SoftmaxDerOf(x, 1.0);
    assert d[0] == -Square(1.0 - 0.5) && d[1] == -Square(1.0 - 0.5);
  }

  /** ... where the documented formula gives +1/4. */
  lemma SoftmaxDiagonalDerExample()
    ensures SoftmaxDiagonalDer([0.0, 0.0], 1.0) == [0.25, 0.25]
  {
    SoftmaxOfTwoZeros();
    assert ComplementProducts([0.5, 0.5]) == [0.25, 0.25];
  }

  // Matrix versions

  /** The matrix `softmax` as written: the exponentials and the total are
      computed on `x` while the untouched copy `y` is returned. */
  function SoftmaxMatrixAsWritten(x: seq<seq<real>>, temp: real): (y: seq<seq<real>>)
    ensures y == x
  {
    x
  }

  /** `exp(x_ij / temp)` for every entry of a matrix. */
  function ExpsMatrix(x: seq<seq<real>>, temp: real): (e: seq<seq<real>>)
    requires temp != 0.0
    ensures |e| == |x|
    ensures forall i :: 0 <= i < |x| ==> e[i] == Exps(x[i], temp)
  {
    seq(|x|, i requires 0 <= i < |x| => Exps(x[i], temp))
  }

  /** True when the matrix has at least one entry. */
  predicate HasEntry(x: seq<seq<real>>)
  {
    exists i :: 0 <= i < |x| && |x[i]| > 0
  }

  lemma PositiveTotal(e: seq<seq<real>>)
    requires HasEntry(e)
    requires forall i, j :: 0 <= i < |e| && 0 <= j < |e[i]| ==> e[i][j] > 0.0
    ensures Sum2(e) > 0.0
  {
    var i :| 0 <= i < |e| && |e[i]| > 0;
    Sum2NonnegAndBound(e, i, 0);
  }

  /** The matrix softmax the comments describe: every exponential divided by
      the total over the whole matrix. */
  function SoftmaxMatrix(x: seq<seq<real>>, temp: real): (y: seq<seq<real>>)
    requires temp != 0.0
    ensures |y| == |x|
    ensures forall i :: 0 <= i < |x| ==> |y[i]| == |x[i]|
  {
    var e := ExpsMatrix(x, temp);
    if !HasEntry(x) then x
    else
      PositiveTotal(e);
      NormalisedMatrix(e, Sum2(e))
  }

  /** All the entries of the matrix softmax lie in (0, 1] and together add up
      to 1. */
  lemma SoftmaxMatrixIsDistribution(x: seq<seq<real>>, temp: real)
    requires temp != 0.0
    ensures forall i, j :: 0 <= i < |x| && 0 <= j < |x[i]| ==> 0.0 < SoftmaxMatrix(x, temp)[i][j] <= 1.0
    ensures HasEntry(x) ==> Sum2(SoftmaxMatrix(x, temp)) == 1.0
  {
    if HasEntry(x) {
      var e := ExpsMatrix(x, temp);
      PositiveTotal(e);
      NormalisedMatrixIsDistribution(e, Sum2(e));
    }
  }

  /** On the one-entry matrix [[0]] the as-written result keeps the entry 0,
      while the normalised matrix holds the single probability 1. */
  lemma SoftmaxMatrixExample()
    ensures SoftmaxMatrixAsWritten([[0.0]], 1.0) == [[0.0]]
    ensures SoftmaxMatrix([[0.0]], 1.0) == [[1.0]]
  {
    var x := [[0.0]];
    assert HasEntry(x) by {
      assert |x[0]| > 0;
    }
    var e := ExpsMatrix(x, 1.0);
    assert e[0] == Exps(x[0], 1.0);
    assert e[0] == [1.0] by {
      assert e[0][0] == Exp(0.0 / 1.0) == 1.0;
    }
    assert Sum2(e) == 1.0 by {
      assert e[..0] == [];
      assert [1.0][..0] == [];
    }
    var y := SoftmaxMatrix(x, 1.0);
    assert y[0][0] == 1.0;
    assert y[0] == [1.0];
  }

  /** The matrix `softmaxder` as written: it reads `y[0].size()` and indexes
      every row up to that length (so the matrix must be non-empty and
      rectangular), computes a result and then returns the untouched copy `y`. */
  function SoftmaxDerMatrixAsWritten(x: seq<seq<real>>, temp: real): (y: seq<seq<real>>)
    requires |x| > 0 && IsMatrix(x, |x|, |x[0]|)
    ensures y == x
  {
    x
  }

  /** The derivative the documentation promises: `s (1 - s)` for every entry
      `s` of the normalised matrix. */
  function SoftmaxDerMatrix(x: seq<seq<real>>, temp: real): (d: seq<seq<real>>)
    requires temp != 0.0
    ensures |d| == |x|
    ensures forall i :: 0 <= i < |x| ==> |d[i]| == |x[i]|
  {
    var s := SoftmaxMatrix(x, temp);
    seq(|x|, i requires 0 <= i < |x| => ComplementProducts(s[i]))
  }

  /** Every entry of the documented matrix derivative lies within [0, 1/4]. */
  lemma SoftmaxDerMatrixBounds(x: seq<seq<real>>, temp: real)
    requires temp != 0.0
    ensures forall i, j :: 0 <= i < |x| && 0 <= j < |x[i]| ==> 0.0 <= SoftmaxDerMatrix(x, temp)[i][j] <= 0.25
  {
    var s := SoftmaxMatrix(x, temp);
    SoftmaxMatrixIsDistribution(x, temp);
    forall i | 0 <= i < |x|
      ensures forall j :: 0 <= j < |x[i]| ==> 0.0 <= SoftmaxDerMatrix(x, temp)[i][j] <= 0.25
    {
      ComplementProductsBounded(s[i]);
    }
  }

  /** The matrix softmax of [[0, 0]] is [[1/2, 1/2]]. */
  lemma SoftmaxMatrixOfTwoZeros()
    ensures SoftmaxMatrix([[0.0, 0.0]], 1.0) == [[0.5, 0.5]]
  {
    var x := [[0.0, 0.0]];
    assert HasEntry(x) by {
      assert |x[0]| > 0;
    }
    var e := ExpsMatrix(x, 1.0);
    assert e[0] == Exps(x[0], 1.0);
    assert e[0] == [1.0, 1.0] by {
      assert e[0][0] == Exp(0.0 / 1.0) == 1.0 && e[0][1] == Exp(0.0 / 1.0) == 1.0;
    }
    assert Sum2(e) == 2.0 by {
      assert e[..0] == [];
      assert Sum([1.0, 1.0]) == 2.0 by {
        assert [1.0, 1.0][..1] == [1.0];
        assert [1.0][..0] == [];
      }
    }
    var s := SoftmaxMatrix(x, 1.0);
    assert s[0][0] == 0.5 && s[0][1] == 0.5;
    assert s[0] == [0.5, 0.5];
  }

  /** On [[0, 0]] the as-written derivative returns the input, while the
      promised derivative is 1/4 in both entries. */
  lemma SoftmaxDerMatrixExample()
    ensures SoftmaxDerMatrixAsWritten([[0.0, 0.0]], 1.0) == [[0.0, 0.0]]
    ensures SoftmaxDerMatrix([[0.0, 0.0]], 1.0) == [[0.25, 0.25]]
  {
    SoftmaxMatrixOfTwoZeros();
    assert ComplementProducts([0.5, 0.5]) == [0.25, 0.25];
  }
}
