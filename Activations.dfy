/** The scalar activation functions and their derivatives, and their
    element-wise maps over vectors and matrices.

    The same scalar definitions appear in libraries/mlp/activations.cpp,
    mlp/C/activations.c and maths/src/basics/src/activations*.cpp; they agree
    on every argument, so each is defined once here. */
module Activations {
  import opened Numerics

  // Sigmoid

  /** `1 / (1 + exp(-x))`: strictly between 0 and 1. */
  function Sigmoid(x: real): (s: real)
    ensures 0.0 < s < 1.0
  {
    1.0 / (1.0 + Exp(-x))
  }

  /** `s * (1 - s)` for `s = Sigmoid(x)`: positive and at most 1/4. */
  function SigmoidDer(x: real): (d: real)
    ensures 0.0 < d <= 0.25
  {
    var s := Sigmoid(x);
    assert s * (1.0 - s) <= 0.25 by {
      assert 0.25 - s * (1.0 - s) == (s - 0.5) * (s - 0.5);
    }
    s * (1.0 - s)
  }

  lemma SigmoidAtZero()
    ensures Sigmoid(0.0) == 0.5
    ensures SigmoidDer(0.0) == 0.25
  {
  }

  // ReLU

  /** `x > 0 ? 1 : 0`, so the derivative at 0 is 0. */
  function ReLUDer(x: real): (d: real)
    ensures d == 1.0 <==> x > 0.0
    ensures d == 0.0 <==> x <= 0.0
  {
    if x > 0.0 then 1.0 else 0.0
  }

  /** `std::max(0.0, x)` (C++), `x > 0 ? x : 0` (C): the larger of 0 and x,
      which is the input scaled by its own derivative. */
  function ReLU(x: real): (r: real)
    ensures r >= 0.0 && r >= x && (r == 0.0 || r == x)
    ensures r == ReLUDer(x) * x
  {
    if 0.0 < x then x else 0.0
  }

  // SeLU (as the source defines it: a leaky linear unit with slope 0.1)

  /** `x > 0 ? 1 : 0.1`. */
  function SeLUDer(x: real): (d: real)
    ensures d == 1.0 <==> x > 0.0
    ensures d == 0.1 <==> x <= 0.0
  {
    if x > 0.0 then 1.0 else 0.1
  }

  /** `x > 0 ? x : 0.1 * x`: the input scaled by its own derivative, so it keeps
      the sign of x and never lies below x. */
  function SeLU(x: real): (r: real)
    ensures r == SeLUDer(x) * x
    ensures (r > 0.0 <==> x > 0.0) && (r == 0.0 <==> x == 0.0) && r >= x
  {
    if x > 0.0 then x else 0.1 * x
  }

  lemma SeLUAtMinusOne()
    ensures SeLU(-1.0) == -0.1
    ensures ReLU(-1.0) == 0.0 && ReLU(2.0) == 2.0
  {
  }

  // Element-wise maps (`std::transform` into a copy)

  function SigmoidV(x: seq<real>): (y: seq<real>)
    ensures |y| == |x|
    ensures forall i :: 0 <= i < |x| ==> y[i] == Sigmoid(x[i]) && 0.0 < y[i] < 1.0
  {
    seq(|x|, i requires 0 <= i < |x| => Sigmoid(x[i]))
  }

  function SigmoidVDer(x: seq<real>): (y: seq<real>)
    ensures |y| == |x|
    ensures forall i :: 0 <= i < |x| ==> y[i] == SigmoidDer(x[i]) && 0.0 < y[i] <= 0.25
  {
    seq(|x|, i requires 0 <= i < |x| => SigmoidDer(x[i]))
  }

  function ReLUV(x: seq<real>): (y: seq<real>)
    ensures |y| == |x|
    ensures forall i :: 0 <= i < |x| ==> y[i] == ReLU(x[i]) && y[i] >= 0.0 && y[i] >= x[i]
  {
    seq(|x|, i requires 0 <= i < |x| => ReLU(x[i]))
  }

  function ReLUVDer(x: seq<real>): (y: seq<real>)
    ensures |y| == |x|
    ensures forall i :: 0 <= i < |x| ==> y[i] == ReLUDer(x[i]) && (y[i] == 1.0 <==> x[i] > 0.0)
  {
    seq(|x|, i requires 0 <= i < |x| => ReLUDer(x[i]))
  }

  function SeLUV(x: seq<real>): (y: seq<real>)
    ensures |y| == |x|
    ensures forall i :: 0 <= i < |x| ==> y[i] == SeLU(x[i]) && y[i] == SeLUDer(x[i]) * x[i]
  {
    seq(|x|, i requires 0 <= i < |x| => SeLU(x[i]))
  }

  function SeLUVDer(x: seq<real>): (y: seq<real>)
    ensures |y| == |x|
    ensures forall i :: 0 <= i < |x| ==> y[i] == SeLUDer(x[i]) && (y[i] == 1.0 || y[i] == 0.1)
  {
    seq(|x|, i requires 0 <= i < |x| => SeLUDer(x[i]))
  }

  /** The matrix `sigmoid`: a result of `x.size()` rows, each replaced by the
      row's `sigmoidv`. Reading `x[0]` needs a non-empty matrix. */
  method SigmoidMatrix(x: seq<seq<real>>) returns (result: seq<seq<real>>)
    requires |x| > 0
    ensures |result| == |x|
    ensures forall i :: 0 <= i < |x| ==> result[i] == SigmoidV(x[i])
    ensures forall rows, cols :: IsMatrix(x, rows, cols) ==> IsMatrix(result, rows, cols)
  {
    result := seq(|x|, _ => Zeros(|x[0]|));
    for i := 0 to |x|
      invariant |result| == |x|
      invariant forall r :: 0 <= r < i ==> result[r] == SigmoidV(x[r])
    {
      result := result[i := SigmoidV(x[i])];
    }
  }

  /** The matrix `sigmoidder`: each row replaced by the row's `sigmoidvder`. */
  method SigmoidDerMatrix(x: seq<seq<real>>) returns (result: seq<seq<real>>)
    requires |x| > 0
    ensures |result| == |x|
    ensures forall i :: 0 <= i < |x| ==> result[i] == SigmoidVDer(x[i])
    ensures forall rows, cols :: IsMatrix(x, rows, cols) ==> IsMatrix(result, rows, cols)
  {
    result := seq(|x|, _ => Zeros(|x[0]|));
    for i := 0 to |x|
      invariant |result| == |x|
      invariant forall r :: 0 <= r < i ==> result[r] == SigmoidVDer(x[r])
    {
      result := result[i := SigmoidVDer(x[i])];
    }
  }
}
