/** The arithmetic of the bias-free perceptron as functions on values: the
    weighted sums of the forward pass, the deltas of the delta rule
    (`backward`), the gradients of `backprop`, the regularised updates of
    `backwithL1`/`backwithL2`, the per-weight state machine of `rprop`, and the
    penalties and losses. The C++ class (MlpNet) and the C struct (CMlp) are
    both proved against these definitions. */
module Propagation {
  import opened Numerics
  import opened Activations

  // Weight initialisation

  /** The shapes of the three weight tensors of a network with `nIn` inputs,
      `nOut` outputs, `layers` cache rows and `n` neurons per layer:
      (iweights, weights, oweights) of shapes n×nIn, (layers-1)×n×n and nOut×n.
      The three gradient tensors have the same shapes. */
  predicate WeightShapes(nIn: nat, nOut: nat, layers: nat, n: nat,
                         iweights: seq<seq<real>>, weights: seq<seq<seq<real>>>, oweights: seq<seq<real>>)
  {
    layers >= 1 && IsMatrix(iweights, n, nIn) && IsTensor(weights, layers - 1, n, n) && IsMatrix(oweights, nOut, n)
  }

  // Forward pass

  /** One weighted sum per row of `w` (`std::inner_product` of `x` with `w[j]`), no activation. */
  function Weighted(x: seq<real>, w: seq<seq<real>>): (h: seq<real>)
    requires forall j :: 0 <= j < |w| ==> |x| <= |w[j]|
    ensures |h| == |w|
  {
    seq(|w|, j requires 0 <= j < |w| => Dot(x, w[j]))
  }

  /** The shapes the forward pass reads: `iweights` is n×|input| and every
      inter-hidden matrix is n×n, where n = |iweights| is the layer width. */
  predicate Wired(input: seq<real>, iweights: seq<seq<real>>, weights: seq<seq<seq<real>>>)
  {
    IsMatrix(iweights, |iweights|, |input|) && IsTensor(weights, |weights|, |iweights|, |iweights|)
  }

  /** The weighted sums of hidden layer `l` (`hlayers[l]` after `forward`):
      layer 0 weighs the input by `iweights`, layer l > 0 weighs the sigmoid of
      layer l-1 by `weights[l-1]`. */
  function Hidden(input: seq<real>, iweights: seq<seq<real>>, weights: seq<seq<seq<real>>>, l: nat): (h: seq<real>)
    requires Wired(input, iweights, weights) && l <= |weights|
    ensures |h| == |iweights|
    decreases l
  {
    if l == 0 then Weighted(input, iweights)
    else Weighted(SigmoidV(Hidden(input, iweights, weights, l - 1)), weights[l - 1])
  }

  /** The network's output: the last computed hidden layer (index |weights|-1,
      that is layers-2) through the sigmoid, weighed by `oweights`, no activation. */
  function NetOutput(input: seq<real>, iweights: seq<seq<real>>, weights: seq<seq<seq<real>>>,
                     oweights: seq<seq<real>>): (o: seq<real>)
    requires Wired(input, iweights, weights) && |weights| >= 1
    requires forall i :: 0 <= i < |oweights| ==> |iweights| <= |oweights[i]|
    ensures |o| == |oweights|
  {
    Weighted(SigmoidV(Hidden(input, iweights, weights, |weights| - 1)), oweights)
  }

  /** Hidden layer `l` reads only `weights[0..l-1]`: in particular `forward`,
      which stops at layer |weights|-1, never reads the last inter-hidden matrix. */
  lemma {:induction false} HiddenReadsOnlyEarlierWeights(input: seq<real>, iweights: seq<seq<real>>,
                                                         w1: seq<seq<seq<real>>>, w2: seq<seq<seq<real>>>, l: nat)
    requires Wired(input, iweights, w1) && Wired(input, iweights, w2)
    requires l <= |w1| && l <= |w2| && w1[..l] == w2[..l]
    ensures Hidden(input, iweights, w1, l) == Hidden(input, iweights, w2, l)
  {
    if l > 0 {
      assert w1[..l - 1] == w2[..l - 1] by {
        assert w1[..l - 1] == w1[..l][..l - 1];
        assert w2[..l - 1] == w2[..l][..l - 1];
      }
      HiddenReadsOnlyEarlierWeights(input, iweights, w1, w2, l - 1);
      assert w1[l - 1] == w1[..l][l - 1] == w2[..l][l - 1] == w2[l - 1];
    }
  }

  /** With an all-zero input (the set-up of `validate` and `test`), every sum of
      the first hidden layer is 0 and every activation of it is sigmoid(0) = 1/2. */
  lemma {:induction false} ZeroInputFirstLayer(input: seq<real>, iweights: seq<seq<real>>, weights: seq<seq<seq<real>>>)
    requires Wired(input, iweights, weights) && AllZero(input)
    ensures AllZero(Hidden(input, iweights, weights, 0))
    ensures forall i :: 0 <= i < |iweights| ==> SigmoidV(Hidden(input, iweights, weights, 0))[i] == 0.5
  {
    forall i | 0 <= i < |iweights|
      ensures Hidden(input, iweights, weights, 0)[i] == 0.0
    {
      DotOfZeros(input, iweights[i]);
    }
    SigmoidAtZero();
  }

  /** The output of the forward pass does not depend on the last inter-hidden
      matrix `weights[layers-2]`. */
  lemma OutputIgnoresLastHiddenMatrix(input: seq<real>, iweights: seq<seq<real>>, weights: seq<seq<seq<real>>>,
                                      last: seq<seq<real>>, oweights: seq<seq<real>>)
    requires Wired(input, iweights, weights) && |weights| >= 1
    requires IsMatrix(last, |iweights|, |iweights|)
    requires forall i :: 0 <= i < |oweights| ==> |iweights| <= |oweights[i]|
    ensures Wired(input, iweights, weights[|weights| - 1 := last])
    ensures NetOutput(input, iweights, weights[|weights| - 1 := last], oweights)
         == NetOutput(input, iweights, weights, oweights)
  {
    var other := weights[|weights| - 1 := last];
    assert other[..|weights| - 1] == weights[..|weights| - 1];
    HiddenReadsOnlyEarlierWeights(input, iweights, weights, other, |weights| - 1);
  }

  // The delta rule (`backward`)

  /** The outer product: `m[i][j] = u[i] * v[j]`. */
  function Outer(u: seq<real>, v: seq<real>): (m: seq<seq<real>>)
    ensures IsMatrix(m, |u|, |v|)
  {
    seq(|u|, i requires 0 <= i < |u| => seq(|v|, j requires 0 <= j < |v| => u[i] * v[j]))
  }

  /** `w[i][j] + rate * d[i][j]` for every cell. */
  function Nudged(w: seq<seq<real>>, rate: real, d: seq<seq<real>>): (r: seq<seq<real>>)
    requires |w| == |d| && forall i :: 0 <= i < |w| ==> |w[i]| == |d[i]|
    ensures |r| == |w| && forall i :: 0 <= i < |w| ==> |r[i]| == |w[i]|
  {
    seq(|w|, i requires 0 <= i < |w| => seq(|w[i]|, j requires 0 <= j < |w[i]| => w[i][j] + rate * d[i][j]))
  }

  /** One step of the error back through a weight matrix:
      `d[j] = (sum over k of e[k] * w[k][j]) * sigmoidder(h[j])`. */
  function Propagate(e: seq<real>, w: seq<seq<real>>, h: seq<real>): (d: seq<real>)
    requires |e| <= |w| && forall k :: 0 <= k < |e| ==> |h| <= |w[k]|
    ensures |d| == |h|
  {
    seq(|h|, j requires 0 <= j < |h| => ColDot(e, w, j) * SigmoidDer(h[j]))
  }

  /** Entry j of `Propagate`, for a column sum computed elsewhere. */
  lemma PropagateAt(e: seq<real>, w: seq<seq<real>>, h: seq<real>, j: nat, sum: real)
    requires |e| <= |w| && forall k :: 0 <= k < |e| ==> |h| <= |w[k]|
    requires j < |h| && sum == ColDot(e, w, j)
    ensures sum * SigmoidDer(h[j]) == Propagate(e, w, h)[j]
  {
  }

  /** The shapes the backward pass reads: `weights` is L×n×n, `hlayers` has at
      least L rows of width n, and `dh1` has width n. */
  predicate Layered(dh1: seq<real>, weights: seq<seq<seq<real>>>, hlayers: seq<seq<real>>)
  {
    IsTensor(weights, |weights|, |dh1|, |dh1|) && |weights| <= |hlayers|
    && forall l :: 0 <= l < |weights| ==> |hlayers[l]| == |dh1|
  }

  /** The `layer_error` of the delta rule once layers |weights|-1 down to t have
      been handled: `dh1` at t = |weights|, then each layer propagates it through
      its (not yet updated) weights. Layer i is updated with BackDelta(i+1);
      the input weights with BackDelta(0). */
  function BackDelta(dh1: seq<real>, weights: seq<seq<seq<real>>>, hlayers: seq<seq<real>>, t: nat): (d: seq<real>)
    requires Layered(dh1, weights, hlayers) && t <= |weights|
    ensures |d| == |dh1|
    decreases |weights| - t
  {
    if t == |weights| then dh1
    else Propagate(BackDelta(dh1, weights, hlayers, t + 1), weights[t], hlayers[t])
  }

  /** The shapes of a network with `nIn` inputs, `nOut` outputs, `layers` cache
      rows and `n` neurons per layer. */
  predicate NetShaped(nIn: nat, nOut: nat, layers: nat, n: nat,
                      iweights: seq<seq<real>>, weights: seq<seq<seq<real>>>, oweights: seq<seq<real>>,
                      hlayers: seq<seq<real>>, activations: seq<seq<real>>)
  {
    layers >= 2 && WeightShapes(nIn, nOut, layers, n, iweights, weights, oweights)
    && IsMatrix(hlayers, layers, n) && IsMatrix(activations, layers, n)
  }

  /** `dh1` of the delta rule: the output error `expected - output` brought back
      through the `oweights` of before the update, times sigmoidder of `hlayers[layers-2]`. */
  function FirstDelta(expected: seq<real>, output: seq<real>, oweights: seq<seq<real>>, hlayers: seq<seq<real>>): (d: seq<real>)
    requires |expected| == |output| == |oweights| && |hlayers| >= 2
    requires forall k :: 0 <= k < |oweights| ==> |hlayers[|hlayers| - 2]| <= |oweights[k]|
    ensures |d| == |hlayers[|hlayers| - 2]|
  {
    Propagate(Diff(expected, output), oweights, hlayers[|hlayers| - 2])
  }

  /** `oweights` after the delta rule: cell (i, j) grows by
      `rate * (expected[i] - output[i]) * activations[layers-2][j]`. */
  function DeltaOutputWeights(oweights: seq<seq<real>>, rate: real, expected: seq<real>, output: seq<real>,
                              activations: seq<seq<real>>): (r: seq<seq<real>>)
    requires |expected| == |output| == |oweights| && |activations| >= 2
    requires forall i :: 0 <= i < |oweights| ==> |oweights[i]| == |activations[|activations| - 2]|
    ensures |r| == |oweights|
  {
    Nudged(oweights, rate, Outer(Diff(expected, output), activations[|activations| - 2]))
  }

  /** `weights` after the delta rule: matrix i grows by `rate * dweights[i]`, with
      `dweights[i][j][k] = BackDelta(i+1)[k] * activations[i][j]`. */
  function DeltaHiddenWeights(weights: seq<seq<seq<real>>>, rate: real, dh1: seq<real>,
                              hlayers: seq<seq<real>>, activations: seq<seq<real>>): (r: seq<seq<seq<real>>>)
    requires Layered(dh1, weights, hlayers) && |weights| <= |activations|
    requires forall l :: 0 <= l < |weights| ==> |activations[l]| == |dh1|
    ensures |r| == |weights|
  {
    seq(|weights|, i requires 0 <= i < |weights| =>
      Nudged(weights[i], rate, Outer(activations[i], BackDelta(dh1, weights, hlayers, i + 1))))
  }

  /** `iweights` after the delta rule: every cell of row i grows by
      `rate * delta[i]`, whatever the input was. */
  function DeltaInputWeights(iweights: seq<seq<real>>, rate: real, delta: seq<real>): (r: seq<seq<real>>)
    requires |iweights| <= |delta|
    ensures |r| == |iweights| && forall i :: 0 <= i < |r| ==> |r[i]| == |iweights[i]|
  {
    seq(|iweights|, i requires 0 <= i < |iweights| =>
      seq(|iweights[i]|, j requires 0 <= j < |iweights[i]| => iweights[i][j] + rate * delta[i]))
  }

  /** Every cell of a row of `iweights` moves by the same amount under the delta
      rule, so two cells of a row keep their difference. */
  lemma InputWeightsMoveTogether(iweights: seq<seq<real>>, rate: real, delta: seq<real>, i: nat, j1: nat, j2: nat)
    requires |iweights| <= |delta| && i < |iweights| && j1 < |iweights[i]| && j2 < |iweights[i]|
    ensures DeltaInputWeights(iweights, rate, delta)[i][j1] - DeltaInputWeights(iweights, rate, delta)[i][j2]
         == iweights[i][j1] - iweights[i][j2]
  {
  }

  /** The three weight tensors (iweights, weights, oweights) of a network. */
  type Tensors = (seq<seq<real>>, seq<seq<seq<real>>>, seq<seq<real>>)

  /** The three tensors after the delta rule of `backward`, from the error
      `expected - output` and the caches of the forward pass before it. */
  function DeltaRuleWeights(nIn: nat, nOut: nat, layers: nat, n: nat, rate: real,
                            expected: seq<real>, output: seq<real>,
                            t: Tensors, hlayers: seq<seq<real>>, activations: seq<seq<real>>): (r: Tensors)
    requires NetShaped(nIn, nOut, layers, n, t.0, t.1, t.2, hlayers, activations)
    requires |expected| == nOut && |output| == nOut
  {
    var dh1 := FirstDelta(expected, output, t.2, hlayers);
    (DeltaInputWeights(t.0, rate, BackDelta(dh1, t.1, hlayers, 0)),
     DeltaHiddenWeights(t.1, rate, dh1, hlayers, activations),
     DeltaOutputWeights(t.2, rate, expected, output, activations))
  }

  /** The delta rule keeps the shapes of the three tensors. */
  lemma DeltaRuleKeepsShapes(nIn: nat, nOut: nat, layers: nat, n: nat, rate: real,
                             expected: seq<real>, output: seq<real>,
                             t: Tensors, hlayers: seq<seq<real>>, activations: seq<seq<real>>)
    requires NetShaped(nIn, nOut, layers, n, t.0, t.1, t.2, hlayers, activations)
    requires |expected| == nOut && |output| == nOut
    ensures var r := DeltaRuleWeights(nIn, nOut, layers, n, rate, expected, output, t, hlayers, activations);
            WeightShapes(nIn, nOut, layers, n, r.0, r.1, r.2)
  {
    var r := DeltaRuleWeights(nIn, nOut, layers, n, rate, expected, output, t, hlayers, activations);
    var dh1 := FirstDelta(expected, output, t.2, hlayers);
    DeltaHiddenKeepsShapes(t.1, rate, dh1, hlayers, activations);
    assert r.2 == Nudged(t.2, rate, Outer(Diff(expected, output), activations[layers - 2]));
  }

  /** Each matrix of the hidden weights keeps its n×n shape under the delta rule. */
  lemma DeltaHiddenKeepsShapes(weights: seq<seq<seq<real>>>, rate: real, dh1: seq<real>,
                               hlayers: seq<seq<real>>, activations: seq<seq<real>>)
    requires Layered(dh1, weights, hlayers) && |weights| <= |activations|
    requires forall l :: 0 <= l < |weights| ==> |activations[l]| == |dh1|
    ensures IsTensor(DeltaHiddenWeights(weights, rate, dh1, hlayers, activations), |weights|, |dh1|, |dh1|)
  {
    var r := DeltaHiddenWeights(weights, rate, dh1, hlayers, activations);
    forall l | 0 <= l < |weights|
      ensures IsMatrix(r[l], |dh1|, |dh1|)
    {
      assert r[l] == Nudged(weights[l], rate, Outer(activations[l], BackDelta(dh1, weights, hlayers, l + 1)));
    }
  }

  // The gradient path (`backprop`)

  /** `(sum over j < |w| of w[j][c] * g[j][c])`: column c of two matrices,
      multiplied cell by cell and summed. */
  function ColProducts(w: seq<seq<real>>, g: seq<seq<real>>, c: nat): real
    requires |w| <= |g| && forall j :: 0 <= j < |w| ==> c < |w[j]| && c < |g[j]|
  {
    if |w| == 0 then 0.0 else ColProducts(w[..|w| - 1], g, c) + w[|w| - 1][c] * g[|w| - 1][c]
  }

  /** `hidden_error` of `backprop`: `(sum over j of w[j][i] * e[j]) * a[i] * (1 - a[i])`. */
  function Gated(e: seq<real>, w: seq<seq<real>>, a: seq<real>): (d: seq<real>)
    requires |e| <= |w| && forall j :: 0 <= j < |e| ==> |a| <= |w[j]|
    ensures |d| == |a|
  {
    seq(|a|, i requires 0 <= i < |a| => ColDot(e, w, i) * a[i] * (1.0 - a[i]))
  }

  /** `layer_error` of `backprop` at one layer:
      `(sum over j of w[j][i] * g[j][i]) * a[i] * (1 - a[i])`. */
  function LayerGradientError(w: seq<seq<real>>, g: seq<seq<real>>, a: seq<real>): (d: seq<real>)
    requires |w| <= |g| && forall j :: 0 <= j < |w| ==> |a| <= |w[j]| && |a| <= |g[j]|
    ensures |d| == |a|
  {
    seq(|a|, i requires 0 <= i < |a| => ColProducts(w, g, i) * a[i] * (1.0 - a[i]))
  }

  /** The shapes `backprop` reads per layer: `gweights[l]` covers `weights[l]`,
      and both are at least as wide as `activations[l]`. */
  predicate Stacked(weights: seq<seq<seq<real>>>, gweights: seq<seq<seq<real>>>, activations: seq<seq<real>>)
  {
    |gweights| == |weights| <= |activations|
    && forall l :: 0 <= l < |weights| ==>
         (|weights[l]| <= |gweights[l]|
          && forall j :: 0 <= j < |weights[l]| ==> |activations[l]| <= |weights[l][j]| && |activations[l]| <= |gweights[l][j]|)
  }

  /** The three gradient tensors `backprop` leaves, (giweights, gweights,
      goweights), from the fields it reads. The output error is
      `output - expected`; the output and input gradients use row layers-1 of
      `activations`; layer l's gradient uses the old `gweights[l]`. */
  function BackpropGradients(input: seq<real>, output: seq<real>, expected: seq<real>,
                             oweights: seq<seq<real>>, weights: seq<seq<seq<real>>>,
                             activations: seq<seq<real>>, gweights: seq<seq<seq<real>>>)
    : (r: (seq<seq<real>>, seq<seq<seq<real>>>, seq<seq<real>>))
    requires |output| == |expected| == |oweights| && |activations| == |weights| + 1
    requires forall j :: 0 <= j < |oweights| ==> |activations[|weights|]| <= |oweights[j]|
    requires Stacked(weights, gweights, activations)
    ensures |r.1| == |weights|
  {
    var e := Diff(output, expected);
    var top := activations[|weights|];
    (Outer(Gated(e, oweights, top), input),
     seq(|weights|, l requires 0 <= l < |weights| =>
       Outer(LayerGradientError(weights[l], gweights[l], activations[l]), activations[l])),
     Outer(e, top))
  }

  lemma {:induction false} ColProductsOfZeros(w: seq<seq<real>>, g: seq<seq<real>>, c: nat)
    requires |w| <= |g| && forall j :: 0 <= j < |w| ==> c < |w[j]| && c < |g[j]|
    requires forall j :: 0 <= j < |g| ==> AllZero(g[j])
    ensures ColProducts(w, g, c) == 0.0
  {
    if |w| > 0 {
      ColProductsOfZeros(w[..|w| - 1], g, c);
      assert g[|w| - 1][c] == 0.0;
    }
  }

  /** With row layers-1 of `activations` and every `gweights` entry zero,
      `backprop` produces nothing but zero gradients. */
  lemma BackpropVanishes(input: seq<real>, output: seq<real>, expected: seq<real>,
                         oweights: seq<seq<real>>, weights: seq<seq<seq<real>>>,
                         activations: seq<seq<real>>, gweights: seq<seq<seq<real>>>)
    requires |output| == |expected| == |oweights| && |activations| == |weights| + 1
    requires forall j :: 0 <= j < |oweights| ==> |activations[|weights|]| <= |oweights[j]|
    requires Stacked(weights, gweights, activations)
    requires AllZero(activations[|weights|]) && AllZero3(gweights)
    ensures var (gi, gw, go) := BackpropGradients(input, output, expected, oweights, weights, activations, gweights);
      AllZero2(gi) && AllZero3(gw) && AllZero2(go)
  {
    var (gi, gw, go) := BackpropGradients(input, output, expected, oweights, weights, activations, gweights);
    var e := Diff(output, expected);
    var top := activations[|weights|];
    assert AllZero(Gated(e, oweights, top));
    forall l | 0 <= l < |weights|
      ensures AllZero2(gw[l])
    {
      forall i | 0 <= i < |activations[l]|
        ensures LayerGradientError(weights[l], gweights[l], activations[l])[i] == 0.0
      {
        ColProductsOfZeros(weights[l], gweights[l], i);
      }
    }
  }

  // The regularised updates (`backwithL1`, `backwithL2`)

  /** The regularisation parameter of `backwithL1` and `backwithL2`. */
  const Lambda: real := 0.01

  /** One weight under `backwithL1`: the sign term is +λ for a positive weight
      and -λ otherwise, so a zero weight takes the -λ branch. */
  function L1Step(w: real, g: real, rate: real): real
  {
    if w > 0.0 then w - rate * (Lambda + g) else w - rate * (-Lambda + g)
  }

  /** One weight under `backwithL2`: gradient plus weight decay λ·w. */
  function L2Step(w: real, g: real, rate: real): real
  {
    w - rate * (Lambda * w + g)
  }

  function L1Matrix(w: seq<seq<real>>, g: seq<seq<real>>, rate: real): (r: seq<seq<real>>)
    requires |w| <= |g| && forall i :: 0 <= i < |w| ==> |w[i]| <= |g[i]|
    ensures |r| == |w| && forall i :: 0 <= i < |w| ==> |r[i]| == |w[i]|
  {
    seq(|w|, i requires 0 <= i < |w| => seq(|w[i]|, j requires 0 <= j < |w[i]| => L1Step(w[i][j], g[i][j], rate)))
  }

  function L2Matrix(w: seq<seq<real>>, g: seq<seq<real>>, rate: real): (r: seq<seq<real>>)
    requires |w| <= |g| && forall i :: 0 <= i < |w| ==> |w[i]| <= |g[i]|
    ensures |r| == |w| && forall i :: 0 <= i < |w| ==> |r[i]| == |w[i]|
  {
    seq(|w|, i requires 0 <= i < |w| => seq(|w[i]|, j requires 0 <= j < |w[i]| => L2Step(w[i][j], g[i][j], rate)))
  }

  predicate Matching(w: seq<seq<seq<real>>>, g: seq<seq<seq<real>>>)
  {
    |w| <= |g| && forall l :: 0 <= l < |w| ==> |w[l]| <= |g[l]| && forall i :: 0 <= i < |w[l]| ==> |w[l][i]| <= |g[l][i]|
  }

  function L1Tensor(w: seq<seq<seq<real>>>, g: seq<seq<seq<real>>>, rate: real): (r: seq<seq<seq<real>>>)
    requires Matching(w, g)
    ensures |r| == |w|
  {
    seq(|w|, l requires 0 <= l < |w| => L1Matrix(w[l], g[l], rate))
  }

  function L2Tensor(w: seq<seq<seq<real>>>, g: seq<seq<seq<real>>>, rate: real): (r: seq<seq<seq<real>>>)
    requires Matching(w, g)
    ensures |r| == |w|
  {
    seq(|w|, l requires 0 <= l < |w| => L2Matrix(w[l], g[l], rate))
  }

  /** Without a gradient, an L1 step moves a weight by exactly rate·λ towards
      zero from the positive side, and away from zero (upwards) otherwise. */
  lemma L1StepWithoutGradient(w: real, rate: real)
    requires rate > 0.0
    ensures w > 0.0 ==> L1Step(w, 0.0, rate) == w - rate * Lambda < w
    ensures w <= 0.0 ==> L1Step(w, 0.0, rate) == w + rate * Lambda > w
  {
  }

  /** Without a gradient, an L2 step is pure weight decay: the weight is scaled by
      `1 - rate·λ`, and for 0 < rate·λ <= 1 its magnitude does not grow. */
  lemma L2StepWithoutGradient(w: real, rate: real)
    ensures L2Step(w, 0.0, rate) == (1.0 - rate * Lambda) * w
    ensures 0.0 < rate * Lambda <= 1.0 ==> Abs(L2Step(w, 0.0, rate)) <= Abs(w)
  {
    var f := 1.0 - rate * Lambda;
    if 0.0 < rate * Lambda <= 1.0 {
      assert 0.0 <= f < 1.0;
      if w >= 0.0 {
        assert f * w <= w by { assert w - f * w == (1.0 - f) * w; ProductNonneg(1.0 - f, w); }
        ProductNonneg(f, w);
      } else {
        assert f * w >= w by { assert f * w - w == (1.0 - f) * (-w); ProductNonneg(1.0 - f, -w); }
        assert f * w <= 0.0 by { ProductNonneg(f, -w); }
      }
    }
  }

  lemma ZeroQuotient(a: real, d: real)
    requires a == 0.0 && d != 0.0
    ensures a / d == 0.0
  {
  }

  lemma ProductNonneg(a: real, b: real)
    requires a >= 0.0 && b >= 0.0
    ensures a * b >= 0.0
  {
  }

  /** With all gradients zero, `backwithL2` scales every weight of a matrix by
      `1 - rate·λ`. */
  lemma L2MatrixIsDecay(w: seq<seq<real>>, g: seq<seq<real>>, rate: real)
    requires |w| <= |g| && forall i :: 0 <= i < |w| ==> |w[i]| <= |g[i]|
    requires AllZero2(g)
    ensures forall i, j :: 0 <= i < |w| && 0 <= j < |w[i]| ==> L2Matrix(w, g, rate)[i][j] == (1.0 - rate * Lambda) * w[i][j]
  {
    forall i, j | 0 <= i < |w| && 0 <= j < |w[i]|
      ensures L2Matrix(w, g, rate)[i][j] == (1.0 - rate * Lambda) * w[i][j]
    {
      assert g[i][j] == 0.0;
      L2StepWithoutGradient(w[i][j], rate);
    }
  }

  /** The same for the whole inter-hidden tensor. */
  lemma L2TensorIsDecay(w: seq<seq<seq<real>>>, g: seq<seq<seq<real>>>, rate: real)
    requires Matching(w, g) && AllZero3(g)
    ensures forall l, i, j :: 0 <= l < |w| && 0 <= i < |w[l]| && 0 <= j < |w[l][i]| ==>
              L2Tensor(w, g, rate)[l][i][j] == (1.0 - rate * Lambda) * w[l][i][j]
  {
    forall l | 0 <= l < |w|
      ensures forall i, j :: 0 <= i < |w[l]| && 0 <= j < |w[l][i]| ==>
                L2Tensor(w, g, rate)[l][i][j] == (1.0 - rate * Lambda) * w[l][i][j]
    {
      L2MatrixIsDecay(w[l], g[l], rate);
    }
  }

  // Rprop

  const EtaPlus: real := 1.2
  const EtaMinus: real := 0.5
  const DeltaMax: real := 50.0
  const DeltaMin: real := 0.000001

  /** The state `rprop` keeps for one weight: the weight itself, the remembered
      gradient and the step size. */
  datatype RpropCell = RpropCell(weight: real, memory: real, step: real)

  function Min(a: real, b: real): real { if a <= b then a else b }
  function Max(a: real, b: real): real { if a >= b then a else b }

  /** The signed move: down by the step for a positive gradient, up otherwise. */
  function Move(grad: real, step: real): real
  {
    if grad > 0.0 then -step else step
  }

  /** One `rprop` update of one weight with gradient `grad`: on agreeing signs the
      step grows by η+ (capped at 50); on a sign flip it shrinks by η- (floored at
      1e-6) and the remembered gradient is reset to 0; otherwise the step stays. */
  function RpropUpdate(grad: real, c: RpropCell): (r: RpropCell)
  {
    if grad * c.memory > 0.0 then
      var s := Min(c.step * EtaPlus, DeltaMax);
      RpropCell(c.weight + Move(grad, s), grad, s)
    else if grad * c.memory < 0.0 then
      var s := Max(c.step * EtaMinus, DeltaMin);
      RpropCell(c.weight + Move(grad, s), 0.0, s)
    else
      RpropCell(c.weight + Move(grad, c.step), grad, c.step)
  }

  predicate StepInRange(s: real)
  {
    DeltaMin <= s <= DeltaMax
  }

  /** The step size never leaves [1e-6, 50] once it starts there. */
  lemma RpropStepStaysInRange(grad: real, c: RpropCell)
    requires StepInRange(c.step)
    ensures StepInRange(RpropUpdate(grad, c).step)
  {
  }

  /** The three-way rule: the weight moves by exactly the new step, downwards for
      a positive gradient and upwards otherwise; the remembered gradient becomes
      0 on a sign flip and `grad` otherwise; the step grows only on agreeing
      signs and shrinks only on a flip. */
  lemma RpropRules(grad: real, c: RpropCell)
    requires StepInRange(c.step)
    ensures var r := RpropUpdate(grad, c);
      (grad > 0.0 ==> r.weight == c.weight - r.step) && (grad <= 0.0 ==> r.weight == c.weight + r.step)
      && (grad * c.memory < 0.0 ==> r.memory == 0.0 && r.step <= c.step)
      && (grad * c.memory >= 0.0 ==> r.memory == grad)
      && (grad * c.memory > 0.0 ==> r.step >= c.step)
      && (grad * c.memory == 0.0 ==> r.step == c.step)
  {
  }

  /** A zero gradient always takes the neutral branch: the weight grows by the
      unchanged step and the remembered gradient becomes 0. */
  lemma RpropZeroGradient(c: RpropCell)
    ensures RpropUpdate(0.0, c) == RpropCell(c.weight + c.step, 0.0, c.step)
  {
  }

  /** Row-by-row `rprop` update of a matrix of weights with matching matrices of
      gradients, memories and steps: the new (weights, memories, steps). */
  function RpropMatrix(w: seq<seq<real>>, grads: seq<seq<real>>, memory: seq<seq<real>>, steps: seq<seq<real>>)
    : (r: (seq<seq<real>>, seq<seq<real>>, seq<seq<real>>))
    requires |w| == |grads| == |memory| == |steps|
    requires forall i :: 0 <= i < |w| ==> |grads[i]| == |w[i]| && |memory[i]| == |w[i]| && |steps[i]| == |w[i]|
    ensures |r.0| == |r.1| == |r.2| == |w|
    ensures forall i :: 0 <= i < |w| ==> |r.0[i]| == |r.1[i]| == |r.2[i]| == |w[i]|
  {
    (seq(|w|, i requires 0 <= i < |w| => seq(|w[i]|, j requires 0 <= j < |w[i]| =>
        RpropUpdate(grads[i][j], RpropCell(w[i][j], memory[i][j], steps[i][j])).weight)),
     seq(|w|, i requires 0 <= i < |w| => seq(|w[i]|, j requires 0 <= j < |w[i]| =>
        RpropUpdate(grads[i][j], RpropCell(w[i][j], memory[i][j], steps[i][j])).memory)),
     seq(|w|, i requires 0 <= i < |w| => seq(|w[i]|, j requires 0 <= j < |w[i]| =>
        RpropUpdate(grads[i][j], RpropCell(w[i][j], memory[i][j], steps[i][j])).step)))
  }

  /** With every gradient zero, the matrix update adds each step to its weight,
      clears every remembered gradient and keeps every step. */
  lemma RpropMatrixZeroGradient(w: seq<seq<real>>, grads: seq<seq<real>>, memory: seq<seq<real>>, steps: seq<seq<real>>)
    requires |w| == |grads| == |memory| == |steps|
    requires forall i :: 0 <= i < |w| ==> |grads[i]| == |w[i]| && |memory[i]| == |w[i]| && |steps[i]| == |w[i]|
    requires AllZero2(grads)
    ensures RpropMatrix(w, grads, memory, steps).0 == Nudged(w, 1.0, steps)
    ensures AllZero2(RpropMatrix(w, grads, memory, steps).1)
    ensures RpropMatrix(w, grads, memory, steps).2 == steps
  {
    var r := RpropMatrix(w, grads, memory, steps);
    forall i, j | 0 <= i < |w| && 0 <= j < |w[i]|
      ensures r.0[i][j] == w[i][j] + 1.0 * steps[i][j] && r.1[i][j] == 0.0 && r.2[i][j] == steps[i][j]
    {
      assert grads[i][j] == 0.0;
      RpropZeroGradient(RpropCell(w[i][j], memory[i][j], steps[i][j]));
    }
    assert forall i :: 0 <= i < |w| ==> r.0[i] == Nudged(w, 1.0, steps)[i];
    assert forall i :: 0 <= i < |w| ==> r.2[i] == steps[i];
  }

  /** Every step of a matrix of steps lies in [1e-6, 50]. */
  predicate StepsInRange(steps: seq<seq<real>>)
  {
    forall i, j :: 0 <= i < |steps| && 0 <= j < |steps[i]| ==> StepInRange(steps[i][j])
  }

  /** The matrix update keeps every step in [1e-6, 50]. */
  lemma RpropMatrixKeepsSteps(w: seq<seq<real>>, grads: seq<seq<real>>, memory: seq<seq<real>>, steps: seq<seq<real>>)
    requires |w| == |grads| == |memory| == |steps|
    requires forall i :: 0 <= i < |w| ==> |grads[i]| == |w[i]| && |memory[i]| == |w[i]| && |steps[i]| == |w[i]|
    requires StepsInRange(steps)
    ensures StepsInRange(RpropMatrix(w, grads, memory, steps).2)
  {
    var r := RpropMatrix(w, grads, memory, steps);
    forall i, j | 0 <= i < |r.2| && 0 <= j < |r.2[i]|
      ensures StepInRange(r.2[i][j])
    {
      RpropStepStaysInRange(grads[i][j], RpropCell(w[i][j], memory[i][j], steps[i][j]));
    }
  }

  /** On `rows`×`cols` matrices the update gives `rows`×`cols` matrices and
      keeps the steps in [1e-6, 50]. */
  lemma RpropMatrixOnMatrices(w: seq<seq<real>>, grads: seq<seq<real>>, memory: seq<seq<real>>,
                              steps: seq<seq<real>>, rows: nat, cols: nat)
    requires IsMatrix(w, rows, cols) && IsMatrix(grads, rows, cols)
    requires IsMatrix(memory, rows, cols) && IsMatrix(steps, rows, cols)
    ensures var r := RpropMatrix(w, grads, memory, steps);
            IsMatrix(r.0, rows, cols) && IsMatrix(r.1, rows, cols) && IsMatrix(r.2, rows, cols)
    ensures StepsInRange(steps) ==> StepsInRange(RpropMatrix(w, grads, memory, steps).2)
  {
    if StepsInRange(steps) {
      RpropMatrixKeepsSteps(w, grads, memory, steps);
    }
  }

  /** The top-left `rows`×`cols` block of a matrix. */
  function Block(m: seq<seq<real>>, rows: nat, cols: nat): (b: seq<seq<real>>)
    requires rows <= |m| && forall i :: 0 <= i < rows ==> cols <= |m[i]|
    ensures IsMatrix(b, rows, cols)
  {
    seq(rows, i requires 0 <= i < rows => m[i][..cols])
  }

  /** `m` with its top-left block replaced by `b`. */
  function WithBlock(m: seq<seq<real>>, b: seq<seq<real>>): (r: seq<seq<real>>)
    requires |b| <= |m| && forall i :: 0 <= i < |b| ==> |b[i]| <= |m[i]|
    ensures |r| == |m| && forall i :: 0 <= i < |m| ==> |r[i]| == |m[i]|
  {
    seq(|m|, i requires 0 <= i < |m| => if i < |b| then b[i] + m[i][|b[i]|..] else m[i])
  }

  /** One sample of `rprop`: the rprop rule on `oweights` with the gradients
      outputError ⊗ hlayer0, then on `iweights` with hiddenError ⊗ input,
      where the `iweights` pass reuses the top-left block of the memories the
      first pass left. The result is (oweights, iweights, gradients,
      deltaWeights) afterwards. */
  function RpropSampleUpdate(outputError: seq<real>, hiddenError: seq<real>, hlayer0: seq<real>, input: seq<real>,
                             oweights: seq<seq<real>>, iweights: seq<seq<real>>,
                             gradients: seq<seq<real>>, deltaWeights: seq<seq<real>>)
    : (r: (seq<seq<real>>, seq<seq<real>>, seq<seq<real>>, seq<seq<real>>))
    requires |outputError| == |oweights| && IsMatrix(oweights, |oweights|, |hlayer0|)
    requires IsMatrix(gradients, |oweights|, |hlayer0|) && IsMatrix(deltaWeights, |oweights|, |hlayer0|)
    requires |hiddenError| == |iweights| <= |oweights| && IsMatrix(iweights, |iweights|, |input|) && |input| <= |hlayer0|
    ensures IsMatrix(r.0, |oweights|, |hlayer0|) && IsMatrix(r.1, |iweights|, |input|)
    ensures IsMatrix(r.2, |oweights|, |hlayer0|) && IsMatrix(r.3, |oweights|, |hlayer0|)
  {
    var (o1, m1, s1) := RpropMatrix(oweights, Outer(outputError, hlayer0), gradients, deltaWeights);
    var (i2, m2, s2) := RpropMatrix(iweights, Outer(hiddenError, input),
                                    Block(m1, |iweights|, |input|), Block(s1, |iweights|, |input|));
    (o1, i2, WithBlock(m1, m2), WithBlock(s1, s2))
  }

  /** One `rprop` sample keeps every step in [1e-6, 50]: both loops do, and
      the second writes back only the block it read. */
  lemma RpropSampleKeepsSteps(outputError: seq<real>, hiddenError: seq<real>, hlayer0: seq<real>,
                              input: seq<real>, oweights: seq<seq<real>>, iweights: seq<seq<real>>,
                              gradients: seq<seq<real>>, deltaWeights: seq<seq<real>>)
    requires |outputError| == |oweights| && IsMatrix(oweights, |oweights|, |hlayer0|)
    requires IsMatrix(gradients, |oweights|, |hlayer0|) && IsMatrix(deltaWeights, |oweights|, |hlayer0|)
    requires |hiddenError| == |iweights| <= |oweights| && IsMatrix(iweights, |iweights|, |input|) && |input| <= |hlayer0|
    requires StepsInRange(deltaWeights)
    ensures StepsInRange(RpropSampleUpdate(outputError, hiddenError, hlayer0, input, oweights, iweights,
                                           gradients, deltaWeights).3)
  {
    var (o1, m1, s1) := RpropMatrix(oweights, Outer(outputError, hlayer0), gradients, deltaWeights);
    RpropMatrixKeepsSteps(oweights, Outer(outputError, hlayer0), gradients, deltaWeights);
    var sb := Block(s1, |iweights|, |input|);
    assert StepsInRange(sb) by {
      forall i, j | 0 <= i < |sb| && 0 <= j < |sb[i]|
        ensures StepInRange(sb[i][j])
      {
        assert sb[i][j] == s1[i][j];
      }
    }
    var (i2, m2, s2) := RpropMatrix(iweights, Outer(hiddenError, input), Block(m1, |iweights|, |input|), sb);
    RpropMatrixKeepsSteps(iweights, Outer(hiddenError, input), Block(m1, |iweights|, |input|), sb);
    var r := WithBlock(s1, s2);
    forall i, j | 0 <= i < |r| && 0 <= j < |r[i]|
      ensures StepInRange(r[i][j])
    {
      if i < |s2| {
        if j < |s2[i]| {
          assert r[i][j] == s2[i][j];
        } else {
          assert r[i][j] == s1[i][j];
        }
      }
    }
  }

  /** With `hlayer0` and `hiddenError` zero and every remembered gradient zero
      (the state `rprop` is always in, as `backward` has just cleared the
      caches), both loops take the neutral branch: every weight grows by its
      step, steps are kept, and the remembered gradients stay zero. */
  lemma RpropSampleWithoutGradient(outputError: seq<real>, hiddenError: seq<real>, hlayer0: seq<real>,
                                   input: seq<real>, oweights: seq<seq<real>>, iweights: seq<seq<real>>,
                                   gradients: seq<seq<real>>, deltaWeights: seq<seq<real>>)
    requires |outputError| == |oweights| && IsMatrix(oweights, |oweights|, |hlayer0|)
    requires IsMatrix(gradients, |oweights|, |hlayer0|) && IsMatrix(deltaWeights, |oweights|, |hlayer0|)
    requires |hiddenError| == |iweights| <= |oweights| && IsMatrix(iweights, |iweights|, |input|) && |input| <= |hlayer0|
    requires AllZero(hlayer0) && AllZero(hiddenError) && AllZero2(gradients)
    ensures var r := RpropSampleUpdate(outputError, hiddenError, hlayer0, input, oweights, iweights, gradients, deltaWeights);
            r.0 == Nudged(oweights, 1.0, deltaWeights) && r.1 == Nudged(iweights, 1.0, Block(deltaWeights, |iweights|, |input|))
            && AllZero2(r.2) && r.3 == deltaWeights
  {
    var g1 := Outer(outputError, hlayer0);
    assert AllZero2(g1);
    RpropMatrixZeroGradient(oweights, g1, gradients, deltaWeights);
    var (o1, m1, s1) := RpropMatrix(oweights, g1, gradients, deltaWeights);
    var g2 := Outer(hiddenError, input);
    assert AllZero2(g2);
    var mb, sb := Block(m1, |iweights|, |input|), Block(s1, |iweights|, |input|);
    RpropMatrixZeroGradient(iweights, g2, mb, sb);
    var (i2, m2, s2) := RpropMatrix(iweights, g2, mb, sb);
    forall i | 0 <= i < |oweights|
      ensures AllZero(WithBlock(m1, m2)[i]) && WithBlock(s1, s2)[i] == deltaWeights[i]
    {
      if i < |m2| {
        assert s2[i] == deltaWeights[i][..|input|];
        assert WithBlock(s1, s2)[i] == deltaWeights[i][..|input|] + deltaWeights[i][|input|..];
        assert deltaWeights[i][..|input|] + deltaWeights[i][|input|..] == deltaWeights[i];
      }
    }
  }

  // Penalties and losses

  /** `getL1Penalty`: the sum of |w| over the inter-hidden tensor only. */
  function L1Penalty(weights: seq<seq<seq<real>>>): real
  {
    SumMap3(weights, Abs)
  }

  /** `getL2Penalty`: the sum of w² over the inter-hidden tensor only. */
  function L2Penalty(weights: seq<seq<seq<real>>>): real
  {
    SumMap3(weights, Square)
  }

  /** Both penalties are non-negative, and zero on an all-zero tensor. */
  lemma PenaltiesNonneg(weights: seq<seq<seq<real>>>)
    ensures L1Penalty(weights) >= 0.0 && L2Penalty(weights) >= 0.0
    ensures AllZero3(weights) ==> L1Penalty(weights) == 0.0 && L2Penalty(weights) == 0.0
  {
    SumMap3Nonneg(weights, Abs);
    SumMap3Nonneg(weights, Square);
    if AllZero3(weights) {
      SumMap3OfZeros(weights, Abs);
      SumMap3OfZeros(weights, Square);
    }
  }

  /** Sum of |outputs[i] - targets[i]| over the length of `outputs`. */
  function AbsoluteError(outputs: seq<real>, targets: seq<real>): real
    requires |outputs| <= |targets|
  {
    SumMap(Diff(outputs, targets), Abs)
  }

  /** Sum of (outputs[i] - targets[i])² over the length of `outputs`. */
  function SquaredError(outputs: seq<real>, targets: seq<real>): real
    requires |outputs| <= |targets|
  {
    SumMap(Diff(outputs, targets), Square)
  }

  /** `computeLossWithL1`: absolute error plus half λ times the L1 penalty. */
  function LossWithL1(outputs: seq<real>, targets: seq<real>, weights: seq<seq<seq<real>>>, lambda: real): real
    requires |outputs| <= |targets|
  {
    AbsoluteError(outputs, targets) + 0.5 * lambda * L1Penalty(weights)
  }

  /** `computeLossWithL2`: half the squared error plus half λ times the L2 penalty. */
  function LossWithL2(outputs: seq<real>, targets: seq<real>, weights: seq<seq<seq<real>>>, lambda: real): real
    requires |outputs| <= |targets|
  {
    0.5 * SquaredError(outputs, targets) + 0.5 * lambda * L2Penalty(weights)
  }

  /** `dropoutGeneralisation`: the squared error scaled by 1/(1 - p). */
  function DropoutLoss(outputs: seq<real>, targets: seq<real>, p: real): real
    requires |outputs| <= |targets| && p != 1.0
  {
    SquaredError(outputs, targets) / (1.0 - p)
  }

  /** Every loss is non-negative for λ >= 0 and a dropout rate below 1, and each
      is zero on a perfect prediction of an all-zero network. */
  lemma LossesNonneg(outputs: seq<real>, targets: seq<real>, weights: seq<seq<seq<real>>>, lambda: real, p: real)
    requires |outputs| <= |targets| && lambda >= 0.0 && p < 1.0
    ensures LossWithL1(outputs, targets, weights, lambda) >= 0.0
    ensures LossWithL2(outputs, targets, weights, lambda) >= 0.0
    ensures DropoutLoss(outputs, targets, p) >= 0.0
    ensures outputs == targets[..|outputs|] && AllZero3(weights) ==>
      LossWithL1(outputs, targets, weights, lambda) == 0.0 && LossWithL2(outputs, targets, weights, lambda) == 0.0
      && DropoutLoss(outputs, targets, p) == 0.0
  {
    PenaltiesNonneg(weights);
    SumMapNonneg(Diff(outputs, targets), Abs);
    SumMapNonneg(Diff(outputs, targets), Square);
    ProductNonneg(0.5 * lambda, L1Penalty(weights));
    ProductNonneg(0.5 * lambda, L2Penalty(weights));
    var s := SquaredError(outputs, targets);
    assert s / (1.0 - p) >= 0.0 by { ProductNonneg(s, 1.0 / (1.0 - p)); assert s / (1.0 - p) == s * (1.0 / (1.0 - p)); }
    if outputs == targets[..|outputs|] && AllZero3(weights) {
      assert AllZero(Diff(outputs, targets));
      SumMapOfZeros(Diff(outputs, targets), Abs);
      SumMapOfZeros(Diff(outputs, targets), Square);
      assert s == 0.0;
      ZeroQuotient(s, 1.0 - p);
    }
  }
}
