/** What the training loops of both networks compute, as functions on values:
    the weights one forward pass followed by the delta rule leaves
    (`SampleStep`), threaded over the rounds of `train()`, the rows and passes
    of `train(inputs)`, the samples and epochs of the C++ `rprop` and the
    epochs of the C `rprop`. The classes of MlpNet and CMlp are proved to
    leave exactly these weights. */
module Training {
  import opened Numerics
  import opened Activations
  import opened Propagation
  import Errors

  /** The three weight tensors of a network with `nIn` inputs and `nOut`
      outputs under the sizing rule `layers = in + out`, `neurons = in * out`. */
  predicate Fits(nIn: nat, nOut: nat, t: Tensors)
  {
    nIn >= 1 && nOut >= 1 && WeightShapes(nIn, nOut, nIn + nOut, nIn * nOut, t.0, t.1, t.2)
  }

  // The forward pass and the delta rule

  /** The `hlayers` a forward pass on `input` computes: row l < layers-1 holds
      the weighted sums of hidden layer l; the last row, which the forward
      pass never writes, is zero. */
  function ForwardHidden(input: seq<real>, t: Tensors): (h: seq<seq<real>>)
    requires Fits(|input|, |t.2|, t)
    ensures |h| == |t.1| + 1 && forall l :: 0 <= l < |h| ==> |h[l]| == |t.0|
  {
    seq(|t.1| + 1, l requires 0 <= l <= |t.1| =>
      if l < |t.1| then Hidden(input, t.0, t.1, l) else Zeros(|t.0|))
  }

  /** The `activations` a forward pass on `input` computes: the sigmoid of
      each computed row of `ForwardHidden`, and a zero last row. */
  function ForwardActivations(input: seq<real>, t: Tensors): (a: seq<seq<real>>)
    requires Fits(|input|, |t.2|, t)
    ensures IsMatrix(a, |t.1| + 1, |t.0|)
  {
    seq(|t.1| + 1, l requires 0 <= l <= |t.1| =>
      if l < |t.1| then SigmoidV(Hidden(input, t.0, t.1, l)) else Zeros(|t.0|))
  }

  /** The layer errors of the delta rule read the caches only in rows below
      |weights|. */
  lemma {:induction false} BackDeltaReadsComputedRows(dh1: seq<real>, weights: seq<seq<seq<real>>>,
                                                      h1: seq<seq<real>>, h2: seq<seq<real>>, t: nat)
    requires Layered(dh1, weights, h1) && Layered(dh1, weights, h2) && t <= |weights|
    requires forall l :: 0 <= l < |weights| ==> h1[l] == h2[l]
    ensures BackDelta(dh1, weights, h1, t) == BackDelta(dh1, weights, h2, t)
    decreases |weights| - t
  {
    if t < |weights| {
      BackDeltaReadsComputedRows(dh1, weights, h1, h2, t + 1);
    }
  }

  /** The delta rule reads the caches only in the rows the forward pass
      writes: two caches that agree there give the same new weights. */
  lemma DeltaRuleReadsComputedRows(nIn: nat, nOut: nat, layers: nat, n: nat, rate: real,
                                   expected: seq<real>, output: seq<real>, t: Tensors,
                                   h1: seq<seq<real>>, a1: seq<seq<real>>, h2: seq<seq<real>>, a2: seq<seq<real>>)
    requires NetShaped(nIn, nOut, layers, n, t.0, t.1, t.2, h1, a1)
    requires NetShaped(nIn, nOut, layers, n, t.0, t.1, t.2, h2, a2)
    requires |expected| == nOut && |output| == nOut
    requires forall l :: 0 <= l < layers - 1 ==> h1[l] == h2[l] && a1[l] == a2[l]
    ensures DeltaRuleWeights(nIn, nOut, layers, n, rate, expected, output, t, h1, a1)
         == DeltaRuleWeights(nIn, nOut, layers, n, rate, expected, output, t, h2, a2)
  {
    assert h1[layers - 2] == h2[layers - 2] && a1[layers - 2] == a2[layers - 2];
    var dh1 := FirstDelta(expected, output, t.2, h1);
    assert dh1 == FirstDelta(expected, output, t.2, h2);
    BackDeltaReadsComputedRows(dh1, t.1, h1, h2, 0);
    DeltaHiddenReadsComputedRows(t.1, rate, dh1, h1, a1, h2, a2);
  }

  /** The hidden update reads the caches only in rows below |weights|. */
  lemma DeltaHiddenReadsComputedRows(weights: seq<seq<seq<real>>>, rate: real, dh1: seq<real>,
                                     h1: seq<seq<real>>, a1: seq<seq<real>>, h2: seq<seq<real>>, a2: seq<seq<real>>)
    requires Layered(dh1, weights, h1) && Layered(dh1, weights, h2)
    requires |weights| <= |a1| && |weights| <= |a2|
    requires forall l :: 0 <= l < |weights| ==> |a1[l]| == |dh1| && h1[l] == h2[l] && a1[l] == a2[l]
    ensures DeltaHiddenWeights(weights, rate, dh1, h1, a1) == DeltaHiddenWeights(weights, rate, dh1, h2, a2)
  {
    forall l | 0 <= l < |weights|
      ensures DeltaHiddenWeights(weights, rate, dh1, h1, a1)[l] == DeltaHiddenWeights(weights, rate, dh1, h2, a2)[l]
    {
      BackDeltaReadsComputedRows(dh1, weights, h1, h2, l + 1);
    }
  }

  /** One training sample: the forward pass on `input`, then the delta rule
      with the error `expected - output`. */
  function SampleStep(rate: real, input: seq<real>, expected: seq<real>, t: Tensors): (r: Tensors)
    requires Fits(|input|, |expected|, t)
    ensures Fits(|input|, |expected|, r)
  {
    DeltaRuleKeepsShapes(|input|, |expected|, |input| + |expected|, |input| * |expected|, rate, expected,
                         NetOutput(input, t.0, t.1, t.2), t, ForwardHidden(input, t), ForwardActivations(input, t));
    DeltaRuleWeights(|input|, |expected|, |input| + |expected|, |input| * |expected|, rate, expected,
                     NetOutput(input, t.0, t.1, t.2), t, ForwardHidden(input, t), ForwardActivations(input, t))
  }

  /** The caches the forward pass leaves agree with `ForwardHidden` and
      `ForwardActivations` in every row the delta rule reads, so forward then
      the delta rule gives `SampleStep`'s weights whatever the caches held
      before. */
  lemma DeltaRuleAfterForward(rate: real, input: seq<real>, expected: seq<real>, t: Tensors,
                              hlayers: seq<seq<real>>, activations: seq<seq<real>>)
    requires Fits(|input|, |expected|, t)
    requires IsMatrix(hlayers, |input| + |expected|, |input| * |expected|)
    requires IsMatrix(activations, |input| + |expected|, |input| * |expected|)
    requires forall l {:trigger hlayers[l]} :: 0 <= l < |t.1| ==>
               hlayers[l] == Hidden(input, t.0, t.1, l) && activations[l] == SigmoidV(hlayers[l])
    ensures DeltaRuleWeights(|input|, |expected|, |input| + |expected|, |input| * |expected|, rate, expected,
                             NetOutput(input, t.0, t.1, t.2), t, hlayers, activations)
         == SampleStep(rate, input, expected, t)
  {
    var h, a := ForwardHidden(input, t), ForwardActivations(input, t);
    forall l | 0 <= l < |t.1|
      ensures hlayers[l] == h[l] && activations[l] == a[l]
    {
    }
    DeltaRuleReadsComputedRows(|input|, |expected|, |input| + |expected|, |input| * |expected|, rate, expected,
                               NetOutput(input, t.0, t.1, t.2), t, hlayers, activations, h, a);
  }

  // A network that already gives the expected output is a fixed point

  /** A step by an all-zero matrix leaves the weights as they are. */
  lemma NudgedByZeros(w: seq<seq<real>>, rate: real, d: seq<seq<real>>)
    requires |w| == |d| && (forall i :: 0 <= i < |w| ==> |w[i]| == |d[i]|) && AllZero2(d)
    ensures Nudged(w, rate, d) == w
  {
    var r := Nudged(w, rate, d);
    forall i | 0 <= i < |w|
      ensures r[i] == w[i]
    {
      forall j | 0 <= j < |w[i]|
        ensures r[i][j] == w[i][j]
      {
        assert d[i][j] == 0.0;
      }
    }
  }

  /** The outer product with a zero vector is zero. */
  lemma OuterOfZeros(u: seq<real>, v: seq<real>)
    requires AllZero(u) || AllZero(v)
    ensures AllZero2(Outer(u, v))
  {
    var m := Outer(u, v);
    forall i, j | 0 <= i < |u| && 0 <= j < |v|
      ensures m[i][j] == 0.0
    {
      assert m[i][j] == u[i] * v[j];
    }
  }

  /** Propagating a zero error gives a zero error. */
  lemma PropagateZeros(e: seq<real>, w: seq<seq<real>>, h: seq<real>)
    requires |e| <= |w| && (forall k :: 0 <= k < |e| ==> |h| <= |w[k]|) && AllZero(e)
    ensures AllZero(Propagate(e, w, h))
  {
    forall j | 0 <= j < |h|
      ensures Propagate(e, w, h)[j] == 0.0
    {
      ColDotOfZeros(e, w, j);
    }
  }

  /** From a zero `dh1`, every layer error is zero. */
  lemma {:induction false} BackDeltaOfZeros(dh1: seq<real>, weights: seq<seq<seq<real>>>, hlayers: seq<seq<real>>, t: nat)
    requires Layered(dh1, weights, hlayers) && t <= |weights| && AllZero(dh1)
    ensures AllZero(BackDelta(dh1, weights, hlayers, t))
    decreases |weights| - t
  {
    if t < |weights| {
      BackDeltaOfZeros(dh1, weights, hlayers, t + 1);
      PropagateZeros(BackDelta(dh1, weights, hlayers, t + 1), weights[t], hlayers[t]);
    }
  }

  /** The hidden weights do not move when the error reaching them is zero. */
  lemma DeltaHiddenAtZeroDelta(weights: seq<seq<seq<real>>>, rate: real, dh1: seq<real>,
                               hlayers: seq<seq<real>>, activations: seq<seq<real>>)
    requires Layered(dh1, weights, hlayers) && |weights| <= |activations| && AllZero(dh1)
    requires forall l :: 0 <= l < |weights| ==> |activations[l]| == |dh1|
    ensures DeltaHiddenWeights(weights, rate, dh1, hlayers, activations) == weights
  {
    var r := DeltaHiddenWeights(weights, rate, dh1, hlayers, activations);
    forall l | 0 <= l < |weights|
      ensures r[l] == weights[l]
    {
      LayerAtZeroDelta(weights, rate, dh1, hlayers, activations, l);
    }
  }

  /** One hidden matrix of `DeltaHiddenWeights` at a zero `dh1`. */
  lemma LayerAtZeroDelta(weights: seq<seq<seq<real>>>, rate: real, dh1: seq<real>,
                         hlayers: seq<seq<real>>, activations: seq<seq<real>>, l: nat)
    requires Layered(dh1, weights, hlayers) && |weights| <= |activations| && AllZero(dh1)
    requires forall l :: 0 <= l < |weights| ==> |activations[l]| == |dh1|
    requires l < |weights|
    ensures DeltaHiddenWeights(weights, rate, dh1, hlayers, activations)[l] == weights[l]
  {
    var d := BackDelta(dh1, weights, hlayers, l + 1);
    BackDeltaOfZeros(dh1, weights, hlayers, l + 1);
    OuterOfZeros(activations[l], d);
    assert IsMatrix(weights[l], |dh1|, |dh1|);
    NudgedByZeros(weights[l], rate, Outer(activations[l], d));
  }

  /** The input weights do not move when the error reaching them is zero. */
  lemma DeltaInputAtZeroDelta(iweights: seq<seq<real>>, rate: real, delta: seq<real>)
    requires |iweights| <= |delta| && AllZero(delta)
    ensures DeltaInputWeights(iweights, rate, delta) == iweights
  {
    var r := DeltaInputWeights(iweights, rate, delta);
    forall i | 0 <= i < |iweights|
      ensures r[i] == iweights[i]
    {
      assert delta[i] == 0.0;
    }
  }

  /** With no error (`output == expected`) the delta rule moves no weight. */
  lemma DeltaRuleAtZeroError(nIn: nat, nOut: nat, layers: nat, n: nat, rate: real,
                             expected: seq<real>, output: seq<real>, t: Tensors,
                             hlayers: seq<seq<real>>, activations: seq<seq<real>>)
    requires NetShaped(nIn, nOut, layers, n, t.0, t.1, t.2, hlayers, activations)
    requires |expected| == nOut && output == expected
    ensures DeltaRuleWeights(nIn, nOut, layers, n, rate, expected, output, t, hlayers, activations) == t
  {
    var e := Diff(expected, output);
    assert AllZero(e);
    var dh1 := FirstDelta(expected, output, t.2, hlayers);
    PropagateZeros(e, t.2, hlayers[layers - 2]);
    OuterOfZeros(e, activations[layers - 2]);
    NudgedByZeros(t.2, rate, Outer(e, activations[layers - 2]));
    DeltaHiddenAtZeroDelta(t.1, rate, dh1, hlayers, activations);
    BackDeltaOfZeros(dh1, t.1, hlayers, 0);
    DeltaInputAtZeroDelta(t.0, rate, BackDelta(dh1, t.1, hlayers, 0));
  }

  /** A sample whose input the network already maps to the expected output
      leaves the weights unchanged. */
  lemma SampleStepAtTarget(rate: real, input: seq<real>, expected: seq<real>, t: Tensors)
    requires Fits(|input|, |expected|, t) && NetOutput(input, t.0, t.1, t.2) == expected
    ensures SampleStep(rate, input, expected, t) == t
  {
    DeltaRuleAtZeroError(|input|, |expected|, |input| + |expected|, |input| * |expected|, rate, expected,
                         NetOutput(input, t.0, t.1, t.2), t, ForwardHidden(input, t), ForwardActivations(input, t));
  }

  // `train()`: rounds on one input

  /** The weights after `r` rounds of `train()` on a fixed input: each round
      is a forward pass and the delta rule. */
  function Rounds(r: nat, rate: real, input: seq<real>, expected: seq<real>, t: Tensors): (w: Tensors)
    requires Fits(|input|, |expected|, t)
    ensures Fits(|input|, |expected|, w)
  {
    if r == 0 then t else SampleStep(rate, input, expected, Rounds(r - 1, rate, input, expected, t))
  }

  /** The error `train()` records at the start of round `r`: the mean squared
      error of the output under the weights `r` rounds leave. */
  ghost function RoundError(r: nat, rate: real, input: seq<real>, expected: seq<real>, t: Tensors): real
    requires Fits(|input|, |expected|, t)
  {
    var w := Rounds(r, rate, input, expected, t);
    Errors.MeanSquaredError(expected, NetOutput(input, w.0, w.1, w.2))
  }

  /** Once the network gives the expected output, further rounds change
      nothing. */
  lemma {:induction false} RoundsAtTarget(r: nat, rate: real, input: seq<real>, expected: seq<real>, t: Tensors)
    requires Fits(|input|, |expected|, t) && NetOutput(input, t.0, t.1, t.2) == expected
    ensures Rounds(r, rate, input, expected, t) == t
  {
    if r > 0 {
      RoundsAtTarget(r - 1, rate, input, expected, t);
      var before := Rounds(r - 1, rate, input, expected, t);
      assert Rounds(r, rate, input, expected, t) == SampleStep(rate, input, expected, before);
      SampleStepAtTarget(rate, input, expected, t);
    }
  }

  /** Once the network gives the expected output, the error `train()`
      records stays zero. */
  lemma RoundErrorAtTarget(r: nat, rate: real, input: seq<real>, expected: seq<real>, t: Tensors)
    requires Fits(|input|, |expected|, t) && NetOutput(input, t.0, t.1, t.2) == expected
    ensures RoundError(r, rate, input, expected, t) == 0.0
  {
    RoundsAtTarget(r, rate, input, expected, t);
    var w := Rounds(r, rate, input, expected, t);
    assert NetOutput(input, w.0, w.1, w.2) == expected;
    Errors.MseOfSelf(expected);
    assert RoundError(r, rate, input, expected, t) == Errors.MeanSquaredError(expected, expected);
  }

  // `train(inputs)`: passes over rows

  /** A running total divided by the number of rows, as both `train(inputs)`
      and `rprop` average their errors; no negative average comes from a
      non-negative total. */
  function Average(total: real, count: nat): (a: real)
    requires count > 0
    ensures total >= 0.0 ==> a >= 0.0
  {
    assert total >= 0.0 ==> total / (count as real) >= 0.0 by {
      if total >= 0.0 { Errors.QuotientSign(total, count as real); }
    }
    total / (count as real)
  }

  /** `n` equal errors `x` summed from the left, as a pass of `rprop` sums
      its samples' errors when every sample has the same one. */
  function Repeated(n: nat, x: real): real
  {
    if n == 0 then 0.0 else Repeated(n - 1, x) + x
  }

  /** `n` equal errors sum to `n` times the error and average to the error. */
  lemma {:induction false} RepeatedAverage(n: nat, x: real)
    ensures Repeated(n, x) == (n as real) * x
    ensures n > 0 ==> Average(Repeated(n, x), n) == x
  {
    if n > 0 {
      RepeatedAverage(n - 1, x);
    }
  }

  /** Every row has `nIn` entries. */
  predicate RowsOf(rows: seq<seq<real>>, nIn: nat)
  {
    forall k :: 0 <= k < |rows| ==> |rows[k]| == nIn
  }

  /** The running total and the weights after the first `k` rows of one
      pass of `train(inputs)`, from `total` and `t`: each row adds its mean
      squared error under the weights the rows before it left, then takes
      its `SampleStep`. The total never drops: every error it adds is a
      mean of squares. */
  ghost function Pass(nIn: nat, rate: real, rows: seq<seq<real>>, k: nat, expected: seq<real>,
                      t: Tensors, total: real): (r: (real, Tensors))
    requires Fits(nIn, |expected|, t) && RowsOf(rows, nIn) && k <= |rows|
    ensures Fits(nIn, |expected|, r.1)
    ensures r.0 >= total
  {
    if k == 0 then (total, t)
    else
      var before := Pass(nIn, rate, rows, k - 1, expected, t, total);
      var w := before.1;
      Errors.MseNonneg(expected, NetOutput(rows[k - 1], w.0, w.1, w.2));
      (before.0 + Errors.MeanSquaredError(expected, NetOutput(rows[k - 1], w.0, w.1, w.2)),
       SampleStep(rate, rows[k - 1], expected, w))
  }

  /** Row `k` of a pass taken on its own: from the total `running` and the
      weights (iw, ww, ow) the rows before it leave, it adds its error and
      takes its `SampleStep`. */
  lemma PassNext(nIn: nat, rate: real, rows: seq<seq<real>>, k: nat, expected: seq<real>, t: Tensors, total: real,
                 running: real, iw: seq<seq<real>>, ww: seq<seq<seq<real>>>, ow: seq<seq<real>>)
    requires Fits(nIn, |expected|, t) && RowsOf(rows, nIn) && k < |rows|
    requires running == Pass(nIn, rate, rows, k, expected, t, total).0
    requires (iw, ww, ow) == Pass(nIn, rate, rows, k, expected, t, total).1
    ensures Pass(nIn, rate, rows, k + 1, expected, t, total).0
            == running + Errors.MeanSquaredError(expected, NetOutput(rows[k], iw, ww, ow))
    ensures Pass(nIn, rate, rows, k + 1, expected, t, total).1 == SampleStep(rate, rows[k], expected, (iw, ww, ow))
  {
  }

  /** The running total and the weights after `p` passes of `train(inputs)`
      from the total `total`: each pass adds its rows' errors to the total,
      which is never reset, and divides the sum by the number of rows. From
      a non-negative start the total stays non-negative. */
  ghost function Passes(p: nat, nIn: nat, rate: real, rows: seq<seq<real>>, expected: seq<real>,
                        t: Tensors, total: real): (r: (real, Tensors))
    requires Fits(nIn, |expected|, t) && RowsOf(rows, nIn) && |rows| > 0
    ensures Fits(nIn, |expected|, r.1)
    ensures total >= 0.0 ==> r.0 >= 0.0
  {
    if p == 0 then (total, t)
    else
      var before := Passes(p - 1, nIn, rate, rows, expected, t, total);
      var after := Pass(nIn, rate, rows, |rows|, expected, before.1, before.0);
      (Average(after.0, |rows|), after.1)
  }

  /** Pass `p + 1` taken on its own: from the total and the weights `p`
      passes leave, it runs the rows and divides the total by their number. */
  lemma PassesNext(p: nat, nIn: nat, rate: real, rows: seq<seq<real>>, expected: seq<real>,
                   t: Tensors, start: real)
    requires Fits(nIn, |expected|, t) && RowsOf(rows, nIn) && |rows| > 0
    ensures var before := Passes(p, nIn, rate, rows, expected, t, start);
            var after := Pass(nIn, rate, rows, |rows|, expected, before.1, before.0);
            Passes(p + 1, nIn, rate, rows, expected, t, start) == (Average(after.0, |rows|), after.1)
  {
  }

  // The C++ `rprop`: samples and epochs

  /** One sample of the C++ `rprop` on a one-input network: `SampleStep`,
      after which `backward` has cleared the caches and the output, then the
      sign rule on `oweights` with the gradients `expected ⊗ hlayers[0]` and
      on `iweights` with `hiddenError ⊗ input`, where `hlayers[0]` and
      `hiddenError` are zero. The result is the weights, the remembered
      gradients and the steps, which stay in [1e-6, 50]. */
  function RpropSampleStep(rate: real, input: seq<real>, expected: seq<real>, t: Tensors,
                           gradients: seq<seq<real>>, steps: seq<seq<real>>)
    : (r: (Tensors, seq<seq<real>>, seq<seq<real>>))
    requires Fits(|input|, |expected|, t) && |input| == 1
    requires IsMatrix(gradients, |expected|, |expected|) && IsMatrix(steps, |expected|, |expected|)
    ensures Fits(|input|, |expected|, r.0)
    ensures IsMatrix(r.1, |expected|, |expected|) && IsMatrix(r.2, |expected|, |expected|)
    ensures StepsInRange(steps) ==> StepsInRange(r.2)
  {
    RpropAfterDescent(input, expected, SampleStep(rate, input, expected, t), gradients, steps)
  }

  /** The sign rule of one C++ `rprop` sample on the weights `d` that
      forward and backward left, with the output and `hlayers[0]` zero. */
  function RpropAfterDescent(input: seq<real>, expected: seq<real>, d: Tensors,
                             gradients: seq<seq<real>>, steps: seq<seq<real>>)
    : (r: (Tensors, seq<seq<real>>, seq<seq<real>>))
    requires Fits(|input|, |expected|, d) && |input| == 1
    requires IsMatrix(gradients, |expected|, |expected|) && IsMatrix(steps, |expected|, |expected|)
    ensures Fits(|input|, |expected|, r.0)
    ensures IsMatrix(r.1, |expected|, |expected|) && IsMatrix(r.2, |expected|, |expected|)
    ensures StepsInRange(steps) ==> StepsInRange(r.2)
  {
    var n := |expected|;  // neurons = in * out = out
    var u := RpropSampleUpdate(Diff(expected, Zeros(n)), Zeros(n), Zeros(n), input, d.2, d.0, gradients, steps);
    assert StepsInRange(steps) ==> StepsInRange(u.3) by {
      if StepsInRange(steps) {
        RpropSampleKeepsSteps(Diff(expected, Zeros(n)), Zeros(n), Zeros(n), input, d.2, d.0, gradients, steps);
      }
    }
    ((u.1, d.1, u.0), u.2, u.3)
  }

  /** The first `k` rows of one pass of the C++ `rprop` from the weights
      `t` and the memories `gradients` and `steps`: one `RpropSampleStep`
      per row, the remembered gradients and steps carried from row to row.
      Steps in [1e-6, 50] stay there. */
  function RpropRows(k: nat, rate: real, rows: seq<seq<real>>, expected: seq<real>, t: Tensors,
                     gradients: seq<seq<real>>, steps: seq<seq<real>>)
    : (r: (Tensors, seq<seq<real>>, seq<seq<real>>))
    requires Fits(1, |expected|, t) && RowsOf(rows, 1) && k <= |rows|
    requires IsMatrix(gradients, |expected|, |expected|) && IsMatrix(steps, |expected|, |expected|)
    ensures Fits(1, |expected|, r.0)
    ensures IsMatrix(r.1, |expected|, |expected|) && IsMatrix(r.2, |expected|, |expected|)
    ensures StepsInRange(steps) ==> StepsInRange(r.2)
    decreases k, 0
  {
    if k == 0 then (t, gradients, steps)
    else RpropRowsThrough(k - 1, rate, rows, expected, t, gradients, steps)
  }

  /** The state after row `k` of that pass: `RpropSampleStep` on row `k`
      from where the rows before it left off. */
  function RpropRowsThrough(k: nat, rate: real, rows: seq<seq<real>>, expected: seq<real>, t: Tensors,
                            gradients: seq<seq<real>>, steps: seq<seq<real>>)
    : (r: (Tensors, seq<seq<real>>, seq<seq<real>>))
    requires Fits(1, |expected|, t) && RowsOf(rows, 1) && k < |rows|
    requires IsMatrix(gradients, |expected|, |expected|) && IsMatrix(steps, |expected|, |expected|)
    ensures Fits(1, |expected|, r.0)
    ensures IsMatrix(r.1, |expected|, |expected|) && IsMatrix(r.2, |expected|, |expected|)
    ensures StepsInRange(steps) ==> StepsInRange(r.2)
    decreases k, 1
  {
    var s := RpropRows(k, rate, rows, expected, t, gradients, steps);
    RpropSampleStep(rate, rows[k], expected, s.0, s.1, s.2)
  }

  /** One more row of a pass is one more `RpropSampleStep`. */
  lemma RpropRowsNext(k: nat, rate: real, rows: seq<seq<real>>, expected: seq<real>, t: Tensors,
                      gradients: seq<seq<real>>, steps: seq<seq<real>>)
    requires Fits(1, |expected|, t) && RowsOf(rows, 1) && k < |rows|
    requires IsMatrix(gradients, |expected|, |expected|) && IsMatrix(steps, |expected|, |expected|)
    ensures var s := RpropRows(k, rate, rows, expected, t, gradients, steps);
            RpropRows(k + 1, rate, rows, expected, t, gradients, steps)
            == RpropSampleStep(rate, rows[k], expected, s.0, s.1, s.2)
  {
  }

  /** `p` passes of the C++ `rprop` from the memories it starts with (zero
      remembered gradients and every step at deltaMin), the memories carried
      from pass to pass: however many passes run, every step stays in
      [1e-6, 50]. */
  function RpropRun(p: nat, rate: real, rows: seq<seq<real>>, expected: seq<real>, t: Tensors)
    : (r: (Tensors, seq<seq<real>>, seq<seq<real>>))
    requires Fits(1, |expected|, t) && RowsOf(rows, 1)
    ensures Fits(1, |expected|, r.0) && StepsInRange(r.2)
    ensures IsMatrix(r.1, |expected|, |expected|) && IsMatrix(r.2, |expected|, |expected|)
  {
    var n := |expected|;
    if p == 0 then
      ZeroShapes(n, n, 0);
      assert StepsInRange(Filled(n, n, DeltaMin));
      (t, ZeroMatrix(n, n), Filled(n, n, DeltaMin))
    else
      var before := RpropRun(p - 1, rate, rows, expected, t);
      RpropRows(|rows|, rate, rows, expected, before.0, before.1, before.2)
  }

  // The C `rprop`: epochs on one input

  /** One epoch of the C `rprop`: `SampleStep` (the C `backward` reads the
      caches `forward` has just written), then the sign rule on `oweights`
      with the caller's `gradients` and `goweights` as the remembered
      gradients. The result is the weights, `goweights` and the steps, which
      stay in [1e-6, 50]. */
  function CRpropEpoch(rate: real, input: seq<real>, expected: seq<real>, t: Tensors,
                       gradients: seq<seq<real>>, goweights: seq<seq<real>>, steps: seq<seq<real>>)
    : (r: (Tensors, seq<seq<real>>, seq<seq<real>>))
    requires Fits(|input|, |expected|, t)
    requires IsMatrix(gradients, |expected|, |input| * |expected|) && IsMatrix(goweights, |expected|, |input| * |expected|)
    requires IsMatrix(steps, |expected|, |input| * |expected|)
    ensures Fits(|input|, |expected|, r.0)
    ensures IsMatrix(r.1, |expected|, |input| * |expected|) && IsMatrix(r.2, |expected|, |input| * |expected|)
    ensures StepsInRange(steps) ==> StepsInRange(r.2)
  {
    var d := SampleStep(rate, input, expected, t);
    RpropMatrixOnMatrices(d.2, gradients, goweights, steps, |expected|, |input| * |expected|);
    var u := RpropMatrix(d.2, gradients, goweights, steps);
    FitsWithOutputWeights(|input|, |expected|, d, u.0);
    ((d.0, d.1, u.0), u.1, u.2)
  }

  /** Replacing the output weights by a matrix of their shape keeps the fit. */
  lemma FitsWithOutputWeights(nIn: nat, nOut: nat, t: Tensors, oweights: seq<seq<real>>)
    requires Fits(nIn, nOut, t) && IsMatrix(oweights, nOut, nIn * nOut)
    ensures Fits(nIn, nOut, (t.0, t.1, oweights))
  {
  }

  /** `k` epochs of the C `rprop` from the weights `t`, the remembered
      gradients `goweights` and the steps `steps`, the caller's `gradients`
      in every epoch: however many run, steps in [1e-6, 50] stay there. */
  function CRpropEpochs(k: nat, rate: real, input: seq<real>, expected: seq<real>, t: Tensors,
                        gradients: seq<seq<real>>, goweights: seq<seq<real>>, steps: seq<seq<real>>)
    : (r: (Tensors, seq<seq<real>>, seq<seq<real>>))
    requires Fits(|input|, |expected|, t)
    requires IsMatrix(gradients, |expected|, |input| * |expected|) && IsMatrix(goweights, |expected|, |input| * |expected|)
    requires IsMatrix(steps, |expected|, |input| * |expected|)
    ensures Fits(|input|, |expected|, r.0)
    ensures IsMatrix(r.1, |expected|, |input| * |expected|) && IsMatrix(r.2, |expected|, |input| * |expected|)
    ensures StepsInRange(steps) ==> StepsInRange(r.2)
    decreases k, 0
  {
    if k == 0 then (t, goweights, steps)
    else CRpropEpochsThrough(k - 1, rate, input, expected, t, gradients, goweights, steps)
  }

  /** The state after epoch `k`: `CRpropEpoch` from where the epochs before
      it left off. */
  function CRpropEpochsThrough(k: nat, rate: real, input: seq<real>, expected: seq<real>, t: Tensors,
                               gradients: seq<seq<real>>, goweights: seq<seq<real>>, steps: seq<seq<real>>)
    : (r: (Tensors, seq<seq<real>>, seq<seq<real>>))
    requires Fits(|input|, |expected|, t)
    requires IsMatrix(gradients, |expected|, |input| * |expected|) && IsMatrix(goweights, |expected|, |input| * |expected|)
    requires IsMatrix(steps, |expected|, |input| * |expected|)
    ensures Fits(|input|, |expected|, r.0)
    ensures IsMatrix(r.1, |expected|, |input| * |expected|) && IsMatrix(r.2, |expected|, |input| * |expected|)
    ensures StepsInRange(steps) ==> StepsInRange(r.2)
    decreases k, 1
  {
    var b := CRpropEpochs(k, rate, input, expected, t, gradients, goweights, steps);
    CRpropEpoch(rate, input, expected, b.0, gradients, b.1, b.2)
  }

  /** The mean squared error epoch `k` of the C `rprop` computes: that of
      the output under the weights the epochs before it left. */
  ghost function CRpropError(k: nat, rate: real, input: seq<real>, expected: seq<real>, t: Tensors,
                             gradients: seq<seq<real>>, goweights: seq<seq<real>>, steps: seq<seq<real>>): real
    requires Fits(|input|, |expected|, t)
    requires IsMatrix(gradients, |expected|, |input| * |expected|) && IsMatrix(goweights, |expected|, |input| * |expected|)
    requires IsMatrix(steps, |expected|, |input| * |expected|)
  {
    var w := CRpropEpochs(k, rate, input, expected, t, gradients, goweights, steps).0;
    Errors.MeanSquaredError(expected, NetOutput(input, w.0, w.1, w.2))
  }

  /** Epoch `k` of the C rprop missed the 0.01 test: its mean squared
      error, divided by the epoch count `e`, is at least 0.01. */
  ghost predicate CRpropMissed(k: nat, rate: real, input: seq<real>, expected: seq<real>, t: Tensors,
                               gradients: seq<seq<real>>, goweights: seq<seq<real>>, steps: seq<seq<real>>, e: real)
    requires e > 0.0 && Fits(|input|, |expected|, t)
    requires IsMatrix(gradients, |expected|, |input| * |expected|) && IsMatrix(goweights, |expected|, |input| * |expected|)
    requires IsMatrix(steps, |expected|, |input| * |expected|)
  {
    CRpropError(k, rate, input, expected, t, gradients, goweights, steps) / e >= 0.01
  }

  /** The epochs before epoch `n` all missed the 0.01 test when those
      before `n - 1` did and epoch `n - 1` did too. */
  lemma {:induction false} CRpropMissedNext(n: nat, rate: real, input: seq<real>, expected: seq<real>, t: Tensors,
                         gradients: seq<seq<real>>, goweights: seq<seq<real>>, steps: seq<seq<real>>, e: real)
    requires e > 0.0 && Fits(|input|, |expected|, t)
    requires IsMatrix(gradients, |expected|, |input| * |expected|) && IsMatrix(goweights, |expected|, |input| * |expected|)
    requires IsMatrix(steps, |expected|, |input| * |expected|)
    requires forall k :: 0 <= k < n - 1 ==> CRpropMissed(k, rate, input, expected, t, gradients, goweights, steps, e)
    requires n > 0 ==> CRpropMissed(n - 1, rate, input, expected, t, gradients, goweights, steps, e)
    ensures forall k :: 0 <= k < n ==> CRpropMissed(k, rate, input, expected, t, gradients, goweights, steps, e)
  {
  }

  /** Where the C rprop loop stands before epoch `k` when the last epoch did
      not pass the 0.01 test (`done` is false): the state `st` is that of
      `CRpropEpochs` after `k` epochs (the start when `k` is 0), and every
      epoch before `k` missed the test. */
  lemma CRpropResume(k: nat, done: bool, st: (Tensors, seq<seq<real>>, seq<seq<real>>), rate: real,
                     input: seq<real>, expected: seq<real>, t: Tensors,
                     gradients: seq<seq<real>>, goweights: seq<seq<real>>, steps: seq<seq<real>>, e: real)
    requires e > 0.0 && Fits(|input|, |expected|, t)
    requires IsMatrix(gradients, |expected|, |input| * |expected|) && IsMatrix(goweights, |expected|, |input| * |expected|)
    requires IsMatrix(steps, |expected|, |input| * |expected|)
    requires !done
    requires k == 0 ==> st == (t, goweights, steps)
    requires k > 0 ==> st == CRpropEpochs(k, rate, input, expected, t, gradients, goweights, steps)
    requires k > 0 ==> forall j :: 0 <= j < k - 1 ==> CRpropMissed(j, rate, input, expected, t, gradients, goweights, steps, e)
    requires k > 0 ==> done == (CRpropError(k - 1, rate, input, expected, t, gradients, goweights, steps) / e < 0.01)
    ensures st == CRpropEpochs(k, rate, input, expected, t, gradients, goweights, steps)
    ensures forall j :: 0 <= j < k ==> CRpropMissed(j, rate, input, expected, t, gradients, goweights, steps, e)
  {
    if k > 0 {
      assert CRpropMissed(k - 1, rate, input, expected, t, gradients, goweights, steps, e);
    }
    CRpropMissedNext(k, rate, input, expected, t, gradients, goweights, steps, e);
  }

  /** Epoch `k + 1` of the C rprop is one `CRpropEpoch` from the state `st`
      after `k`, and the error of epoch `k` is that of the weights in `st`. */
  lemma CRpropEpochsNext(k: nat, rate: real, input: seq<real>, expected: seq<real>, t: Tensors,
                         gradients: seq<seq<real>>, goweights: seq<seq<real>>, steps: seq<seq<real>>,
                         st: (Tensors, seq<seq<real>>, seq<seq<real>>))
    requires Fits(|input|, |expected|, t)
    requires IsMatrix(gradients, |expected|, |input| * |expected|) && IsMatrix(goweights, |expected|, |input| * |expected|)
    requires IsMatrix(steps, |expected|, |input| * |expected|)
    requires st == CRpropEpochs(k, rate, input, expected, t, gradients, goweights, steps)
    ensures CRpropEpochs(k + 1, rate, input, expected, t, gradients, goweights, steps)
            == CRpropEpoch(rate, input, expected, st.0, gradients, st.1, st.2)
    ensures CRpropError(k, rate, input, expected, t, gradients, goweights, steps)
            == Errors.MeanSquaredError(expected, NetOutput(input, st.0.0, st.0.1, st.0.2))
  {
  }
}

