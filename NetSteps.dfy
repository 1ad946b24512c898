/** The loops of the C++ `mlp` methods over whole networks, as methods on the
    values of the fields they read, each proved against the Propagation
    definition of what the method leaves behind. The class in MlpNet calls
    these and assigns the results to its fields. */
module NetSteps {
  import opened Numerics
  import opened Activations
  import opened Propagation
  import opened VectorLoops

  /** The hidden-layer loops of `forward` (libraries/mlp/forprop.cpp): rows
      0..|weights|-1 of the caches are recomputed, the last row is kept. */
  method ForwardLayers(input: seq<real>, iweights: seq<seq<real>>, weights: seq<seq<seq<real>>>,
                       hlayers: seq<seq<real>>, activations: seq<seq<real>>)
    returns (h: seq<seq<real>>, a: seq<seq<real>>)
    requires Wired(input, iweights, weights) && |weights| >= 1
    requires IsMatrix(hlayers, |weights| + 1, |iweights|) && IsMatrix(activations, |weights| + 1, |iweights|)
    ensures IsMatrix(h, |weights| + 1, |iweights|) && IsMatrix(a, |weights| + 1, |iweights|)
    ensures forall l {:trigger h[l]} :: 0 <= l < |weights| ==>
              h[l] == Hidden(input, iweights, weights, l) && a[l] == SigmoidV(h[l])
    ensures h[|weights|] == hlayers[|weights|] && a[|weights|] == activations[|weights|]
  {
    var h0, a0 := WeightedSigmoidInto(input, iweights, hlayers[0], activations[0]);
    h, a := hlayers[0 := h0], activations[0 := a0];
    for i := 1 to |weights|
      invariant IsMatrix(h, |weights| + 1, |iweights|) && IsMatrix(a, |weights| + 1, |iweights|)
      invariant forall l {:trigger h[l]} :: 0 <= l < i ==>
                  h[l] == Hidden(input, iweights, weights, l) && a[l] == SigmoidV(h[l])
      invariant forall l :: i <= l <= |weights| ==> h[l] == hlayers[l] && a[l] == activations[l]
    {
      ghost var below := Hidden(input, iweights, weights, i - 1);
      assert h[i - 1] == below;
      var hi, ai := WeightedSigmoidInto(a[i - 1], weights[i - 1], h[i], a[i]);
      assert hi == Hidden(input, iweights, weights, i);
      h, a := h[i := hi], a[i := ai];
    }
  }

  /** The whole of `forward`: the hidden layers below the last row of the
      caches, then the linear output layer into `output`. */
  method ForwardPass(input: seq<real>, iweights: seq<seq<real>>, weights: seq<seq<seq<real>>>,
                     oweights: seq<seq<real>>, hlayers: seq<seq<real>>, activations: seq<seq<real>>,
                     output: seq<real>)
    returns (h: seq<seq<real>>, a: seq<seq<real>>, o: seq<real>)
    requires Wired(input, iweights, weights) && |weights| >= 1
    requires IsMatrix(hlayers, |weights| + 1, |iweights|) && IsMatrix(activations, |weights| + 1, |iweights|)
    requires IsMatrix(oweights, |output|, |iweights|)
    ensures IsMatrix(h, |weights| + 1, |iweights|) && IsMatrix(a, |weights| + 1, |iweights|)
    ensures forall l {:trigger h[l]} :: 0 <= l < |weights| ==>
              h[l] == Hidden(input, iweights, weights, l) && a[l] == SigmoidV(h[l])
    ensures h[|weights|] == hlayers[|weights|] && a[|weights|] == activations[|weights|]
    ensures o == NetOutput(input, iweights, weights, oweights)
  {
    h, a := ForwardLayers(input, iweights, weights, hlayers, activations);
    assert h[|weights| - 1] == Hidden(input, iweights, weights, |weights| - 1);
    o := WeightedInto(a[|weights| - 1], oweights, output);
  }

  /** The layer loop of `backward`: from layer |weights|-1 down to 0, the update
      matrix of the layer and the error propagated below it. */
  method LayerDeltas(dh1: seq<real>, weights: seq<seq<seq<real>>>, hlayers: seq<seq<real>>, activations: seq<seq<real>>)
    returns (dweights: seq<seq<seq<real>>>, delta: seq<real>)
    requires Layered(dh1, weights, hlayers) && |weights| <= |activations|
    requires forall l :: 0 <= l < |weights| ==> |activations[l]| == |dh1|
    ensures |dweights| == |weights|
    ensures forall l {:trigger dweights[l]} :: 0 <= l < |weights| ==>
              dweights[l] == Outer(activations[l], BackDelta(dh1, weights, hlayers, l + 1))
    ensures delta == BackDelta(dh1, weights, hlayers, 0)
  {
    dweights := seq(|weights|, _ => []);
    delta := dh1;
    var t := |weights|;
    while t > 0
      invariant 0 <= t <= |weights| && |dweights| == |weights|
      invariant delta == BackDelta(dh1, weights, hlayers, t)
      invariant forall l {:trigger dweights[l]} :: t <= l < |weights| ==>
                  dweights[l] == Outer(activations[l], BackDelta(dh1, weights, hlayers, l + 1))
    {
      var i := t - 1;
      var d := OuterProduct(activations[i], delta);
      dweights := dweights[i := d];
      delta := PropagateInto(delta, weights[i], hlayers[i]);
      t := i;
    }
  }

  /** The update loop of `backward` over the hidden weights, from the last layer down. */
  method NudgeLayers(weights: seq<seq<seq<real>>>, rate: real, dweights: seq<seq<seq<real>>>)
    returns (r: seq<seq<seq<real>>>)
    requires |weights| == |dweights|
    requires forall l :: 0 <= l < |weights| ==>
               |weights[l]| == |dweights[l]| && forall i :: 0 <= i < |weights[l]| ==> |weights[l][i]| == |dweights[l][i]|
    ensures |r| == |weights| && forall l :: 0 <= l < |weights| ==> r[l] == Nudged(weights[l], rate, dweights[l])
  {
    r := weights;
    var t := |weights|;
    while t > 0
      invariant 0 <= t <= |weights| && |r| == |weights|
      invariant forall l :: 0 <= l < t ==> r[l] == weights[l]
      invariant forall l :: t <= l < |weights| ==> r[l] == Nudged(weights[l], rate, dweights[l])
    {
      var m := NudgeMatrix(r[t - 1], rate, dweights[t - 1]);
      r := r[t - 1 := m];
      t := t - 1;
    }
  }

  /** The weight updates of `backward` (the delta rule): the output error
      `expected - output`, `dh1` through the old `oweights`, the layer loop,
      and the three updates. */
  method DeltaRule(nIn: nat, nOut: nat, layers: nat, neurons: nat, rate: real,
                   expected: seq<real>, output: seq<real>,
                   iweights: seq<seq<real>>, weights: seq<seq<seq<real>>>, oweights: seq<seq<real>>,
                   hlayers: seq<seq<real>>, activations: seq<seq<real>>)
    returns (iweights': seq<seq<real>>, weights': seq<seq<seq<real>>>, oweights': seq<seq<real>>)
    requires NetShaped(nIn, nOut, layers, neurons, iweights, weights, oweights, hlayers, activations)
    requires |expected| == nOut && |output| == nOut
    ensures oweights' == DeltaOutputWeights(oweights, rate, expected, output, activations)
    ensures weights' == DeltaHiddenWeights(weights, rate, FirstDelta(expected, output, oweights, hlayers), hlayers, activations)
    ensures iweights' == DeltaInputWeights(iweights, rate,
                           BackDelta(FirstDelta(expected, output, oweights, hlayers), weights, hlayers, 0))
    ensures IsMatrix(iweights', neurons, nIn) && IsTensor(weights', layers - 1, neurons, neurons)
    ensures IsMatrix(oweights', nOut, neurons)
  {
    var error := Differences(expected, output);
    var ow := OuterProduct(error, activations[layers - 2]);
    var dh1 := PropagateInto(error, oweights, hlayers[layers - 2]);
    oweights' := NudgeMatrix(oweights, rate, ow);
    var delta;
    weights', delta := HiddenRule(dh1, rate, weights, hlayers, activations, neurons);
    iweights' := ShiftRows(iweights, rate, delta);
  }

  /** The hidden-layer half of the delta rule: every hidden weight matrix
      moved by its outer-product gradient, and the delta that reaches the
      first hidden layer. */
  method HiddenRule(dh1: seq<real>, rate: real, weights: seq<seq<seq<real>>>,
                    hlayers: seq<seq<real>>, activations: seq<seq<real>>, neurons: nat)
    returns (weights': seq<seq<seq<real>>>, delta: seq<real>)
    requires Layered(dh1, weights, hlayers) && |weights| <= |activations| && |dh1| == neurons
    requires forall l :: 0 <= l < |weights| ==> |activations[l]| == |dh1|
    requires IsTensor(weights, |weights|, neurons, neurons)
    ensures weights' == DeltaHiddenWeights(weights, rate, dh1, hlayers, activations)
    ensures IsTensor(weights', |weights|, neurons, neurons)
    ensures delta == BackDelta(dh1, weights, hlayers, 0)
  {
    var dweights;
    dweights, delta := LayerDeltas(dh1, weights, hlayers, activations);
    weights' := NudgeLayers(weights, rate, dweights);
    ghost var target := DeltaHiddenWeights(weights, rate, dh1, hlayers, activations);
    forall l | 0 <= l < |weights|
      ensures weights'[l] == target[l]
    {
      assert dweights[l] == Outer(activations[l], BackDelta(dh1, weights, hlayers, l + 1));
    }
  }

  /** The reset loop closing `backward`: every cache row filled with zeros. */
  method ClearCaches(hlayers: seq<seq<real>>, activations: seq<seq<real>>, rows: nat, cols: nat)
    returns (h: seq<seq<real>>, a: seq<seq<real>>)
    requires IsMatrix(hlayers, rows, cols) && IsMatrix(activations, rows, cols)
    ensures h == ZeroMatrix(rows, cols) && a == ZeroMatrix(rows, cols)
  {
    h, a := hlayers, activations;
    for i := 0 to rows
      invariant |h| == |a| == rows
      invariant forall k :: 0 <= k < i ==> h[k] == Zeros(cols) && a[k] == Zeros(cols)
      invariant forall k :: i <= k < rows ==> h[k] == hlayers[k] && a[k] == activations[k]
    {
      a := a[i := Zeros(|a[i]|)];
      h := h[i := Zeros(|h[i]|)];
    }
    assert forall k :: 0 <= k < rows ==> h[k] == ZeroMatrix(rows, cols)[k] && a[k] == ZeroMatrix(rows, cols)[k];
  }

  /** The whole of `backward`: the delta rule on the three weight tensors,
      then every cache row and the output reset to zero. */
  method BackwardPass(nIn: nat, nOut: nat, layers: nat, neurons: nat, rate: real,
                      expected: seq<real>, output: seq<real>,
                      iweights: seq<seq<real>>, weights: seq<seq<seq<real>>>, oweights: seq<seq<real>>,
                      hlayers: seq<seq<real>>, activations: seq<seq<real>>)
    returns (iweights': seq<seq<real>>, weights': seq<seq<seq<real>>>, oweights': seq<seq<real>>,
             hlayers': seq<seq<real>>, activations': seq<seq<real>>, output': seq<real>)
    requires NetShaped(nIn, nOut, layers, neurons, iweights, weights, oweights, hlayers, activations)
    requires |expected| == nOut && |output| == nOut
    ensures NetShaped(nIn, nOut, layers, neurons, iweights', weights', oweights', hlayers', activations')
    ensures oweights' == DeltaOutputWeights(oweights, rate, expected, output, activations)
    ensures weights' == DeltaHiddenWeights(weights, rate, FirstDelta(expected, output, oweights, hlayers), hlayers, activations)
    ensures iweights' == DeltaInputWeights(iweights, rate,
                           BackDelta(FirstDelta(expected, output, oweights, hlayers), weights, hlayers, 0))
    ensures hlayers' == ZeroMatrix(layers, neurons) && activations' == ZeroMatrix(layers, neurons)
    ensures AllZero(hlayers'[layers - 1]) && AllZero(activations'[layers - 1])
    ensures output' == Zeros(nOut)
  {
    iweights', weights', oweights' := DeltaRule(nIn, nOut, layers, neurons, rate, expected, output,
                                                iweights, weights, oweights, hlayers, activations);
    hlayers', activations' := ClearCaches(hlayers, activations, layers, neurons);
    output' := Zeros(nOut);
    ZeroShapes(layers, neurons, 0);
  }

  /** `backprop`: output error `output - expected`, output and input gradients
      from row layers-1 of `activations`, then each layer's gradient from the
      old `gweights` of that layer. */
  method GradientPath(nIn: nat, nOut: nat, layers: nat, n: nat,
                      input: seq<real>, output: seq<real>, expected: seq<real>,
                      weights: seq<seq<seq<real>>>, oweights: seq<seq<real>>,
                      activations: seq<seq<real>>, gweights: seq<seq<seq<real>>>)
    returns (giweights': seq<seq<real>>, gweights': seq<seq<seq<real>>>, goweights': seq<seq<real>>)
    requires |input| == nIn && |output| == nOut && |expected| == nOut && layers >= 1
    requires IsTensor(weights, layers - 1, n, n) && IsMatrix(oweights, nOut, n)
    requires IsMatrix(activations, layers, n) && IsTensor(gweights, layers - 1, n, n)
    ensures (giweights', gweights', goweights') == BackpropGradients(input, output, expected, oweights, weights, activations, gweights)
    ensures WeightShapes(nIn, nOut, layers, n, giweights', gweights', goweights')
  {
    ghost var target := BackpropGradients(input, output, expected, oweights, weights, activations, gweights);
    var top := activations[|weights|];
    var outputError := Differences(output, expected);
    goweights' := OuterProduct(outputError, top);
    var hiddenError := GatedInto(outputError, oweights, top);
    giweights' := OuterProduct(hiddenError, input);
    gweights' := gweights;
    var t := |weights|;
    while t > 0
      invariant 0 <= t <= |weights| && |gweights'| == |weights|
      invariant forall l :: 0 <= l < t ==> gweights'[l] == gweights[l]
      invariant forall l :: t <= l < |weights| ==> gweights'[l] == target.1[l]
    {
      var l := t - 1;
      var layerError := LayerErrorInto(weights[l], gweights'[l], activations[l]);
      var g := OuterProduct(layerError, activations[l]);
      gweights' := gweights'[l := g];
      t := l;
    }
    assert gweights' == target.1;
  }

  /** The three loops of `backwithL1` after `backprop`: hidden, input and output weights. */
  method L1Update(nIn: nat, nOut: nat, layers: nat, n: nat,
                  iweights: seq<seq<real>>, weights: seq<seq<seq<real>>>, oweights: seq<seq<real>>,
                  giweights: seq<seq<real>>, gweights: seq<seq<seq<real>>>, goweights: seq<seq<real>>, rate: real)
    returns (iweights': seq<seq<real>>, weights': seq<seq<seq<real>>>, oweights': seq<seq<real>>)
    requires WeightShapes(nIn, nOut, layers, n, iweights, weights, oweights)
    requires WeightShapes(nIn, nOut, layers, n, giweights, gweights, goweights)
    ensures WeightShapes(nIn, nOut, layers, n, iweights', weights', oweights')
    ensures weights' == L1Tensor(weights, gweights, rate)
    ensures iweights' == L1Matrix(iweights, giweights, rate) && oweights' == L1Matrix(oweights, goweights, rate)
  {
    weights' := weights;
    for l := 0 to |weights|
      invariant |weights'| == |weights|
      invariant forall k :: 0 <= k < l ==> weights'[k] == L1Matrix(weights[k], gweights[k], rate)
      invariant forall k :: l <= k < |weights| ==> weights'[k] == weights[k]
    {
      var m := L1MatrixLoop(weights'[l], gweights[l], rate);
      weights' := weights'[l := m];
    }
    assert forall k :: 0 <= k < |weights| ==> weights'[k] == L1Tensor(weights, gweights, rate)[k];
    iweights' := L1MatrixLoop(iweights, giweights, rate);
    oweights' := L1MatrixLoop(oweights, goweights, rate);
  }

  /** The three loops of `backwithL2` after `backprop`. */
  method L2Update(nIn: nat, nOut: nat, layers: nat, n: nat,
                  iweights: seq<seq<real>>, weights: seq<seq<seq<real>>>, oweights: seq<seq<real>>,
                  giweights: seq<seq<real>>, gweights: seq<seq<seq<real>>>, goweights: seq<seq<real>>, rate: real)
    returns (iweights': seq<seq<real>>, weights': seq<seq<seq<real>>>, oweights': seq<seq<real>>)
    requires WeightShapes(nIn, nOut, layers, n, iweights, weights, oweights)
    requires WeightShapes(nIn, nOut, layers, n, giweights, gweights, goweights)
    ensures WeightShapes(nIn, nOut, layers, n, iweights', weights', oweights')
    ensures weights' == L2Tensor(weights, gweights, rate)
    ensures iweights' == L2Matrix(iweights, giweights, rate) && oweights' == L2Matrix(oweights, goweights, rate)
  {
    weights' := weights;
    for l := 0 to |weights|
      invariant |weights'| == |weights|
      invariant forall k :: 0 <= k < l ==> weights'[k] == L2Matrix(weights[k], gweights[k], rate)
      invariant forall k :: l <= k < |weights| ==> weights'[k] == weights[k]
    {
      var m := L2MatrixLoop(weights'[l], gweights[l], rate);
      weights' := weights'[l := m];
    }
    assert forall k :: 0 <= k < |weights| ==> weights'[k] == L2Tensor(weights, gweights, rate)[k];
    iweights' := L2MatrixLoop(iweights, giweights, rate);
    oweights' := L2MatrixLoop(oweights, goweights, rate);
  }

  /** The error loop of one `rprop` sample: `outputError[i] = expected[i] -
      output[i]` and the sum of their squares. */
  method SampleError(expected: seq<real>, output: seq<real>) returns (outputError: seq<real>, error: real)
    requires |expected| == |output|
    ensures outputError == Diff(expected, output) && error == SquaredError(expected, output)
  {
    outputError := Zeros(|expected|);
    error := 0.0;
    for i := 0 to |expected|
      invariant |outputError| == |expected|
      invariant forall k :: 0 <= k < i ==> outputError[k] == expected[k] - output[k]
      invariant error == SumMap(Diff(expected, output)[..i], Square)
    {
      SumMapStep(Diff(expected, output), Square, i);
      outputError := outputError[i := expected[i] - output[i]];
      error := error + Square(expected[i] - output[i]);
    }
    assert Diff(expected, output)[..|expected|] == Diff(expected, output);
  }

  /** The two update loops of one `rprop` sample. The first runs the sign rule
      over `oweights` with gradient `outputError[i] * hlayer0[j]`; the second
      over `iweights` with gradient `hiddenError[i] * input[j]`, sharing the
      top-left |iweights|×|input| block of the remembered gradients and steps
      the first loop left. */
  method RpropSample(outputError: seq<real>, hiddenError: seq<real>, hlayer0: seq<real>, input: seq<real>,
                     oweights: seq<seq<real>>, iweights: seq<seq<real>>,
                     gradients: seq<seq<real>>, deltaWeights: seq<seq<real>>)
    returns (oweights': seq<seq<real>>, iweights': seq<seq<real>>,
             gradients': seq<seq<real>>, deltaWeights': seq<seq<real>>)
    requires |outputError| == |oweights| && IsMatrix(oweights, |oweights|, |hlayer0|)
    requires IsMatrix(gradients, |oweights|, |hlayer0|) && IsMatrix(deltaWeights, |oweights|, |hlayer0|)
    requires |hiddenError| == |iweights| <= |oweights| && IsMatrix(iweights, |iweights|, |input|) && |input| <= |hlayer0|
    ensures (oweights', iweights', gradients', deltaWeights')
            == RpropSampleUpdate(outputError, hiddenError, hlayer0, input, oweights, iweights, gradients, deltaWeights)
    ensures IsMatrix(oweights', |oweights|, |hlayer0|) && IsMatrix(iweights', |iweights|, |input|)
    ensures IsMatrix(gradients', |oweights|, |hlayer0|) && IsMatrix(deltaWeights', |oweights|, |hlayer0|)
  {
    var g1 := OuterProduct(outputError, hlayer0);
    oweights', gradients', deltaWeights' := RpropMatrixLoop(oweights, g1, gradients, deltaWeights);
    var g2 := OuterProduct(hiddenError, input);
    var m2, s2;
    iweights', m2, s2 := RpropMatrixLoop(iweights, g2, Block(gradients', |iweights|, |input|),
                                         Block(deltaWeights', |iweights|, |input|));
    gradients' := WithBlock(gradients', m2);
    deltaWeights' := WithBlock(deltaWeights', s2);
  }

}
