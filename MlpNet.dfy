/** The C++ network: class `mlp` (libraries/mlp/include/mlp.hpp) with its
    constructors, forward pass, delta rule, gradient path, regularised
    updates, rprop, penalties, training loops and the validation and test
    set-up. Each method runs the loops of VectorLoops in the order the source
    runs them and is proved against the value-level definitions of
    Propagation. */
module MlpNet {
  import opened Numerics
  import opened Activations
  import opened Outcomes
  import opened Propagation
  import opened VectorLoops
  import opened NetSteps
  import opened Training
  import Errors

  const SizeMismatch := "-_-SIZE OF OUTPUT AND EXPECTED SHOULD MATCH-_-"

  /** The error rprop sees for every sample: `backward` has just reset
      `output` to zero, so it is the mean squared error of `expected`
      against zero. */
  ghost function IdleError(expected: seq<real>): real
    requires |expected| > 0
  {
    Errors.MeanSquaredError(expected, Zeros(|expected|))
  }

  class Mlp {
    var nIn: nat
    var nOut: nat
    var layers: nat
    var neurons: nat
    var epochs: nat
    var mse: real
    var learning: real
    var status: bool
    var input: seq<real>
    var output: seq<real>
    var expected: seq<real>
    var weights: seq<seq<seq<real>>>
    var iweights: seq<seq<real>>
    var oweights: seq<seq<real>>
    var hlayers: seq<seq<real>>
    var activations: seq<seq<real>>
    var gweights: seq<seq<seq<real>>>
    var giweights: seq<seq<real>>
    var goweights: seq<seq<real>>

    /** The sizing rule of both constructors and the shapes every method keeps:
        `layers = in + out`, `neurons = in * out`, weights and gradients of
        matching shapes, caches of `layers` rows. */
    ghost predicate Valid()
      reads this
    {
      nIn >= 1 && nOut >= 1 && layers == nIn + nOut && neurons == nIn * nOut
      && |input| == nIn && |output| == nOut && |expected| == nOut
      && NetShaped(nIn, nOut, layers, neurons, iweights, weights, oweights, hlayers, activations)
      && WeightShapes(nIn, nOut, layers, neurons, giweights, gweights, goweights)
    }

    /** Row layers-1 of both caches is zero: the constructors leave it so, the
        forward pass never writes it and the delta rule writes only zeros. */
    ghost predicate TopRowClear()
      reads this
      requires Valid()
    {
      AllZero(hlayers[layers - 1]) && AllZero(activations[layers - 1])
    }

    /** The state in which `backprop` can only produce zero gradients. */
    ghost predicate Quiet()
      reads this
      requires Valid()
    {
      TopRowClear() && AllZero3(gweights)
    }

    /** Everything but the weights, gradients and caches: the counts, the
        training settings and state, and the data vectors. */
    ghost function Settings(): (nat, nat, nat, nat, real, nat, real, bool, seq<real>, seq<real>)
      reads this
    {
      (nIn, nOut, layers, neurons, learning, epochs, mse, status, input, expected)
    }

    /** The sizes and the learning rate, which no method changes. */
    ghost function Sizes(): (nat, nat, nat, nat, real)
      reads this
    {
      (nIn, nOut, layers, neurons, learning)
    }

    ghost function Weights(): (seq<seq<real>>, seq<seq<seq<real>>>, seq<seq<real>>)
      reads this
    {
      (iweights, weights, oweights)
    }

    /** The weights as the tensors of Training, which `Valid` shapes as
        `Fits` asks. */
    ghost function Net(): (t: Tensors)
      reads this
      requires Valid()
      ensures t == Weights() && Fits(nIn, nOut, t)
    {
      Weights()
    }

    ghost function Gradients(): (seq<seq<real>>, seq<seq<seq<real>>>, seq<seq<real>>)
      reads this
    {
      (giweights, gweights, goweights)
    }

    ghost function Caches(): (seq<seq<real>>, seq<seq<real>>, seq<real>)
      reads this
    {
      (hlayers, activations, output)
    }

    /** `mlp(in, out, epochs, learning)`: zero vectors, zero tensors of the
        sizing rule, then `initializeWeights`. The source leaves `mse` and
        `status` uninitialised; so does the model. */
    constructor (nIn: nat, nOut: nat, epochs: nat, learning: real,
                 iw: seq<seq<real>>, w: seq<seq<seq<real>>>, ow: seq<seq<real>>)
      requires nIn >= 1 && nOut >= 1 && WeightShapes(nIn, nOut, nIn + nOut, nIn * nOut, iw, w, ow)
      ensures Valid() && Quiet()
      ensures this.nIn == nIn && this.nOut == nOut && layers == nIn + nOut && neurons == nIn * nOut
      ensures this.epochs == epochs && this.learning == learning
      ensures input == Zeros(nIn) && output == Zeros(nOut) && expected == Zeros(nOut)
      ensures hlayers == ZeroMatrix(nIn + nOut, nIn * nOut) && activations == ZeroMatrix(nIn + nOut, nIn * nOut)
      ensures Gradients() == (ZeroMatrix(nIn * nOut, nIn), ZeroTensor(nIn + nOut - 1, nIn * nOut, nIn * nOut),
                              ZeroMatrix(nOut, nIn * nOut))
      ensures Weights() == (iw, w, ow)
    {
      var n := nIn * nOut;
      this.nIn := nIn;
      this.nOut := nOut;
      layers := nIn + nOut;
      neurons := n;
      this.epochs := epochs;
      this.learning := learning;
      input := Zeros(nIn);
      output := Zeros(nOut);
      expected := Zeros(nOut);
      iweights := ZeroMatrix(n, nIn);
      oweights := ZeroMatrix(nOut, n);
      weights := ZeroTensor(nIn + nOut - 1, n, n);
      hlayers := ZeroMatrix(nIn + nOut, n);
      activations := ZeroMatrix(nIn + nOut, n);
      giweights := ZeroMatrix(n, nIn);
      goweights := ZeroMatrix(nOut, n);
      gweights := ZeroTensor(nIn + nOut - 1, n, n);
      new;
      ZeroShapes(nIn + nOut - 1, n, n);
      ZeroShapes(nIn + nOut, n, nIn);
      ZeroShapes(nOut, n, n);
      InitializeWeights(iw, w, ow);
    }

    /** `mlp(input, expected, output, epochs, learning)` past its size check:
        the vectors are stored as given and the counts derived from them. */
    constructor WithData(input: seq<real>, expected: seq<real>, output: seq<real>, epochs: nat, learning: real,
                         iw: seq<seq<real>>, w: seq<seq<seq<real>>>, ow: seq<seq<real>>)
      requires |expected| == |output| && |input| >= 1 && |output| >= 1 && WeightShapes(|input|, |output|, |input| + |output|, |input| * |output|, iw, w, ow)
      ensures Valid() && Quiet()
      ensures nIn == |input| && nOut == |output| && layers == nIn + nOut && neurons == nIn * nOut
      ensures this.input == input && this.expected == expected && this.output == output
      ensures this.epochs == epochs && this.learning == learning
      ensures hlayers == ZeroMatrix(nIn + nOut, nIn * nOut) && activations == ZeroMatrix(nIn + nOut, nIn * nOut)
      ensures Gradients() == (ZeroMatrix(nIn * nOut, nIn), ZeroTensor(nIn + nOut - 1, nIn * nOut, nIn * nOut),
                              ZeroMatrix(nOut, nIn * nOut))
      ensures Weights() == (iw, w, ow)
    {
      var nIn := |input|;
      var nOut := |output|;
      var n := nIn * nOut;
      this.input := input;
      this.expected := expected;
      this.output := output;
      this.nIn := nIn;
      this.nOut := nOut;
      layers := nIn + nOut;
      neurons := n;
      this.epochs := epochs;
      this.learning := learning;
      iweights := ZeroMatrix(n, nIn);
      oweights := ZeroMatrix(nOut, n);
      weights := ZeroTensor(nIn + nOut - 1, n, n);
      hlayers := ZeroMatrix(nIn + nOut, n);
      activations := ZeroMatrix(nIn + nOut, n);
      giweights := ZeroMatrix(n, nIn);
      goweights := ZeroMatrix(nOut, n);
      gweights := ZeroTensor(nIn + nOut - 1, n, n);
      new;
      ZeroShapes(nIn + nOut - 1, n, n);
      ZeroShapes(nIn + nOut, n, nIn);
      ZeroShapes(nOut, n, n);
      InitializeWeights(iw, w, ow);
    }

    /** `mlp(input, expected, output, epochs, learning)` with its size check:
        the `std::runtime_error` when `expected` and `output` differ in
        length, the network `WithData` builds otherwise. */
    static method Create(input: seq<real>, expected: seq<real>, output: seq<real>, epochs: nat, learning: real,
                         iw: seq<seq<real>>, w: seq<seq<seq<real>>>, ow: seq<seq<real>>)
      returns (r: Result<Mlp>)
      requires |input| >= 1 && |output| >= 1
      requires |expected| == |output| ==> WeightShapes(|input|, |output|, |input| + |output|, |input| * |output|, iw, w, ow)
      ensures r.Fail? <==> |expected| != |output|
      ensures r.Fail? ==> r.error == RuntimeError(SizeMismatch)
      ensures r.Ok? ==> fresh(r.value) && r.value.Valid() && r.value.Quiet()
      ensures r.Ok? ==> r.value.input == input && r.value.expected == expected && r.value.output == output
      ensures r.Ok? ==> r.value.epochs == epochs && r.value.learning == learning && r.value.Weights() == (iw, w, ow)
    {
      if |expected| != |output| {
        return Fail(RuntimeError(SizeMismatch));
      }
      var net := new Mlp.WithData(input, expected, output, epochs, learning, iw, w, ow);
      return Ok(net);
    }

    /** `initializeWeights`: new values for the three weight tensors and
        nothing else; the values the random generator draws are the
        parameters. */
    method InitializeWeights(iw: seq<seq<real>>, w: seq<seq<seq<real>>>, ow: seq<seq<real>>)
      modifies this
      requires Valid() && WeightShapes(nIn, nOut, layers, neurons, iw, w, ow)
      ensures Valid() && Weights() == (iw, w, ow)
      ensures Settings() == old(Settings()) && Caches() == old(Caches()) && Gradients() == old(Gradients())
    {
      StoreWeights(iw, w, ow);
    }

    // Writing back the results of the value-level passes of NetSteps

    method StoreWeights(iw: seq<seq<real>>, w: seq<seq<seq<real>>>, ow: seq<seq<real>>)
      modifies this
      requires Valid() && WeightShapes(nIn, nOut, layers, neurons, iw, w, ow)
      ensures Valid() && Weights() == (iw, w, ow)
      ensures Settings() == old(Settings()) && Caches() == old(Caches()) && Gradients() == old(Gradients())
    {
      iweights, weights, oweights := iw, w, ow;
    }

    method StoreInput(row: seq<real>)
      modifies this
      requires Valid() && |row| == nIn
      ensures Valid() && input == row
      ensures Sizes() == old(Sizes()) && (epochs, mse, status, expected) == old((epochs, mse, status, expected))
      ensures Weights() == old(Weights()) && Caches() == old(Caches()) && Gradients() == old(Gradients())
    {
      input := row;
    }

    method StoreExpected(target: seq<real>)
      modifies this
      requires Valid() && |target| == nOut
      ensures Valid() && expected == target
      ensures Sizes() == old(Sizes()) && (epochs, mse, status, input) == old((epochs, mse, status, input))
      ensures Weights() == old(Weights()) && Caches() == old(Caches()) && Gradients() == old(Gradients())
    {
      expected := target;
    }

    method StoreCaches(h: seq<seq<real>>, a: seq<seq<real>>, o: seq<real>)
      modifies this
      requires Valid() && IsMatrix(h, layers, neurons) && IsMatrix(a, layers, neurons) && |o| == nOut
      ensures Valid() && Caches() == (h, a, o)
      ensures Settings() == old(Settings()) && Weights() == old(Weights()) && Gradients() == old(Gradients())
    {
      hlayers, activations, output := h, a, o;
    }

    method StoreGradients(gi: seq<seq<real>>, gw: seq<seq<seq<real>>>, go: seq<seq<real>>)
      modifies this
      requires Valid() && WeightShapes(nIn, nOut, layers, neurons, gi, gw, go)
      ensures Valid() && Gradients() == (gi, gw, go)
      ensures Settings() == old(Settings()) && Weights() == old(Weights()) && Caches() == old(Caches())
    {
      giweights, gweights, goweights := gi, gw, go;
    }

    /** `forward`: rows 0..layers-2 of the caches hold the weighted sums and
        their sigmoids, `output` the linear output layer; row layers-1, the
        weights, the gradients and the data are left alone. */
    method Forward()
      modifies this
      requires Valid()
      ensures Valid()
      ensures forall l {:trigger hlayers[l]} :: 0 <= l < layers - 1 ==>
                hlayers[l] == Hidden(input, iweights, weights, l) && activations[l] == SigmoidV(hlayers[l])
      ensures hlayers[layers - 1] == old(hlayers[layers - 1]) && activations[layers - 1] == old(activations[layers - 1])
      ensures output == NetOutput(input, iweights, weights, oweights)
      ensures Settings() == old(Settings())
      ensures Weights() == old(Weights()) && Gradients() == old(Gradients()) && (old(Quiet()) ==> Quiet())
    {
      assert |weights| == layers - 1;
      var h, a, o := ForwardPass(input, iweights, weights, oweights, hlayers, activations, output);
      StoreCaches(h, a, o);
    }

    /** Every cache row and `output` zero, as `backward` leaves them. */
    ghost predicate Cleared()
      reads this
    {
      hlayers == ZeroMatrix(layers, neurons) && activations == ZeroMatrix(layers, neurons) && output == Zeros(nOut)
    }

    /** `dh1` of the delta rule in the current state. */
    ghost function Dh1(): seq<real>
      reads this
      requires Valid()
    {
      FirstDelta(expected, output, oweights, hlayers)
    }

    /** `backward`: the delta rule applied to all three weight tensors with the
        error `expected - output` and the caches of the last forward pass,
        then every cache row and `output` reset to zero. */
    method Backward()
      modifies this
      requires Valid()
      ensures Valid() && TopRowClear()
      ensures oweights == DeltaOutputWeights(old(oweights), learning, old(expected), old(output), old(activations))
      ensures weights == DeltaHiddenWeights(old(weights), learning, old(Dh1()), old(hlayers), old(activations))
      ensures iweights == DeltaInputWeights(old(iweights), learning, BackDelta(old(Dh1()), old(weights), old(hlayers), 0))
      ensures Weights() == old(DeltaRuleWeights(nIn, nOut, layers, neurons, learning, expected, output,
                                                Weights(), hlayers, activations))
      ensures hlayers == ZeroMatrix(layers, neurons) && activations == ZeroMatrix(layers, neurons)
      ensures output == Zeros(nOut)
      ensures Settings() == old(Settings()) && Gradients() == old(Gradients())
    {
      var iw, w, ow, h, a, o := BackwardPass(nIn, nOut, layers, neurons, learning, expected, output,
                                             iweights, weights, oweights, hlayers, activations);
      StoreWeights(iw, w, ow);
      StoreCaches(h, a, o);
    }

    /** `backprop`: the three gradient tensors, from the output error
        `output - expected` and row layers-1 of `activations`; nothing else
        changes. In the state every constructor leaves and every method keeps
        (row layers-1 clear, `gweights` zero), all gradients come out zero. */
    method Backprop()
      modifies this
      requires Valid()
      ensures Valid()
      ensures Gradients() == old(BackpropGradients(input, output, expected, oweights, weights, activations, gweights))
      ensures old(Quiet()) ==> Quiet() && AllZero2(giweights) && AllZero2(goweights)
      ensures Settings() == old(Settings())
      ensures Weights() == old(Weights()) && Caches() == old(Caches())
    {
      if Quiet() {
        BackpropVanishes(input, output, expected, oweights, weights, activations, gweights);
      }
      var gi, gw, go := GradientPath(nIn, nOut, layers, neurons, input, output, expected,
                                     weights, oweights, activations, gweights);
      StoreGradients(gi, gw, go);
    }

    /** `backwithL1`: `backprop`, then the L1 step on every weight of the three
        tensors with the new gradients. The penalty and loss it computes are
        only printed. */
    method BackwithL1()
      modifies this
      requires Valid()
      ensures Valid()
      ensures Gradients() == old(BackpropGradients(input, output, expected, oweights, weights, activations, gweights))
      ensures weights == L1Tensor(old(weights), gweights, learning)
      ensures iweights == L1Matrix(old(iweights), giweights, learning)
      ensures oweights == L1Matrix(old(oweights), goweights, learning)
      ensures old(Quiet()) ==> Quiet()
      ensures Settings() == old(Settings()) && Caches() == old(Caches())
    {
      Backprop();
      var iw, w, ow := L1Update(nIn, nOut, layers, neurons, iweights, weights, oweights,
                                giweights, gweights, goweights, learning);
      StoreWeights(iw, w, ow);
    }

    /** `backwithL2`: `backprop`, then the L2 step on every weight. From the
        state the constructors leave, the gradients stay zero, so that by
        `L2TensorIsDecay` the step is pure decay of every inter-hidden weight
        by the factor 1 - learning·λ. */
    method BackwithL2()
      modifies this
      requires Valid()
      ensures Valid()
      ensures Gradients() == old(BackpropGradients(input, output, expected, oweights, weights, activations, gweights))
      ensures weights == L2Tensor(old(weights), gweights, learning)
      ensures iweights == L2Matrix(old(iweights), giweights, learning)
      ensures oweights == L2Matrix(old(oweights), goweights, learning)
      ensures old(Quiet()) ==> Quiet()
      ensures Settings() == old(Settings()) && Caches() == old(Caches())
    {
      Backprop();
      var iw, w, ow := L2Update(nIn, nOut, layers, neurons, iweights, weights, oweights,
                                giweights, gweights, goweights, learning);
      StoreWeights(iw, w, ow);
    }

    /** The weight update of one rprop sample, after `forward` and `backward`:
        the output error `expected - output` gives the `oweights` gradients
        against row 0 of `hlayers`; the never-written `hiddenError` (zero)
        gives the `iweights` gradients, which reuse the top-left in×neurons
        block of the same `gradients` and `deltaWeights` memories. Only
        defined for one input: with more, the `iweights` loop indexes
        `gradients` past its `out` rows. */
    method RpropUpdate(gradients: seq<seq<real>>, deltaWeights: seq<seq<real>>)
      returns (error: real, gradients': seq<seq<real>>, deltaWeights': seq<seq<real>>)
      modifies this
      requires Valid() && nIn == 1
      requires IsMatrix(gradients, nOut, neurons) && IsMatrix(deltaWeights, nOut, neurons)
      ensures Valid() && Settings() == old(Settings()) && weights == old(weights)
      ensures Caches() == old(Caches()) && Gradients() == old(Gradients())
      ensures error == Errors.MeanSquaredError(expected, output)
      ensures (oweights, iweights, gradients', deltaWeights')
              == RpropSampleUpdate(Diff(expected, output), Zeros(neurons), hlayers[0], input,
                                   old(oweights), old(iweights), gradients, deltaWeights)
      ensures AllZero(hlayers[0]) && AllZero2(gradients) ==> AllZero2(gradients') && deltaWeights' == deltaWeights
      ensures IsMatrix(gradients', nOut, neurons) && IsMatrix(deltaWeights', nOut, neurons)
    {
      var outputError, sum := SampleError(expected, output);
      error := sum / (nOut as real);
      var hiddenError := Zeros(neurons);
      ZeroShapes(neurons, 0, 0);
      var ow, iw;
      ow, iw, gradients', deltaWeights' :=
        RpropSample(outputError, hiddenError, hlayers[0], input, oweights, iweights, gradients, deltaWeights);
      if AllZero(hlayers[0]) && AllZero2(gradients) {
        RpropSampleWithoutGradient(outputError, hiddenError, hlayers[0], input, oweights, iweights,
                                   gradients, deltaWeights);
      }
      StoreWeights(iw, weights, ow);
    }

    /** One sample of `rprop`: the row becomes `input`, then `forward`,
        `backward` and the rprop weight update, as `RpropSampleStep` says.
        `backward` leaves the caches and `output` at zero, so the sample's
        error is `IdleError(expected)` and, while the remembered gradients are zero,
        they stay zero and the steps stay as they are. */
    method RpropStep(row: seq<real>, gradients: seq<seq<real>>, deltaWeights: seq<seq<real>>)
      returns (error: real, gradients': seq<seq<real>>, deltaWeights': seq<seq<real>>)
      modifies this
      requires Valid() && nIn == 1 && |row| == nIn
      requires IsMatrix(gradients, nOut, neurons) && IsMatrix(deltaWeights, nOut, neurons)
      ensures Valid() && input == row && Cleared()
      ensures (Sizes(), epochs, mse, status, expected, Gradients())
              == old((Sizes(), epochs, mse, status, expected, Gradients()))
      ensures old(Quiet()) ==> Quiet()
      ensures error == IdleError(expected)
      ensures (Weights(), gradients', deltaWeights')
              == RpropSampleStep(learning, row, expected, old(Net()), gradients, deltaWeights)
      ensures StepsInRange(deltaWeights) ==> StepsInRange(deltaWeights')
      ensures AllZero2(gradients) ==> AllZero2(gradients') && deltaWeights' == deltaWeights
      ensures IsMatrix(gradients', nOut, neurons) && IsMatrix(deltaWeights', nOut, neurons)
    {
      StoreInput(row);
      Forward();
      Descend();
      error, gradients', deltaWeights' := RpropDescended(gradients, deltaWeights);
    }

    /** The rprop update of a sample once forward and backward have run:
        what `RpropAfterDescent` says. */
    method RpropDescended(gradients: seq<seq<real>>, deltaWeights: seq<seq<real>>)
      returns (error: real, gradients': seq<seq<real>>, deltaWeights': seq<seq<real>>)
      modifies this
      requires Valid() && nIn == 1 && Cleared() && TopRowClear()
      requires IsMatrix(gradients, nOut, neurons) && IsMatrix(deltaWeights, nOut, neurons)
      ensures Valid() && Cleared() && TopRowClear()
      ensures (Sizes(), epochs, mse, status, input, expected, Gradients())
              == old((Sizes(), epochs, mse, status, input, expected, Gradients()))
      ensures error == IdleError(expected)
      ensures Weights() == RpropAfterDescent(input, expected, old(Net()), gradients, deltaWeights).0
      ensures gradients' == RpropAfterDescent(input, expected, old(Net()), gradients, deltaWeights).1
      ensures deltaWeights' == RpropAfterDescent(input, expected, old(Net()), gradients, deltaWeights).2
      ensures StepsInRange(deltaWeights) ==> StepsInRange(deltaWeights')
      ensures AllZero2(gradients) ==> AllZero2(gradients') && deltaWeights' == deltaWeights
      ensures IsMatrix(gradients', nOut, neurons) && IsMatrix(deltaWeights', nOut, neurons)
    {
      ZeroShapes(layers, neurons, 0);
      error, gradients', deltaWeights' := RpropUpdate(gradients, deltaWeights);
    }

    /** `RpropRows` over the first `k` rows of the dataset, from the weights
        `t` and the given memories, with the current rate and target. */
    ghost function RpropRowsFrom(dataset: seq<seq<real>>, k: nat, t: Tensors, gradients: seq<seq<real>>,
                                 deltaWeights: seq<seq<real>>): (Tensors, seq<seq<real>>, seq<seq<real>>)
      reads this
      requires Valid() && nIn == 1 && RowsOf(dataset, nIn) && k <= |dataset| && Fits(nIn, nOut, t)
      requires IsMatrix(gradients, nOut, neurons) && IsMatrix(deltaWeights, nOut, neurons)
    {
      assert neurons == nOut;
      RpropRows(k, learning, dataset, expected, t, gradients, deltaWeights)
    }

    /** One pass of `rprop` over the dataset: one `RpropStep` per row, the
        errors summed into `totalError`; the weights and memories end as
        `RpropRows` over the whole dataset says, every step still in
        [1e-6, 50]. The memories come back as they went in while the
        remembered gradients are zero. */
    method RpropEpoch(dataset: seq<seq<real>>, gradients: seq<seq<real>>, deltaWeights: seq<seq<real>>)
      returns (totalError: real, gradients': seq<seq<real>>, deltaWeights': seq<seq<real>>)
      modifies this
      requires Valid() && (|dataset| > 0 ==> nIn == 1) && RowsOf(dataset, nIn)
      requires IsMatrix(gradients, nOut, neurons) && IsMatrix(deltaWeights, nOut, neurons)
      ensures Valid()
      ensures (Sizes(), epochs, mse, status, expected, Gradients())
              == old((Sizes(), epochs, mse, status, expected, Gradients()))
      ensures old(Quiet()) ==> Quiet()
      ensures IsMatrix(gradients', nOut, neurons) && IsMatrix(deltaWeights', nOut, neurons)
      ensures StepsInRange(deltaWeights) ==> StepsInRange(deltaWeights')
      ensures AllZero2(gradients) ==> AllZero2(gradients') && deltaWeights' == deltaWeights
      ensures totalError == Repeated(|dataset|, IdleError(expected))
      ensures |dataset| > 0 ==> input == dataset[|dataset| - 1] && Cleared()
      ensures |dataset| > 0 ==>
                (Weights(), gradients', deltaWeights')
                == old(RpropRowsFrom(dataset, |dataset|, Net(), gradients, deltaWeights))
      ensures |dataset| == 0 ==> input == old(input) && Weights() == old(Weights()) && Caches() == old(Caches())
                                 && gradients' == gradients && deltaWeights' == deltaWeights
    {
      totalError := 0.0;
      gradients', deltaWeights' := gradients, deltaWeights;
      if |dataset| == 0 {
        return;
      }
      ghost var t := Net();
      for s := 0 to |dataset|
        invariant Valid()
        invariant (Sizes(), epochs, mse, status, expected, Gradients())
                  == old((Sizes(), epochs, mse, status, expected, Gradients()))
        invariant old(Quiet()) ==> Quiet()
        invariant IsMatrix(gradients', nOut, neurons) && IsMatrix(deltaWeights', nOut, neurons)
        invariant StepsInRange(deltaWeights) ==> StepsInRange(deltaWeights')
        invariant AllZero2(gradients) ==> AllZero2(gradients') && deltaWeights' == deltaWeights
        invariant totalError == Repeated(s, IdleError(expected))
        invariant s > 0 ==> input == dataset[s - 1] && Cleared()
        invariant (Weights(), gradients', deltaWeights') == RpropRowsFrom(dataset, s, t, gradients, deltaWeights)
      {
        totalError, gradients', deltaWeights' :=
          RpropPassRow(dataset, s, totalError, gradients', deltaWeights', t, gradients, deltaWeights);
      }
    }

    /** Row `k` of a pass of `rprop`: `RpropStep` on it, its error added to
        the total. */
    method RpropPassRow(dataset: seq<seq<real>>, k: nat, total: real, gradients: seq<seq<real>>,
                        deltaWeights: seq<seq<real>>, ghost t: Tensors, ghost g0: seq<seq<real>>,
                        ghost d0: seq<seq<real>>)
      returns (total': real, gradients': seq<seq<real>>, deltaWeights': seq<seq<real>>)
      modifies this
      requires Valid() && nIn == 1 && RowsOf(dataset, nIn) && k < |dataset| && Fits(nIn, nOut, t)
      requires IsMatrix(gradients, nOut, neurons) && IsMatrix(deltaWeights, nOut, neurons)
      requires IsMatrix(g0, nOut, neurons) && IsMatrix(d0, nOut, neurons)
      requires (Weights(), gradients, deltaWeights) == RpropRowsFrom(dataset, k, t, g0, d0)
      requires total == Repeated(k, IdleError(expected))
      ensures Valid() && input == dataset[k] && Cleared()
      ensures (Sizes(), epochs, mse, status, expected, Gradients())
              == old((Sizes(), epochs, mse, status, expected, Gradients()))
      ensures old(Quiet()) ==> Quiet()
      ensures IsMatrix(gradients', nOut, neurons) && IsMatrix(deltaWeights', nOut, neurons)
      ensures StepsInRange(deltaWeights) ==> StepsInRange(deltaWeights')
      ensures AllZero2(gradients) ==> AllZero2(gradients') && deltaWeights' == deltaWeights
      ensures total' == Repeated(k + 1, IdleError(expected))
      ensures (Weights(), gradients', deltaWeights') == RpropRowsFrom(dataset, k + 1, t, g0, d0)
    {
      var error;
      error, gradients', deltaWeights' := RpropRowStep(dataset, k, gradients, deltaWeights, t, g0, d0);
      total' := total + error;
    }

    /** `RpropStep` on row `k`: the state the first `k` rows of the pass
        leave becomes the one the first `k + 1` leave. */
    method RpropRowStep(dataset: seq<seq<real>>, k: nat, gradients: seq<seq<real>>,
                        deltaWeights: seq<seq<real>>, ghost t: Tensors, ghost g0: seq<seq<real>>,
                        ghost d0: seq<seq<real>>)
      returns (error: real, gradients': seq<seq<real>>, deltaWeights': seq<seq<real>>)
      modifies this
      requires Valid() && nIn == 1 && RowsOf(dataset, nIn) && k < |dataset| && Fits(nIn, nOut, t)
      requires IsMatrix(gradients, nOut, neurons) && IsMatrix(deltaWeights, nOut, neurons)
      requires IsMatrix(g0, nOut, neurons) && IsMatrix(d0, nOut, neurons)
      requires (Weights(), gradients, deltaWeights) == RpropRowsFrom(dataset, k, t, g0, d0)
      ensures Valid() && input == dataset[k] && Cleared()
      ensures (Sizes(), epochs, mse, status, expected, Gradients())
              == old((Sizes(), epochs, mse, status, expected, Gradients()))
      ensures old(Quiet()) ==> Quiet()
      ensures IsMatrix(gradients', nOut, neurons) && IsMatrix(deltaWeights', nOut, neurons)
      ensures StepsInRange(deltaWeights) ==> StepsInRange(deltaWeights')
      ensures AllZero2(gradients) ==> AllZero2(gradients') && deltaWeights' == deltaWeights
      ensures error == IdleError(expected)
      ensures (Weights(), gradients', deltaWeights') == RpropRowsFrom(dataset, k + 1, t, g0, d0)
    {
      assert neurons == nOut;
      RpropRowsNext(k, learning, dataset, expected, t, g0, d0);
      ghost var next := RpropSampleStep(learning, dataset[k], expected, Net(), gradients, deltaWeights);
      assert RpropRowsFrom(dataset, k + 1, t, g0, d0) == next;
      error, gradients', deltaWeights' := RpropStep(dataset[k], gradients, deltaWeights);
    }

    /** `rprop(dataset)`: up to `epochs` passes over the dataset with the
        rprop memories (`gradients` zero, `deltaWeights` at deltaMin) kept
        across samples and passes; the weights after `ran` passes are those
        of `RpropRun`, whose steps stay in [1e-6, 50]. After each pass the
        error is averaged over the rows; below 0.01 the source sets `status`
        and leaves the loop, which the model does once the loop is over.
        Every sample's error is `IdleError(expected)`, so the loop stops
        after one pass exactly when that error is below 0.01. An empty
        dataset averages 0/0, a NaN that is never below 0.01: nothing is set
        and no division is modelled. */
    method Rprop(dataset: seq<seq<real>>) returns (ran: nat)
      modifies this
      requires Valid()
      requires epochs > 0 && |dataset| > 0 ==> nIn == 1
      requires epochs > 0 ==> RowsOf(dataset, nIn)
      ensures Valid()
      ensures (Sizes(), epochs, mse, expected, Gradients()) == old((Sizes(), epochs, mse, expected, Gradients()))
      ensures old(Quiet()) ==> Quiet()
      ensures status == (old(status) || (epochs > 0 && |dataset| > 0 && IdleError(expected) < 0.01))
      ensures ran == if epochs > 0 && |dataset| > 0 && IdleError(expected) < 0.01 then 1 else epochs
      ensures epochs > 0 && |dataset| > 0 ==>
                input == dataset[|dataset| - 1] && Cleared()
                && Weights() == RpropRun(ran, learning, dataset, expected, old(Net())).0
      ensures epochs == 0 || |dataset| == 0 ==>
                input == old(input) && Weights() == old(Weights()) && Caches() == old(Caches())
    {
      if epochs == 0 || |dataset| == 0 {
        // no pass runs, or every pass is empty and its 0/0 average never
        // ends the loop
        ran := epochs;
        return;
      }
      var done;
      done, ran := RpropLoop(dataset, Net());
      status := status || done;
    }

    /** The loop of `rprop` on a non-empty dataset with at least one epoch,
        from the weights `w0` and without setting `status`: passes until
        one averages below 0.01 or `epochs` passes ran. */
    method RpropLoop(dataset: seq<seq<real>>, ghost w0: Tensors) returns (done: bool, ran: nat)
      modifies this
      requires Valid() && |dataset| > 0 && epochs > 0 && nIn == 1 && RowsOf(dataset, nIn)
      requires Weights() == w0 && Fits(nIn, nOut, w0)
      ensures Valid()
      ensures (Sizes(), epochs, mse, status, expected, Gradients())
              == old((Sizes(), epochs, mse, status, expected, Gradients()))
      ensures old(Quiet()) ==> Quiet()
      ensures done == (IdleError(expected) < 0.01)
      ensures ran == if done then 1 else epochs
      ensures Weights() == RpropRun(ran, learning, dataset, expected, w0).0
      ensures input == dataset[|dataset| - 1] && Cleared()
    {
      var gradients := ZeroMatrix(nOut, neurons);
      var deltaWeights := Filled(nOut, neurons, DeltaMin);
      ZeroShapes(nOut, neurons, 0);
      // the first pass always runs
      done, gradients, deltaWeights := RpropRound(dataset, gradients, deltaWeights, w0, 0);
      ran := 1;
      // the settings `RpropRun` reads, which no pass changes
      ghost var rate, e, last := learning, expected, dataset[|dataset| - 1];
      ghost var small := IdleError(e) < 0.01;
      while ran < epochs && !done
        invariant 1 <= ran <= epochs && (done ==> ran == 1)
        invariant Valid()
        invariant (Sizes(), epochs, mse, status, expected, Gradients())
                  == old((Sizes(), epochs, mse, status, expected, Gradients()))
        invariant old(Quiet()) ==> Quiet()
        invariant done == small
        invariant RpropPassed(dataset, w0, ran, gradients, deltaWeights)
        invariant learning == rate && expected == e && input == last && Cleared()
      {
        done, gradients, deltaWeights := RpropRound(dataset, gradients, deltaWeights, w0, ran);
        ran := ran + 1;
      }
    }

    /** The state `p` passes of `rprop` from the weights `w0` leave: the
        weights of `RpropRun`, with the sign memories back at zero and every
        step back at its least value. */
    ghost predicate RpropPassed(dataset: seq<seq<real>>, w0: Tensors, p: nat,
                                gradients: seq<seq<real>>, deltaWeights: seq<seq<real>>)
      reads this
    {
      Valid() && nIn == 1 && RowsOf(dataset, nIn) && |dataset| > 0 && Fits(nIn, nOut, w0)
      && IsMatrix(gradients, nOut, neurons) && IsMatrix(deltaWeights, nOut, neurons)
      && AllZero2(gradients) && deltaWeights == Filled(nOut, neurons, DeltaMin)
      && (Weights(), gradients, deltaWeights) == RpropRun(p, learning, dataset, expected, w0)
    }

    /** One pass of `rprop` and its average, from the state `p` passes of
        `RpropRun` leave to the state of pass `p + 1`; `done` says the
        average is below 0.01. */
    method RpropRound(dataset: seq<seq<real>>, gradients: seq<seq<real>>, deltaWeights: seq<seq<real>>,
                      ghost w0: Tensors, ghost p: nat)
      returns (done: bool, gradients': seq<seq<real>>, deltaWeights': seq<seq<real>>)
      modifies this
      requires RpropPassed(dataset, w0, p, gradients, deltaWeights)
      ensures RpropPassed(dataset, w0, p + 1, gradients', deltaWeights')
      ensures (Sizes(), epochs, mse, status, expected, Gradients())
              == old((Sizes(), epochs, mse, status, expected, Gradients()))
      ensures old(Quiet()) ==> Quiet()
      ensures done == (IdleError(expected) < 0.01)
      ensures input == dataset[|dataset| - 1] && Cleared()
    {
      var totalError;
      totalError, gradients', deltaWeights' := RpropEpoch(dataset, gradients, deltaWeights);
      RepeatedAverage(|dataset|, IdleError(expected));
      done := Average(totalError, |dataset|) < 0.01;
    }

    /** The output holds the network's answer to the current input under
        the current weights. */
    ghost predicate Evaluated()
      reads this
      requires Valid()
    {
      output == NetOutput(input, iweights, weights, oweights)
    }

    /** Rows 0 to layers-2 of the caches hold what a forward pass over the
        current input and weights writes there. */
    ghost predicate Forwarded()
      reads this
      requires Valid()
    {
      forall l {:trigger hlayers[l]} :: 0 <= l < layers - 1 ==>
        hlayers[l] == Hidden(input, iweights, weights, l) && activations[l] == SigmoidV(hlayers[l])
    }

    /** `mse` holds the mean squared error of the current output. */
    ghost predicate Recorded()
      reads this
      requires Valid()
    {
      mse == Errors.MeanSquaredError(expected, output)
    }

    /** One round of `train()`: forward, the mean squared error recorded in
        `mse`, and, unless it is below 1e-6, backward: the delta rule after a
        forward pass, as `SampleStep` says. */
    method TrainRound() returns (small: bool)
      modifies this
      requires Valid()
      ensures Valid()
      ensures (Sizes(), epochs, status, input, expected, Gradients())
              == old((Sizes(), epochs, status, input, expected, Gradients()))
      ensures old(Quiet()) ==> Quiet()
      ensures mse == Errors.MeanSquaredError(expected, NetOutput(input, old(iweights), old(weights), old(oweights)))
      ensures small <==> mse < 0.000001
      ensures small ==> Weights() == old(Weights()) && Evaluated() && Recorded()
      ensures !small ==> Weights() == SampleStep(learning, input, expected, old(Net())) && Cleared()
    {
      small := Measure();
      if !small {
        Descend();
      }
    }

    /** The first half of a round of `train()`: forward and the recorded
        mean squared error, compared with 1e-6. */
    method Measure() returns (small: bool)
      modifies this
      requires Valid()
      ensures Valid() && Settings().(6 := mse) == old(Settings()).(6 := mse)
      ensures Weights() == old(Weights()) && Gradients() == old(Gradients()) && (old(Quiet()) ==> Quiet())
      ensures forall l {:trigger hlayers[l]} :: 0 <= l < layers - 1 ==>
                hlayers[l] == Hidden(input, iweights, weights, l) && activations[l] == SigmoidV(hlayers[l])
      ensures Evaluated() && Recorded()
      ensures small <==> mse < 0.000001
    {
      Forward();
      small := RecordError();
    }

    /** `mse = MSE(expected, output)` and its comparison with 1e-6. */
    method RecordError() returns (small: bool)
      modifies this
      requires Valid()
      ensures Valid() && Settings().(6 := mse) == old(Settings()).(6 := mse)
      ensures (Weights(), Gradients(), Caches()) == old((Weights(), Gradients(), Caches()))
      ensures old(Quiet()) ==> Quiet()
      ensures Recorded() && mse >= 0.0
      ensures small <==> mse < 0.000001
    {
      var r := Errors.MSE(expected, output);
      mse := r.value;
      small := mse < 0.000001;
    }

    /** The backward half of a round, right after a forward pass: the delta
        rule on the caches that pass left gives `SampleStep`'s weights. */
    method Descend()
      modifies this
      requires Valid() && output == NetOutput(input, iweights, weights, oweights)
      requires forall l {:trigger hlayers[l]} :: 0 <= l < layers - 1 ==>
                 hlayers[l] == Hidden(input, iweights, weights, l) && activations[l] == SigmoidV(hlayers[l])
      ensures Valid() && TopRowClear() && Cleared()
      ensures (Sizes(), epochs, mse, status, input, expected, Gradients())
              == old((Sizes(), epochs, mse, status, input, expected, Gradients()))
      ensures Weights() == SampleStep(learning, input, expected, old(Net()))
    {
      ghost var w, h, a := Net(), hlayers, activations;
      Backward();
      DeltaRuleAfterForward(learning, input, expected, w, h, a);
    }

    /** Round `r` of `train()` from the weights `w0`: `TrainRound` in the
        state `r` earlier rounds of `Rounds` leave. */
    method TrainRoundAt(ghost w0: Tensors, ghost r: nat) returns (small: bool)
      modifies this
      requires Valid() && Fits(nIn, nOut, w0) && Weights() == Rounds(r, learning, input, expected, w0)
      ensures Valid()
      ensures (Sizes(), epochs, status, input, expected, Gradients())
              == old((Sizes(), epochs, status, input, expected, Gradients()))
      ensures old(Quiet()) ==> Quiet()
      ensures mse == RoundError(r, learning, input, expected, w0)
      ensures small <==> mse < 0.000001
      ensures small ==> Weights() == Rounds(r, learning, input, expected, w0) && Evaluated() && Recorded()
      ensures !small ==> Weights() == Rounds(r + 1, learning, input, expected, w0) && Cleared()
    {
      small := TrainRound();
    }

    /** The end of `train()`: the round count becomes `epochs` and a last
        forward pass runs, which reproduces the output already there. */
    method Settle(count: nat)
      modifies this
      requires Valid() && Evaluated() && Recorded()
      ensures Valid() && Evaluated() && Forwarded() && Recorded() && epochs == count
      ensures Sizes() == old(Sizes()) && (mse, status, input, expected) == old((mse, status, input, expected))
      ensures Weights() == old(Weights()) && Gradients() == old(Gradients()) && (old(Quiet()) ==> Quiet())
    {
      ghost var quiet := Quiet();
      epochs := count;
      assert quiet ==> Quiet();
      Forward();
    }

    /** `train()`: rounds until the recorded error is below 1e-6; the number
        of backward rounds becomes `epochs` and a last forward pass runs. The
        source loops until the error is small, however long that takes: the
        model runs at most `fuel` backward rounds and reports whether it
        stopped and after how many. Every error before the last is at least
        1e-6, and the weights are those of `Rounds`; on convergence the caches
        hold the final forward pass. */
    method Train(fuel: nat) returns (converged: bool, rounds: nat)
      modifies this
      requires Valid()
      ensures Valid() && rounds <= fuel
      ensures (Sizes(), status, input, expected, Gradients()) == old((Sizes(), status, input, expected, Gradients()))
      ensures old(Quiet()) ==> Quiet()
      ensures Weights() == Rounds(rounds, learning, input, expected, old(Net()))
      ensures forall r :: 0 <= r < rounds ==> RoundError(r, learning, input, expected, old(Net())) >= 0.000001
      ensures converged ==>
                mse == RoundError(rounds, learning, input, expected, old(Net())) && mse < 0.000001
                && epochs == rounds && Recorded() && Evaluated() && Forwarded()
      ensures !converged ==> rounds == fuel && epochs == old(epochs)
    {
      converged, rounds := TrainRounds(fuel, Net());
      if converged {
        Settle(rounds);
      }
    }

    /** The loop of `train()` from the weights `w0`, without its ending. */
    method TrainRounds(fuel: nat, ghost w0: Tensors) returns (converged: bool, rounds: nat)
      modifies this
      requires Valid() && Weights() == w0 && Fits(nIn, nOut, w0)
      ensures Valid() && rounds <= fuel
      ensures (Sizes(), epochs, status, input, expected, Gradients())
              == old((Sizes(), epochs, status, input, expected, Gradients()))
      ensures old(Quiet()) ==> Quiet()
      ensures Weights() == Rounds(rounds, learning, input, expected, w0)
      ensures forall r :: 0 <= r < rounds ==> RoundError(r, learning, input, expected, w0) >= 0.000001
      ensures converged ==>
                mse == RoundError(rounds, learning, input, expected, w0) && mse < 0.000001
                && Recorded() && Evaluated()
      ensures !converged ==> rounds == fuel
    {
      rounds := 0;
      converged := false;
      // the settings `Rounds` reads, which no round changes
      ghost var rate, x, e := learning, input, expected;
      ghost var kept, quiet := (Sizes(), epochs, status, input, expected, Gradients()), Quiet();
      while rounds < fuel && !converged
        invariant Valid() && rounds <= fuel
        invariant (Sizes(), epochs, status, input, expected, Gradients()) == kept
        invariant quiet ==> Quiet()
        invariant Weights() == Rounds(rounds, rate, x, e, w0)
        invariant forall r :: 0 <= r < rounds ==> RoundError(r, rate, x, e, w0) >= 0.000001
        invariant converged ==> mse == RoundError(rounds, rate, x, e, w0) && mse < 0.000001
                                && Recorded() && Evaluated()
        decreases fuel - rounds, !converged
      {
        ghost var done := rounds;
        converged := TrainRoundAt(w0, rounds);
        rounds := if converged then rounds else rounds + 1;
        forall r | 0 <= r < rounds
          ensures RoundError(r, rate, x, e, w0) >= 0.000001
        {
          if r == done {
          }
        }
      }
    }

    /** One row of `train(inputs)`: the row becomes `input`, forward, the
        row's mean squared error under the weights as they were, backward. */
    method TrainSample(row: seq<real>) returns (error: real)
      modifies this
      requires Valid() && |row| == nIn
      ensures Valid() && input == row && Cleared()
      ensures Sizes() == old(Sizes()) && (epochs, mse, status, expected) == old((epochs, mse, status, expected))
      ensures Gradients() == old(Gradients())
      ensures error == Errors.MeanSquaredError(expected, NetOutput(row, old(iweights), old(weights), old(oweights)))
      ensures error >= 0.0
      ensures Weights() == SampleStep(learning, row, expected, old(Net()))
      ensures old(Quiet()) ==> Quiet()
    {
      ghost var w := Net();
      StoreInput(row);
      Forward();
      ghost var h, a := hlayers, activations;
      var r := Errors.MSE(expected, output);
      error := r.value;
      Backward();
      DeltaRuleAfterForward(learning, row, expected, w, h, a);
    }

    /** Row `k` of a pass of `train(inputs)`: `TrainSample` on it, its error
        added to the running total. Started from the state the first `k`
        rows of `Pass` leave, it ends in the state of the first `k + 1`. */
    method TrainPassRow(inputs: seq<seq<real>>, k: nat, running: real, ghost w0: Tensors, ghost total: real)
      returns (running': real)
      modifies this
      requires Valid() && RowsOf(inputs, nIn) && k < |inputs| && Fits(nIn, nOut, w0)
      requires running == Pass(nIn, learning, inputs, k, expected, w0, total).0
      requires Weights() == Pass(nIn, learning, inputs, k, expected, w0, total).1
      ensures Valid() && input == inputs[k] && Cleared()
      ensures Sizes() == old(Sizes()) && (epochs, mse, status, expected) == old((epochs, mse, status, expected))
      ensures Gradients() == old(Gradients()) && (old(Quiet()) ==> Quiet())
      ensures running' == Pass(nIn, learning, inputs, k + 1, expected, w0, total).0
      ensures Weights() == Pass(nIn, learning, inputs, k + 1, expected, w0, total).1
    {
      PassNext(nIn, learning, inputs, k, expected, w0, total, running, iweights, weights, oweights);
      var error := TrainSample(inputs[k]);
      running' := running + error;
    }

    /** One pass of `train(inputs)`: every row becomes `input`, then forward,
        the row's mean squared error is added to the running total, then
        backward. The total and the weights end as `Pass` says. */
    method TrainPass(inputs: seq<seq<real>>, total: real) returns (total': real)
      modifies this
      requires Valid() && RowsOf(inputs, nIn)
      ensures Valid() && total' >= total
      ensures Sizes() == old(Sizes()) && (epochs, mse, status, expected) == old((epochs, mse, status, expected))
      ensures total' == old(Pass(nIn, learning, inputs, |inputs|, expected, Net(), total)).0
      ensures Weights() == old(Pass(nIn, learning, inputs, |inputs|, expected, Net(), total)).1
      ensures old(Quiet()) ==> Quiet()
      ensures Gradients() == old(Gradients())
      ensures |inputs| > 0 ==> input == inputs[|inputs| - 1] && Cleared()
      ensures |inputs| == 0 ==> total' == total && input == old(input) && Caches() == old(Caches())
    {
      ghost var w0 := Net();
      total' := total;
      if |inputs| == 0 {
        return;
      }
      // every row but the last, then the last, whose state the pass leaves
      for k := 0 to |inputs| - 1
        invariant Valid()
        invariant (Sizes(), epochs, mse, status, expected, Gradients())
                  == old((Sizes(), epochs, mse, status, expected, Gradients()))
        invariant old(Quiet()) ==> Quiet()
        invariant total' == Pass(nIn, learning, inputs, k, expected, w0, total).0
        invariant Weights() == Pass(nIn, learning, inputs, k, expected, w0, total).1
      {
        total' := TrainPassRow(inputs, k, total', w0, total);
      }
      ghost var last := inputs[|inputs| - 1];
      total' := TrainPassRow(inputs, |inputs| - 1, total', w0, total);
      assert input == last;
    }

    /** One epoch of `train(inputs)` on a non-empty list: a pass, then the
        running total divided by the number of rows. Started from the state
        `p` passes of `Passes` leave, it ends in the state of pass `p + 1`. */
    method TrainEpoch(inputs: seq<seq<real>>, total: real, ghost w0: Tensors, ghost p: nat) returns (total': real)
      modifies this
      requires Valid() && RowsOf(inputs, nIn) && |inputs| > 0 && Fits(nIn, nOut, w0)
      requires (total, Weights()) == Passes(p, nIn, learning, inputs, expected, w0, 0.0)
      ensures Valid()
      ensures Sizes() == old(Sizes()) && (epochs, mse, status, expected) == old((epochs, mse, status, expected))
      ensures Gradients() == old(Gradients()) && (old(Quiet()) ==> Quiet())
      ensures (total', Weights()) == Passes(p + 1, nIn, learning, inputs, expected, w0, 0.0)
      ensures input == inputs[|inputs| - 1] && Cleared()
    {
      PassesNext(p, nIn, learning, inputs, expected, w0, 0.0);
      total' := TrainPass(inputs, total);
      total' := Average(total', |inputs|);
    }

    /** `train(inputs)`: passes over the rows, the running total divided by
        the number of rows after each pass and never reset; the loop stops as
        soon as that average is ABOVE 1e-7, and only then is it stored in
        `mse`. An empty list averages 0/0, a NaN above nothing: the source
        loops forever. The model runs at most `fuel` passes, reports whether
        it stopped and how many passes it ran; totals and weights are those
        of `Passes`. */
    method TrainOn(inputs: seq<seq<real>>, fuel: nat) returns (stopped: bool, passes: nat)
      modifies this
      requires Valid() && RowsOf(inputs, nIn)
      ensures Valid() && passes <= fuel
      ensures Sizes() == old(Sizes()) && (epochs, status, expected) == old((epochs, status, expected))
      ensures Gradients() == old(Gradients()) && (old(Quiet()) ==> Quiet())
      ensures |inputs| > 0 ==>
                Weights() == old(Passes(passes, nIn, learning, inputs, expected, Net(), 0.0)).1
      ensures |inputs| > 0 ==> forall p :: 1 <= p < passes ==>
                old(Passes(p, nIn, learning, inputs, expected, Net(), 0.0)).0 <= 0.0000001
      ensures stopped ==> |inputs| > 0 && passes >= 1 && input == inputs[|inputs| - 1] && Cleared()
                          && mse == old(Passes(passes, nIn, learning, inputs, expected, Net(), 0.0)).0
                          && mse > 0.0000001
      ensures !stopped ==> passes == fuel && mse == old(mse)
      ensures |inputs| == 0 ==> !stopped && input == old(input) && Weights() == old(Weights())
                                && Caches() == old(Caches())
      ensures |inputs| > 0 && passes > 0 ==> LeftOn(inputs)
    {
      if |inputs| == 0 {
        // the average is 0/0 and the source never leaves its loop
        stopped, passes := false, fuel;
        return;
      }
      var total;
      stopped, passes, total := TrainEpochs(inputs, fuel, Net());
      // the average is stored only when the loop left on it
      if stopped {
        StoreMse(total);
      }
    }

    /** The state a pass over `inputs` leaves: the last row is the input and
        `backward` has cleared the caches and the output. */
    ghost predicate LeftOn(inputs: seq<seq<real>>)
      reads this
    {
      |inputs| > 0 && input == inputs[|inputs| - 1] && Cleared()
    }

    /** `mse = value`, and nothing else changes. */
    method StoreMse(value: real)
      modifies this
      requires Valid()
      ensures Valid() && mse == value
      ensures Sizes() == old(Sizes()) && (epochs, status, input, expected) == old((epochs, status, input, expected))
      ensures Weights() == old(Weights()) && Caches() == old(Caches()) && Gradients() == old(Gradients())
    {
      mse := value;
    }

    /** The loop of `train(inputs)` on a non-empty list, from the weights
        `w0`: epochs until the average exceeds 1e-7 or `fuel` epochs ran. */
    method TrainEpochs(inputs: seq<seq<real>>, fuel: nat, ghost w0: Tensors)
      returns (stopped: bool, passes: nat, total: real)
      modifies this
      requires Valid() && RowsOf(inputs, nIn) && |inputs| > 0 && Weights() == w0
      ensures Valid() && passes <= fuel && (stopped ==> passes >= 1 && total > 0.0000001)
      ensures (Sizes(), epochs, mse, status, expected, Gradients())
              == old((Sizes(), epochs, mse, status, expected, Gradients()))
      ensures old(Quiet()) ==> Quiet()
      ensures total == Passes(passes, nIn, learning, inputs, expected, w0, 0.0).0
      ensures Weights() == Passes(passes, nIn, learning, inputs, expected, w0, 0.0).1
      ensures forall p :: 1 <= p < passes ==> Passes(p, nIn, learning, inputs, expected, w0, 0.0).0 <= 0.0000001
      ensures !stopped ==> passes == fuel
      ensures passes > 0 ==> input == inputs[|inputs| - 1] && Cleared()
    {
      passes := 0;
      stopped := false;
      total := 0.0;
      // the settings `Passes` reads, which no epoch changes
      ghost var n, rate, e := nIn, learning, expected;
      while passes < fuel && !stopped
        invariant Valid() && passes <= fuel && stopped == (total > 0.0000001)
        invariant (Sizes(), epochs, mse, status, expected, Gradients())
                  == old((Sizes(), epochs, mse, status, expected, Gradients()))
        invariant old(Quiet()) ==> Quiet()
        invariant total == Passes(passes, n, rate, inputs, e, w0, 0.0).0
        invariant Weights() == Passes(passes, n, rate, inputs, e, w0, 0.0).1
        invariant forall p :: 1 <= p < passes ==> Passes(p, n, rate, inputs, e, w0, 0.0).0 <= 0.0000001
        invariant passes > 0 ==> input == inputs[|inputs| - 1] && Cleared()
      {
        ghost var done := passes;
        assert Passes(done, n, rate, inputs, e, w0, 0.0).0 <= 0.0000001;
        total := TrainEpoch(inputs, total, w0, passes);
        passes := passes + 1;
        stopped := total > 0.0000001;
        forall p | 1 <= p < passes
          ensures Passes(p, n, rate, inputs, e, w0, 0.0).0 <= 0.0000001
        {
          if p == done {
          }
        }
      }
    }

    /** `validate`: zero input and zero expected output, a forward pass, and
        the mean squared error of the result, which the source prints. Its
        local `mse` shadows the field, which keeps its value. */
    method Validate() returns (validationMse: real)
      modifies this
      requires Valid()
      ensures Valid() && input == Zeros(nIn) && expected == Zeros(nOut)
      ensures output == NetOutput(input, iweights, weights, oweights)
      ensures forall l {:trigger hlayers[l]} :: 0 <= l < layers - 1 ==>
                hlayers[l] == Hidden(input, iweights, weights, l) && activations[l] == SigmoidV(hlayers[l])
      ensures validationMse == Errors.MeanSquaredError(expected, output) && validationMse >= 0.0
      ensures Sizes() == old(Sizes()) && (epochs, mse, status) == old((epochs, mse, status))
      ensures Weights() == old(Weights()) && Gradients() == old(Gradients()) && (old(Quiet()) ==> Quiet())
    {
      // the same zero input, zero expected output and forward pass as `test`
      Test();
      var r := Errors.MSE(expected, output);
      validationMse := r.value;
    }

    /** `test`: zero input and zero expected output and a forward pass; the
        pairs (expected, output) are only printed. */
    method Test()
      modifies this
      requires Valid()
      ensures Valid() && input == Zeros(nIn) && expected == Zeros(nOut)
      ensures output == NetOutput(input, iweights, weights, oweights)
      ensures forall l {:trigger hlayers[l]} :: 0 <= l < layers - 1 ==>
                hlayers[l] == Hidden(input, iweights, weights, l) && activations[l] == SigmoidV(hlayers[l])
      ensures Sizes() == old(Sizes()) && (epochs, mse, status) == old((epochs, mse, status))
      ensures Weights() == old(Weights()) && Gradients() == old(Gradients()) && (old(Quiet()) ==> Quiet())
    {
      ZeroShapes(nIn, 0, 0);
      ZeroShapes(nOut, 0, 0);
      StoreInput(Zeros(nIn));
      StoreExpected(Zeros(nOut));
      Forward();
    }

    /** `getL1Penalty`: the sum of |w| over the inter-hidden weights only. */
    method GetL1Penalty() returns (penalty: real)
      ensures penalty == L1Penalty(weights) && penalty >= 0.0
    {
      penalty := TensorSum(weights, Abs);
      PenaltiesNonneg(weights);
    }

    /** `getL2Penalty`: the sum of w² over the inter-hidden weights only. */
    method GetL2Penalty() returns (penalty: real)
      ensures penalty == L2Penalty(weights) && penalty >= 0.0
    {
      penalty := TensorSum(weights, Square);
      PenaltiesNonneg(weights);
    }
  }

  /** `computeLossWithL1`: absolute error over `outputs` plus half λ times the
      network's L1 penalty; nothing is written. */
  method ComputeLossWithL1(outputs: seq<real>, targets: seq<real>, network: Mlp, lambda: real) returns (loss: real)
    requires |outputs| <= |targets|
    ensures loss == LossWithL1(outputs, targets, network.weights, lambda)
  {
    loss := SumOfDifferences(outputs, targets, Abs);
    var penalty := network.GetL1Penalty();
    loss := loss + 0.5 * lambda * penalty;
  }

  /** `computeLossWithL2`: half the squared error plus half λ times the L2 penalty. */
  method ComputeLossWithL2(outputs: seq<real>, targets: seq<real>, network: Mlp, lambda: real) returns (loss: real)
    requires |outputs| <= |targets|
    ensures loss == LossWithL2(outputs, targets, network.weights, lambda)
  {
    loss := SumOfDifferences(outputs, targets, Square);
    var penalty := network.GetL2Penalty();
    loss := 0.5 * loss + 0.5 * lambda * penalty;
  }

  /** `dropoutGeneralisation`: the squared error scaled by 1/(1 - p); the
      network argument is not read. */
  method DropoutGeneralisation(outputs: seq<real>, targets: seq<real>, network: Mlp, p: real) returns (loss: real)
    requires |outputs| <= |targets| && p != 1.0
    ensures loss == DropoutLoss(outputs, targets, p)
  {
    loss := SumOfDifferences(outputs, targets, Square);
    loss := loss / (1.0 - p);
  }
}
