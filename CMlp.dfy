/** The C network: `struct MLP` (mlp/C/include/mlp.h) with `createMLP`,
    `initializeWeights`, `forward`, the C `backward`, `backprop`,
    `backwithL1`, `backwithL2`, `rprop(net, gradients)`, `train` and the loss
    functions of mlp/C/loss.c. The three vectors are the heap buffers the
    struct points at; the weight, gradient and cache tensors are sequences
    that each operation replaces. The arithmetic is that of the C++ class
    and is proved against the same definitions of Propagation. */
module CMlp {
  import opened Numerics
  import opened Activations
  import opened Propagation
  import opened VectorLoops
  import opened NetSteps
  import opened Training
  import Errors
  import CActivations

  /** Writes `src` into the buffer `dst` entry by entry. */
  method CopyInto(dst: array<real>, src: seq<real>)
    modifies dst
    requires dst.Length == |src|
    ensures dst[..] == src
  {
    for i := 0 to |src|
      invariant dst[..i] == src[..i]
    {
      dst[i] := src[i];
    }
  }

  /** A loop bound given as a C `int`: a negative count runs no iteration. */
  function Count(size: int): (n: nat)
    ensures size >= 0 ==> n == size
    ensures size < 0 ==> n == 0
  {
    if size < 0 then 0 else size
  }

  class Net {
    var nIn: nat
    var nOut: nat
    var layers: nat
    var neurons: nat
    var epochs: nat
    var mse: real
    var learning: real
    var status: bool
    const input: array<real>
    const output: array<real>
    const expected: array<real>
    var weights: seq<seq<seq<real>>>
    var iweights: seq<seq<real>>
    var oweights: seq<seq<real>>
    var hlayers: seq<seq<real>>
    var activations: seq<seq<real>>
    var gweights: seq<seq<seq<real>>>
    var giweights: seq<seq<real>>
    var goweights: seq<seq<real>>

    /** The sizing rule of `createMLP` and the shapes every function keeps:
        three separate buffers of lengths in, out and out, weights and
        gradients of matching shapes, caches of `layers` rows. */
    ghost predicate Valid()
      reads this, input, output, expected
    {
      nIn >= 1 && nOut >= 1 && layers == nIn + nOut && neurons == nIn * nOut
      && input.Length == nIn && output.Length == nOut && expected.Length == nOut
      && output != input && output != expected && input != expected
      && NetShaped(nIn, nOut, layers, neurons, iweights, weights, oweights, hlayers, activations)
      && WeightShapes(nIn, nOut, layers, neurons, giweights, gweights, goweights)
    }

    /** Row layers-1 of both caches is zero: `createMLP` leaves it so and no
        function writes it. */
    ghost predicate TopRowClear()
      reads this, input, output, expected
      requires Valid()
    {
      AllZero(hlayers[layers - 1]) && AllZero(activations[layers - 1])
    }

    /** The state in which `backprop` can only produce zero gradients. */
    ghost predicate Quiet()
      reads this, input, output, expected
      requires Valid()
    {
      TopRowClear() && AllZero3(gweights)
    }

    /** The counts, the training settings and state, and the input and
        expected vectors. */
    ghost function Settings(): (nat, nat, nat, nat, real, nat, real, bool, seq<real>, seq<real>)
      reads this, input, expected
    {
      (nIn, nOut, layers, neurons, learning, epochs, mse, status, input[..], expected[..])
    }

    /** The sizes and the learning rate, which no function changes. */
    ghost function Sizes(): (nat, nat, nat, nat, real)
      reads this
    {
      (nIn, nOut, layers, neurons, learning)
    }

    ghost function Weights(): (seq<seq<real>>, seq<seq<seq<real>>>, seq<seq<real>>)
      reads this
    {
      (iweights, weights, oweights)
    }

    /** The weights as the tensors of Training, which `Valid` shapes as
        `Fits` asks. */
    ghost function Net(): (t: Tensors)
      reads this, input, output, expected
      requires Valid()
      ensures t == Weights() && Fits(nIn, nOut, t)
    {
      Weights()
    }

    ghost function Gradients(): (seq<seq<real>>, seq<seq<seq<real>>>, seq<seq<real>>)
      reads this
    {
      (giweights, gweights, goweights)
    }

    ghost function Caches(): (seq<seq<real>>, seq<seq<real>>, seq<real>)
      reads this, output
    {
      (hlayers, activations, output[..])
    }

    /** `createMLP(in, out, epochs, learning)`: zero-filled buffers and
        tensors of the sizing rule, then `initializeWeights`. The source never
        sets `mse` or `status`; the model states nothing about them. */
    constructor (nIn: nat, nOut: nat, epochs: nat, learning: real,
                 iw: seq<seq<real>>, w: seq<seq<seq<real>>>, ow: seq<seq<real>>)
      requires nIn >= 1 && nOut >= 1 && WeightShapes(nIn, nOut, nIn + nOut, nIn * nOut, iw, w, ow)
      ensures Valid() && Quiet()
      ensures fresh(input) && fresh(output) && fresh(expected)
      ensures this.nIn == nIn && this.nOut == nOut && layers == nIn + nOut && neurons == nIn * nOut
      ensures this.epochs == epochs && this.learning == learning
      ensures input[..] == Zeros(nIn) && output[..] == Zeros(nOut) && expected[..] == Zeros(nOut)
      ensures hlayers == ZeroMatrix(nIn + nOut, nIn * nOut) && activations == ZeroMatrix(nIn + nOut, nIn * nOut)
      ensures Gradients() == (ZeroMatrix(nIn * nOut, nIn), ZeroTensor(nIn + nOut - 1, nIn * nOut, nIn * nOut),
                              ZeroMatrix(nOut, nIn * nOut))
      ensures Weights() == (iw, w, ow)
    {
      var n := nIn * nOut;
      this.nIn := nIn;
      this.nOut := nOut;
      layers := nIn + nOut;
      neurons := n;
      this.epochs := epochs;
      this.learning := learning;
      input := new real[nIn](_ => 0.0);
      output := new real[nOut](_ => 0.0);
      expected := new real[nOut](_ => 0.0);
      iweights := ZeroMatrix(n, nIn);
      oweights := ZeroMatrix(nOut, n);
      weights := ZeroTensor(nIn + nOut - 1, n, n);
      hlayers := ZeroMatrix(nIn + nOut, n);
      activations := ZeroMatrix(nIn + nOut, n);
      giweights := ZeroMatrix(n, nIn);
      goweights := ZeroMatrix(nOut, n);
      gweights := ZeroTensor(nIn + nOut - 1, n, n);
      new;
      assert input[..] == Zeros(nIn);
      assert output[..] == Zeros(nOut) && expected[..] == Zeros(nOut);
      ZeroShapes(nIn + nOut - 1, n, n);
      ZeroShapes(nIn + nOut, n, nIn);
      ZeroShapes(nOut, n, n);
      InitializeWeights(iw, w, ow);
    }

    /** `initializeWeights`: new values for the three weight tensors and
        nothing else; the values the random generator draws are the
        parameters. */
    method InitializeWeights(iw: seq<seq<real>>, w: seq<seq<seq<real>>>, ow: seq<seq<real>>)
      modifies this
      requires Valid() && WeightShapes(nIn, nOut, layers, neurons, iw, w, ow)
      ensures Valid() && Weights() == (iw, w, ow)
      ensures Settings() == old(Settings()) && Caches() == old(Caches()) && Gradients() == old(Gradients())
    {
      StoreWeights(iw, w, ow);
    }

    // Writing back the results of the value-level passes of NetSteps

    method StoreWeights(iw: seq<seq<real>>, w: seq<seq<seq<real>>>, ow: seq<seq<real>>)
      modifies this
      requires Valid() && WeightShapes(nIn, nOut, layers, neurons, iw, w, ow)
      ensures Valid() && Weights() == (iw, w, ow)
      ensures Settings() == old(Settings()) && Caches() == old(Caches()) && Gradients() == old(Gradients())
    {
      iweights, weights, oweights := iw, w, ow;
    }

    method StoreCaches(h: seq<seq<real>>, a: seq<seq<real>>, o: seq<real>)
      modifies this, output
      requires Valid() && IsMatrix(h, layers, neurons) && IsMatrix(a, layers, neurons) && |o| == nOut
      ensures Valid() && Caches() == (h, a, o)
      ensures Settings() == old(Settings()) && Weights() == old(Weights()) && Gradients() == old(Gradients())
    {
      hlayers, activations := h, a;
      CopyInto(output, o);
    }

    method StoreGradients(gi: seq<seq<real>>, gw: seq<seq<seq<real>>>, go: seq<seq<real>>)
      modifies this
      requires Valid() && WeightShapes(nIn, nOut, layers, neurons, gi, gw, go)
      ensures Valid() && Gradients() == (gi, gw, go)
      ensures Settings() == old(Settings()) && Weights() == old(Weights()) && Caches() == old(Caches())
    {
      giweights, gweights, goweights := gi, gw, go;
    }

    /** `forward`: rows 0..layers-2 of the caches hold the accumulated
        weighted sums and their sigmoids, the `output` buffer the linear
        output layer; row layers-1, the weights, the gradients and the other
        buffers are left alone. */
    method Forward()
      modifies this, output
      requires Valid()
      ensures Valid()
      ensures forall l {:trigger hlayers[l]} :: 0 <= l < layers - 1 ==>
                hlayers[l] == Hidden(input[..], iweights, weights, l) && activations[l] == SigmoidV(hlayers[l])
      ensures hlayers[layers - 1] == old(hlayers[layers - 1]) && activations[layers - 1] == old(activations[layers - 1])
      ensures output[..] == NetOutput(input[..], iweights, weights, oweights)
      ensures Settings() == old(Settings())
      ensures Weights() == old(Weights()) && Gradients() == old(Gradients())
      ensures old(Quiet()) ==> Quiet()
    {
      assert |weights| == layers - 1;
      var h, a, o := ForwardPass(input[..], iweights, weights, oweights, hlayers, activations, output[..]);
      StoreCaches(h, a, o);
    }

    /** `dh1` of the delta rule in the current state. */
    ghost function Dh1(): seq<real>
      reads this, input, output, expected
      requires Valid()
    {
      FirstDelta(expected[..], output[..], oweights, hlayers)
    }

    /** The C `backward`: the delta rule applied to all three weight tensors
        with the error `expected - output` and the caches of the last forward
        pass. Unlike the C++ method it clears nothing: caches, output and
        gradients are left as they are. */
    method Backward()
      modifies this
      requires Valid()
      ensures Valid()
      ensures Settings() == old(Settings()) && Caches() == old(Caches()) && Gradients() == old(Gradients())
      ensures Weights() == DeltaRuleWeights(nIn, nOut, layers, neurons, learning, expected[..], output[..],
                                            old(Weights()), hlayers, activations)
      ensures old(Quiet()) ==> Quiet()
    {
      var iw, w, ow := DeltaRule(nIn, nOut, layers, neurons, learning, expected[..], output[..],
                                 iweights, weights, oweights, hlayers, activations);
      StoreWeights(iw, w, ow);
    }

    /** `backprop`: the three gradient tensors, from the output error
        `output - expected` and row layers-1 of `activations`; nothing else
        changes. In the state `createMLP` leaves and every function keeps
        (row layers-1 clear, `gweights` zero), all gradients come out zero. */
    method Backprop()
      modifies this
      requires Valid()
      ensures Valid()
      ensures Gradients() == old(BackpropGradients(input[..], output[..], expected[..], oweights, weights, activations, gweights))
      ensures old(Quiet()) ==> Quiet() && AllZero2(giweights) && AllZero2(goweights)
      ensures Settings() == old(Settings())
      ensures Weights() == old(Weights()) && Caches() == old(Caches())
    {
      if Quiet() {
        BackpropVanishes(input[..], output[..], expected[..], oweights, weights, activations, gweights);
      }
      var gi, gw, go := GradientPath(nIn, nOut, layers, neurons, input[..], output[..], expected[..],
                                     weights, oweights, activations, gweights);
      StoreGradients(gi, gw, go);
    }

    /** `backwithL1`: `backprop`, then the L1 step with λ = 0.01 on every
        weight of the three tensors. */
    method BackwithL1()
      modifies this
      requires Valid()
      ensures Valid()
      ensures Gradients() == old(BackpropGradients(input[..], output[..], expected[..], oweights, weights, activations, gweights))
      ensures weights == L1Tensor(old(weights), gweights, learning)
      ensures iweights == L1Matrix(old(iweights), giweights, learning)
      ensures oweights == L1Matrix(old(oweights), goweights, learning)
      ensures old(Quiet()) ==> Quiet()
      ensures Settings() == old(Settings()) && Caches() == old(Caches())
    {
      Backprop();
      var iw, w, ow := L1Update(nIn, nOut, layers, neurons, iweights, weights, oweights,
                                giweights, gweights, goweights, learning);
      StoreWeights(iw, w, ow);
    }

    /** `backwithL2`: `backprop`, then the L2 step with λ = 0.01 on every
        weight, then the regularised loss of the new weights, which the source
        prints. The source passes `in` as the number of outputs to read; the
        model reads the `out` entries the buffers hold. */
    method BackwithL2() returns (loss: real)
      modifies this
      requires Valid()
      ensures Valid()
      ensures Gradients() == old(BackpropGradients(input[..], output[..], expected[..], oweights, weights, activations, gweights))
      ensures weights == L2Tensor(old(weights), gweights, learning)
      ensures iweights == L2Matrix(old(iweights), giweights, learning)
      ensures oweights == L2Matrix(old(oweights), goweights, learning)
      ensures old(Quiet()) ==> Quiet()
      ensures Settings() == old(Settings()) && Caches() == old(Caches())
      ensures loss == LossWithL2(output[..], expected[..], weights, Lambda) && loss >= 0.0
    {
      Backprop();
      var iw, w, ow := L2Update(nIn, nOut, layers, neurons, iweights, weights, oweights,
                                giweights, gweights, goweights, learning);
      StoreWeights(iw, w, ow);
      loss := RegularisedLoss();
    }

    /** The loss `backwithL2` ends with: half the squared error of all `out`
        outputs plus half λ times the L2 penalty, never negative. */
    method RegularisedLoss() returns (loss: real)
      requires Valid()
      ensures loss == LossWithL2(output[..], expected[..], weights, Lambda) && loss >= 0.0
    {
      loss := ComputeLossWithL2(output, expected, nOut, this, Lambda);
      assert output[..Count(nOut)] == output[..] && expected[..Count(nOut)] == expected[..];
      LossesNonneg(output[..], expected[..], weights, Lambda, 0.0);
    }

    /** The rprop update loop of one epoch: the sign rule over `oweights` with
        the caller's gradient and `goweights` as the remembered gradient.
        Nothing but `oweights` and `goweights` changes. */
    method RpropPhase(gradients: seq<seq<real>>, deltaWeights: seq<seq<real>>) returns (deltaWeights': seq<seq<real>>)
      modifies this
      requires Valid() && IsMatrix(gradients, nOut, neurons) && IsMatrix(deltaWeights, nOut, neurons)
      ensures Valid() && Settings() == old(Settings()) && Caches() == old(Caches())
      ensures (iweights, weights, giweights, gweights) == old((iweights, weights, giweights, gweights))
      ensures (oweights, goweights, deltaWeights') == RpropMatrix(old(oweights), gradients, old(goweights), deltaWeights)
      ensures IsMatrix(deltaWeights', nOut, neurons)
      ensures old(Quiet()) ==> Quiet()
    {
      var ow, go;
      ow, go, deltaWeights' := RpropMatrixLoop(oweights, gradients, goweights, deltaWeights);
      StoreWeights(iweights, weights, ow);
      StoreGradients(giweights, gweights, go);
    }

    /** Forward then the C `backward`: the weights take one `SampleStep` and
        the output stays that of the weights before. */
    method Evaluate()
      modifies this, output
      requires Valid()
      ensures Valid() && Settings() == old(Settings()) && Gradients() == old(Gradients())
      ensures old(Quiet()) ==> Quiet()
      ensures output[..] == NetOutput(input[..], old(iweights), old(weights), old(oweights))
      ensures Weights() == SampleStep(learning, input[..], expected[..], old(Net()))
    {
      Forward();
      Descend();
    }

    /** The C `backward` right after `forward`: the caches are those of the
        forward pass, so the delta rule gives `SampleStep`. */
    method Descend()
      modifies this
      requires Valid() && output[..] == NetOutput(input[..], iweights, weights, oweights)
      requires forall l {:trigger hlayers[l]} :: 0 <= l < layers - 1 ==>
                 hlayers[l] == Hidden(input[..], iweights, weights, l) && activations[l] == SigmoidV(hlayers[l])
      ensures Valid() && Settings() == old(Settings()) && Caches() == old(Caches())
      ensures Gradients() == old(Gradients()) && (old(Quiet()) ==> Quiet())
      ensures Weights() == SampleStep(learning, input[..], expected[..], old(Net()))
    {
      ghost var w, h, a, x, y := Net(), hlayers, activations, input[..], expected[..];
      DeltaRuleAfterForward(learning, x, y, w, h, a);
      Backward();
    }

    /** One epoch of `rprop`: forward, backward, the mean squared error of the
        output, which the C `backward` leaves in place, then the update loop:
        `CRpropEpoch` from the weights before. */
    method RpropRound(gradients: seq<seq<real>>, deltaWeights: seq<seq<real>>)
      returns (error: real, deltaWeights': seq<seq<real>>)
      modifies this, output
      requires Valid() && IsMatrix(gradients, nOut, neurons) && IsMatrix(deltaWeights, nOut, neurons)
      ensures Valid() && Settings() == old(Settings())
      ensures (giweights, gweights) == old((giweights, gweights))
      ensures old(Quiet()) ==> Quiet()
      ensures output[..] == NetOutput(input[..], old(iweights), old(weights), old(oweights))
      ensures error == Errors.MeanSquaredError(expected[..], output[..])
      ensures (Weights(), goweights, deltaWeights')
              == CRpropEpoch(learning, input[..], expected[..], old(Net()), gradients, old(goweights), deltaWeights)
      ensures IsMatrix(deltaWeights', nOut, neurons)
      ensures StepsInRange(deltaWeights) ==> StepsInRange(deltaWeights')
    {
      Evaluate();
      error, deltaWeights' := RpropFinish(gradients, deltaWeights);
    }

    /** The rest of an epoch of `rprop` after forward and backward: the mean
        squared error of the output, then the update loop. */
    method RpropFinish(gradients: seq<seq<real>>, deltaWeights: seq<seq<real>>)
      returns (error: real, deltaWeights': seq<seq<real>>)
      modifies this
      requires Valid() && IsMatrix(gradients, nOut, neurons) && IsMatrix(deltaWeights, nOut, neurons)
      ensures Valid() && Settings() == old(Settings()) && Caches() == old(Caches())
      ensures (iweights, weights, giweights, gweights) == old((iweights, weights, giweights, gweights))
      ensures old(Quiet()) ==> Quiet()
      ensures error == Errors.MeanSquaredError(expected[..], output[..])
      ensures (oweights, goweights, deltaWeights') == RpropMatrix(old(oweights), gradients, old(goweights), deltaWeights)
      ensures IsMatrix(deltaWeights', nOut, neurons)
    {
      error := CActivations.MSE(expected, output, nOut);
      assert expected[..nOut] == expected[..] && output[..nOut] == output[..];
      deltaWeights' := RpropPhase(gradients, deltaWeights);
    }

    /** The epoch error `rprop` compares with 0.01: the mean squared error of
        the output divided by the number of epochs. */
    ghost predicate Converging()
      reads this, input, output, expected
      requires Valid() && epochs > 0
    {
      Errors.MeanSquaredError(expected[..], output[..]) / (epochs as real) < 0.01
    }

    /** The weights, remembered gradients and steps after `k` epochs of
        `rprop` with the gradients `gradients` from the current state. */
    ghost function EpochsFrom(k: nat, gradients: seq<seq<real>>): (Tensors, seq<seq<real>>, seq<seq<real>>)
      reads this, input, output, expected
      requires Valid() && IsMatrix(gradients, nOut, neurons)
    {
      CRpropEpochs(k, learning, input[..], expected[..], Net(), gradients, goweights, Filled(nOut, neurons, DeltaMin))
    }

    /** The error epoch `k` of `rprop` from the current state compares with
        0.01: its mean squared error divided by `epochs`. */
    ghost function EpochErrorFrom(k: nat, gradients: seq<seq<real>>): real
      reads this, input, output, expected
      requires Valid() && epochs > 0 && IsMatrix(gradients, nOut, neurons)
    {
      CRpropError(k, learning, input[..], expected[..], Net(), gradients, goweights, Filled(nOut, neurons, DeltaMin))
      / (epochs as real)
    }

    /** `rprop(net, gradients)`: steps start at 1e-6; each epoch runs
        `RpropRound`, divides its error by `epochs` and, below 0.01, sets
        `status` and stops. `ran` counts the epochs run: the weights and the
        remembered gradients are those of `CRpropEpochs` after `ran` epochs,
        every epoch before the last missed the test and the last one passed
        it unless all `epochs` ran. The output is that of the last epoch's
        forward pass, so `status` records whether its error passed. */
    method Rprop(gradients: seq<seq<real>>) returns (ran: nat)
      modifies this, output
      requires Valid() && (epochs > 0 ==> IsMatrix(gradients, nOut, neurons))
      ensures Valid() && Settings().(7 := status) == old(Settings()).(7 := status)
      ensures (giweights, gweights) == old((giweights, gweights))
      ensures old(Quiet()) ==> Quiet()
      ensures ran <= epochs && (epochs > 0 ==> ran >= 1)
      ensures epochs > 0 ==> status == (old(status) || Converging())
      ensures epochs > 0 ==> var r := old(EpochsFrom(ran, gradients)); Weights() == r.0 && goweights == r.1
      ensures epochs > 0 ==> forall k :: 0 <= k < ran - 1 ==> old(EpochErrorFrom(k, gradients)) >= 0.01
      ensures epochs > 0 ==> status == (old(status) || old(EpochErrorFrom(ran - 1, gradients)) < 0.01)
      ensures 0 < ran < epochs ==> old(EpochErrorFrom(ran - 1, gradients)) < 0.01
      ensures epochs == 0 ==> status == old(status) && Weights() == old(Weights()) && Gradients() == old(Gradients())
                              && Caches() == old(Caches())
    {
      ghost var rate, e, x, y, w0, g0, d0 :=
        learning, epochs as real, input[..], expected[..], Net(), goweights, Filled(nOut, neurons, DeltaMin);
      var done;
      done, ran := RpropLoop(gradients, rate, e, x, y, w0, g0, d0);
      RecordConverged(done);
      assert ran > 0 ==> old(EpochsFrom(ran, gradients)) == CRpropEpochs(ran, rate, x, y, w0, gradients, g0, d0);
      assert ran > 0 ==>
        old(EpochErrorFrom(ran - 1, gradients)) == CRpropError(ran - 1, rate, x, y, w0, gradients, g0, d0) / e;
      forall k | 0 <= k < ran - 1
        ensures old(EpochErrorFrom(k, gradients)) >= 0.01
      {
        assert CRpropMissed(k, rate, x, y, w0, gradients, g0, d0, e);
        assert old(EpochErrorFrom(k, gradients)) == CRpropError(k, rate, x, y, w0, gradients, g0, d0) / e;
      }
    }

    /** `net->status = true` when `converged`; nothing else changes. */
    method RecordConverged(converged: bool)
      modifies this
      requires Valid()
      ensures Valid() && status == (old(status) || converged)
      ensures Settings().(7 := status) == old(Settings()).(7 := status)
      ensures (Weights(), Gradients(), Caches()) == old((Weights(), Gradients(), Caches()))
      ensures old(Quiet()) ==> Quiet()
      ensures epochs > 0 ==> Converging() == old(Converging())
    {
      status := status || converged;
    }

    /** The epochs of `rprop` from the weights `w0` and the remembered
        gradients `g0`, without setting `status`: epochs until one passes
        the 0.01 test or `epochs` ran. */
    method RpropLoop(gradients: seq<seq<real>>, ghost rate: real, ghost e: real, ghost x: seq<real>, ghost y: seq<real>,
                     ghost w0: Tensors, ghost g0: seq<seq<real>>, ghost d0: seq<seq<real>>)
      returns (done: bool, ran: nat)
      modifies this, output
      requires Valid() && (epochs > 0 ==> IsMatrix(gradients, nOut, neurons))
      requires rate == learning && e == epochs as real && d0 == Filled(nOut, neurons, DeltaMin)
      requires x == input[..] && y == expected[..] && w0 == Weights() && g0 == goweights
      ensures Valid() && Settings() == old(Settings())
      ensures (giweights, gweights) == old((giweights, gweights))
      ensures old(Quiet()) ==> Quiet()
      ensures ran <= epochs && (epochs > 0 ==> ran >= 1) && (!done ==> ran == epochs) && (ran > 0 ==> e > 0.0)
      ensures ran == 0 ==> !done && (Weights(), goweights, Caches()) == old((Weights(), goweights, Caches()))
      ensures ran > 0 ==> done == Converging()
      ensures ran > 0 ==>
                var r := CRpropEpochs(ran, rate, x, y, w0, gradients, g0, d0); Weights() == r.0 && goweights == r.1
      ensures ran > 0 ==> forall k :: 0 <= k < ran - 1 ==> CRpropMissed(k, rate, x, y, w0, gradients, g0, d0, e)
      ensures ran > 0 ==> done == (CRpropError(ran - 1, rate, x, y, w0, gradients, g0, d0) / e < 0.01)
    {
      var steps;
      done, ran, steps := RpropIterate(gradients, rate, e, x, y, w0, g0, d0);
    }

    /** The loop of `RpropLoop`: its invariant is its postcondition, together
        with the negated loop condition. */
    method RpropIterate(gradients: seq<seq<real>>, ghost rate: real, ghost e: real, ghost x: seq<real>, ghost y: seq<real>,
                        ghost w0: Tensors, ghost g0: seq<seq<real>>, ghost d0: seq<seq<real>>)
      returns (done: bool, ran: nat, deltaWeights: seq<seq<real>>)
      modifies this, output
      requires Valid() && (epochs > 0 ==> IsMatrix(gradients, nOut, neurons))
      requires rate == learning && e == epochs as real && d0 == Filled(nOut, neurons, DeltaMin)
      requires x == input[..] && y == expected[..] && w0 == Weights() && g0 == goweights
      ensures !(ran < epochs && !done) && ran <= epochs && (done ==> ran > 0) && (ran > 0 ==> e > 0.0)
      ensures Valid() && Settings() == old(Settings())
      ensures (giweights, gweights) == old((giweights, gweights))
      ensures old(Quiet()) ==> Quiet()
      ensures ran == 0 ==> (Weights(), goweights, deltaWeights) == (w0, g0, d0) && Caches() == old(Caches())
      ensures ran > 0 ==> done == Converging()
      ensures ran > 0 ==> (Weights(), goweights, deltaWeights) == CRpropEpochs(ran, rate, x, y, w0, gradients, g0, d0)
      ensures ran > 0 ==> forall k :: 0 <= k < ran - 1 ==> CRpropMissed(k, rate, x, y, w0, gradients, g0, d0, e)
      ensures ran > 0 ==> done == (CRpropError(ran - 1, rate, x, y, w0, gradients, g0, d0) / e < 0.01)
    {
      deltaWeights := Filled(nOut, neurons, DeltaMin);
      assert e > 0.0 ==> Fits(|x|, |y|, w0) && IsMatrix(gradients, |y|, |x| * |y|)
                         && IsMatrix(g0, |y|, |x| * |y|) && IsMatrix(d0, |y|, |x| * |y|);
      done, ran := false, 0;
      // the first epoch always runs: `done` is only set by an epoch
      while ran < epochs && !done
        invariant ran <= epochs && (done ==> ran > 0) && (ran > 0 ==> e > 0.0)
        invariant Valid() && Settings() == old(Settings())
        invariant (giweights, gweights) == old((giweights, gweights))
        invariant old(Quiet()) ==> Quiet()
        invariant ran == 0 ==> (Weights(), goweights, deltaWeights) == (w0, g0, d0) && Caches() == old(Caches())
        invariant ran > 0 ==> done == Converging()
        invariant ran > 0 ==> (Weights(), goweights, deltaWeights) == CRpropEpochs(ran, rate, x, y, w0, gradients, g0, d0)
        invariant ran > 0 ==> forall k :: 0 <= k < ran - 1 ==> CRpropMissed(k, rate, x, y, w0, gradients, g0, d0, e)
        invariant ran > 0 ==> done == (CRpropError(ran - 1, rate, x, y, w0, gradients, g0, d0) / e < 0.01)
      {
        done, deltaWeights, ran := RpropEpochAfter(gradients, deltaWeights, rate, e, x, y, w0, g0, d0, ran, done);
      }
    }

    /** Epoch `k` of `rprop` after `k` epochs that all missed the test: the
        state after `next = k + 1` epochs, and the first `k` epochs still
        missed. */
    method RpropEpochAfter(gradients: seq<seq<real>>, deltaWeights: seq<seq<real>>, ghost rate: real, ghost e: real,
                           ghost x: seq<real>, ghost y: seq<real>, ghost w0: Tensors, ghost g0: seq<seq<real>>,
                           ghost d0: seq<seq<real>>, k: nat, ghost done: bool)
      returns (converged: bool, deltaWeights': seq<seq<real>>, next: nat)
      modifies this, output
      requires Valid() && k < epochs && !done
      requires rate == learning && e == epochs as real && d0 == Filled(nOut, neurons, DeltaMin)
      requires x == input[..] && y == expected[..]
      requires e > 0.0 ==> Fits(|x|, |y|, w0) && IsMatrix(gradients, |y|, |x| * |y|)
                           && IsMatrix(g0, |y|, |x| * |y|) && IsMatrix(d0, |y|, |x| * |y|)
      requires k == 0 ==> (Weights(), goweights, deltaWeights) == (w0, g0, d0)
      requires k > 0 ==> (Weights(), goweights, deltaWeights) == CRpropEpochs(k, rate, x, y, w0, gradients, g0, d0)
      requires k > 0 ==> forall j :: 0 <= j < k - 1 ==> CRpropMissed(j, rate, x, y, w0, gradients, g0, d0, e)
      requires k > 0 ==> done == (CRpropError(k - 1, rate, x, y, w0, gradients, g0, d0) / e < 0.01)
      ensures next == k + 1 && e > 0.0
      ensures Valid() && Settings() == old(Settings())
      ensures (giweights, gweights) == old((giweights, gweights))
      ensures old(Quiet()) ==> Quiet()
      ensures converged == Converging()
      ensures (Weights(), goweights, deltaWeights') == CRpropEpochs(next, rate, x, y, w0, gradients, g0, d0)
      ensures forall j :: 0 <= j < next - 1 ==> CRpropMissed(j, rate, x, y, w0, gradients, g0, d0, e)
      ensures converged == (CRpropError(next - 1, rate, x, y, w0, gradients, g0, d0) / e < 0.01)
    {
      next := k + 1;
      assert next - 1 == k;
      CRpropResume(k, done, (Weights(), goweights, deltaWeights), rate, x, y, w0, gradients, g0, d0, e);
      converged, deltaWeights' := RpropEpochAt(gradients, deltaWeights, rate, e, x, y, w0, g0, d0, k);
    }

    /** Epoch `k` of `rprop` from the state the `k` epochs of `CRpropEpochs`
        before it leave: the state after `next = k + 1` epochs, and whether
        the error of epoch `k` passes the test. */
    method RpropEpochAt(gradients: seq<seq<real>>, deltaWeights: seq<seq<real>>, ghost rate: real, ghost e: real,
                        ghost x: seq<real>, ghost y: seq<real>, ghost w0: Tensors, ghost g0: seq<seq<real>>,
                        ghost d0: seq<seq<real>>, ghost k: nat)
      returns (converged: bool, deltaWeights': seq<seq<real>>)
      modifies this, output
      requires Valid() && k < epochs && rate == learning && e == epochs as real && d0 == Filled(nOut, neurons, DeltaMin)
      requires x == input[..] && y == expected[..]
      requires Fits(|x|, |y|, w0) && IsMatrix(gradients, |y|, |x| * |y|)
               && IsMatrix(g0, |y|, |x| * |y|) && IsMatrix(d0, |y|, |x| * |y|)
      requires (Weights(), goweights, deltaWeights) == CRpropEpochs(k, rate, x, y, w0, gradients, g0, d0)
      ensures Valid() && Settings() == old(Settings())
      ensures (giweights, gweights) == old((giweights, gweights))
      ensures old(Quiet()) ==> Quiet()
      ensures converged == Converging()
      ensures (Weights(), goweights, deltaWeights') == CRpropEpochs(k + 1, rate, x, y, w0, gradients, g0, d0)
      ensures converged == (CRpropError(k, rate, x, y, w0, gradients, g0, d0) / e < 0.01)
    {
      CRpropEpochsNext(k, rate, x, y, w0, gradients, g0, d0, (Net(), goweights, deltaWeights));
      converged, deltaWeights' := RpropEpoch(gradients, deltaWeights);
    }

    /** One epoch of `rprop`: a round, then its error divided by `epochs`
        compared against 0.01. */
    method RpropEpoch(gradients: seq<seq<real>>, deltaWeights: seq<seq<real>>)
      returns (converged: bool, deltaWeights': seq<seq<real>>)
      modifies this, output
      requires Valid() && epochs > 0
      requires IsMatrix(gradients, nOut, neurons) && IsMatrix(deltaWeights, nOut, neurons)
      ensures Valid() && Settings() == old(Settings())
      ensures (giweights, gweights) == old((giweights, gweights))
      ensures old(Quiet()) ==> Quiet()
      ensures converged <==> Converging()
      ensures converged <==> Errors.MeanSquaredError(expected[..], NetOutput(input[..], old(iweights), old(weights), old(oweights)))
                             / (epochs as real) < 0.01
      ensures (Weights(), goweights, deltaWeights')
              == CRpropEpoch(learning, input[..], expected[..], old(Net()), gradients, old(goweights), deltaWeights)
      ensures IsMatrix(deltaWeights', nOut, neurons)
      ensures StepsInRange(deltaWeights) ==> StepsInRange(deltaWeights')
    {
      var error;
      error, deltaWeights' := RpropRound(gradients, deltaWeights);
      var totalError := error / (epochs as real);
      converged := totalError < 0.01;
    }

    /** The output holds the network's answer to the current input under
        the current weights. */
    ghost predicate Evaluated()
      reads this, input, output, expected
      requires Valid()
    {
      output[..] == NetOutput(input[..], iweights, weights, oweights)
    }

    /** Rows 0 to layers-2 of the caches hold what a forward pass over the
        current input and weights writes there. */
    ghost predicate Forwarded()
      reads this, input, output, expected
      requires Valid()
    {
      forall l {:trigger hlayers[l]} :: 0 <= l < layers - 1 ==>
        hlayers[l] == Hidden(input[..], iweights, weights, l) && activations[l] == SigmoidV(hlayers[l])
    }

    /** `mse` holds the mean squared error of the current output. */
    ghost predicate Recorded()
      reads this, input, output, expected
      requires Valid()
    {
      mse == Errors.MeanSquaredError(expected[..], output[..])
    }

    /** One round of the C `train`: forward, `MSE(expected, output, out)`
        recorded in `mse`, and, unless it is below 1e-6, backward: one
        `SampleStep` of the weights. */
    method TrainRound() returns (small: bool)
      modifies this, output
      requires Valid()
      ensures Valid() && Sizes() == old(Sizes()) && (epochs, status) == old((epochs, status))
      ensures input[..] == old(input[..]) && expected[..] == old(expected[..])
      ensures Gradients() == old(Gradients()) && (old(Quiet()) ==> Quiet())
      ensures mse == Errors.MeanSquaredError(expected[..], NetOutput(input[..], old(iweights), old(weights), old(oweights)))
      ensures small <==> mse < 0.000001
      ensures mse >= 0.0 && Recorded()
      ensures small ==> Weights() == old(Weights()) && Evaluated()
      ensures !small ==> Weights() == SampleStep(learning, input[..], expected[..], old(Net()))
    {
      ghost var x, y, w := input[..], expected[..], Net();
      small := Measure();
      if !small {
        Descend();
      }
    }

    /** The first half of a round of `train`: forward and the recorded
        mean squared error, compared with 1e-6. */
    method Measure() returns (small: bool)
      modifies this, output
      requires Valid()
      ensures Valid() && Settings().(6 := mse) == old(Settings()).(6 := mse)
      ensures Weights() == old(Weights()) && Gradients() == old(Gradients()) && (old(Quiet()) ==> Quiet())
      ensures forall l {:trigger hlayers[l]} :: 0 <= l < layers - 1 ==>
                hlayers[l] == Hidden(input[..], iweights, weights, l) && activations[l] == SigmoidV(hlayers[l])
      ensures Evaluated() && Recorded() && mse >= 0.0
      ensures small <==> mse < 0.000001
    {
      Forward();
      small := RecordError();
    }

    /** `mse = MSE(expected, output, out)` and its comparison with 1e-6. */
    method RecordError() returns (small: bool)
      modifies this
      requires Valid()
      ensures Valid() && Settings().(6 := mse) == old(Settings()).(6 := mse)
      ensures (Weights(), Gradients(), Caches()) == old((Weights(), Gradients(), Caches()))
      ensures old(Quiet()) ==> Quiet()
      ensures Recorded() && mse >= 0.0
      ensures small <==> mse < 0.000001
    {
      mse := CActivations.MSE(expected, output, nOut);
      assert expected[..nOut] == expected[..] && output[..nOut] == output[..];
      small := mse < 0.000001;
    }

    /** Round `r` of the C `train` from the weights `w0`: `TrainRound` in the
        state the `r` rounds of `Rounds` before it leave. */
    method TrainRoundAt(ghost x: seq<real>, ghost y: seq<real>, ghost w0: Tensors, ghost r: nat) returns (small: bool)
      modifies this, output
      requires Valid() && x == input[..] && y == expected[..] && Fits(nIn, nOut, w0)
      requires Weights() == Rounds(r, learning, x, y, w0)
      ensures Valid() && Sizes() == old(Sizes()) && (epochs, status) == old((epochs, status))
      ensures input[..] == old(input[..]) && expected[..] == old(expected[..])
      ensures Gradients() == old(Gradients()) && (old(Quiet()) ==> Quiet())
      ensures mse == RoundError(r, learning, x, y, w0) && Recorded()
      ensures small <==> mse < 0.000001
      ensures small ==> Weights() == Rounds(r, learning, x, y, w0) && Evaluated()
      ensures !small ==> Weights() == Rounds(r + 1, learning, x, y, w0)
    {
      small := TrainRound();
    }

    /** The end of `train`: the round count becomes `epochs` and a last
        forward pass runs, which reproduces the output already there. */
    method Settle(count: nat)
      modifies this, output
      requires Valid() && Evaluated() && Recorded()
      ensures Valid() && Evaluated() && Forwarded() && Recorded() && epochs == count
      ensures Sizes() == old(Sizes()) && (mse, status) == old((mse, status))
      ensures input[..] == old(input[..]) && expected[..] == old(expected[..])
      ensures Weights() == old(Weights()) && Gradients() == old(Gradients()) && (old(Quiet()) ==> Quiet())
    {
      ghost var quiet := Quiet();
      epochs := count;
      assert quiet ==> Quiet();
      Forward();
    }

    /** The C `train`: rounds until the recorded error is below 1e-6; the
        number of backward rounds becomes `epochs` and a last forward pass
        runs. The source loops until the error is small, however long that
        takes: the model runs at most `fuel + 1` rounds and reports whether
        it stopped and after how many backward rounds. Every error before
        the last is at least 1e-6 and the weights are those of `Rounds`; on
        convergence the caches hold the final forward pass. */
    method Train(fuel: nat) returns (converged: bool, rounds: nat)
      modifies this, output
      requires Valid()
      ensures Valid() && Sizes() == old(Sizes()) && status == old(status)
      ensures input[..] == old(input[..]) && expected[..] == old(expected[..])
      ensures Gradients() == old(Gradients()) && (old(Quiet()) ==> Quiet())
      ensures Weights() == Rounds(rounds, learning, input[..], expected[..], old(Net()))
      ensures forall r :: 0 <= r < rounds ==> RoundError(r, learning, input[..], expected[..], old(Net())) >= 0.000001
      ensures converged ==>
                mse == RoundError(rounds, learning, input[..], expected[..], old(Net())) && mse < 0.000001
                && Recorded() && rounds <= fuel && epochs == rounds && Evaluated() && Forwarded()
      ensures !converged ==>
                rounds == fuel + 1 && epochs == old(epochs) && Recorded()
                && mse == RoundError(rounds - 1, learning, input[..], expected[..], old(Net())) && mse >= 0.000001
    {
      converged, rounds := TrainRounds(fuel, input[..], expected[..], Net());
      if converged {
        Settle(rounds);
      }
    }

    /** The loop of the C `train` from the weights `w0`, without its ending:
        rounds `0` to `fuel` at most. */
    method TrainRounds(fuel: nat, ghost x: seq<real>, ghost y: seq<real>, ghost w0: Tensors)
      returns (converged: bool, rounds: nat)
      modifies this, output
      requires Valid() && x == input[..] && y == expected[..] && Weights() == w0 && Fits(nIn, nOut, w0)
      ensures Valid() && Sizes() == old(Sizes()) && (epochs, status) == old((epochs, status))
      ensures input[..] == old(input[..]) && expected[..] == old(expected[..])
      ensures Gradients() == old(Gradients()) && (old(Quiet()) ==> Quiet())
      ensures Weights() == Rounds(rounds, learning, x, y, w0)
      ensures forall r :: 0 <= r < rounds ==> RoundError(r, learning, x, y, w0) >= 0.000001
      ensures converged ==>
                mse == RoundError(rounds, learning, x, y, w0) && mse < 0.000001 && Recorded() && Evaluated()
                && rounds <= fuel
      ensures !converged ==>
                rounds == fuel + 1 && mse == RoundError(rounds - 1, learning, x, y, w0) && mse >= 0.000001
                && Recorded()
    {
      rounds := 0;
      converged := false;
      // the learning rate `Rounds` reads, which no round changes
      ghost var rate := learning;
      while !converged && rounds <= fuel
        invariant Valid() && rounds <= fuel + 1
        invariant Sizes() == old(Sizes()) && (epochs, status) == old((epochs, status))
        invariant input[..] == x && expected[..] == y
        invariant Gradients() == old(Gradients()) && (old(Quiet()) ==> Quiet())
        invariant Weights() == Rounds(rounds, rate, x, y, w0)
        invariant forall r :: 0 <= r < rounds ==> RoundError(r, rate, x, y, w0) >= 0.000001
        invariant converged ==>
                    mse == RoundError(rounds, rate, x, y, w0) && mse < 0.000001 && Recorded() && Evaluated()
                    && rounds <= fuel
        invariant !converged && rounds > 0 ==> mse == RoundError(rounds - 1, rate, x, y, w0) && Recorded()
        decreases fuel + 1 - rounds, !converged
      {
        ghost var done := rounds;
        converged := TrainRoundAt(x, y, w0, rounds);
        rounds := if converged then rounds else rounds + 1;
        forall r | 0 <= r < rounds
          ensures RoundError(r, rate, x, y, w0) >= 0.000001
        {
          if r == done {
          }
        }
      }
    }

    /** `getL1Penalty`: the sum of |w| over the inter-hidden weights only. */
    method GetL1Penalty() returns (penalty: real)
      ensures penalty == L1Penalty(weights) && penalty >= 0.0
    {
      penalty := TensorSum(weights, Abs);
      PenaltiesNonneg(weights);
    }

    /** `getL2Penalty`: the sum of w² over the inter-hidden weights only. */
    method GetL2Penalty() returns (penalty: real)
      ensures penalty == L2Penalty(weights) && penalty >= 0.0
    {
      penalty := TensorSum(weights, Square);
      PenaltiesNonneg(weights);
    }
  }

  /** `computeLossWithL1(outputs, targets, size, net, lambda)`: absolute error
      over the first `size` entries plus half λ times the network's L1
      penalty. */
  method ComputeLossWithL1(outputs: array<real>, targets: array<real>, size: int, net: Net, lambda: real)
    returns (loss: real)
    requires size <= outputs.Length && size <= targets.Length
    ensures loss == LossWithL1(outputs[..Count(size)], targets[..Count(size)], net.weights, lambda)
  {
    loss := SumOfDifferences(outputs[..Count(size)], targets[..Count(size)], Abs);
    var penalty := net.GetL1Penalty();
    loss := loss + 0.5 * lambda * penalty;
  }

  /** `computeLossWithL2`: half the squared error over the first `size`
      entries plus half λ times the L2 penalty. */
  method ComputeLossWithL2(outputs: array<real>, targets: array<real>, size: int, net: Net, lambda: real)
    returns (loss: real)
    requires size <= outputs.Length && size <= targets.Length
    ensures loss == LossWithL2(outputs[..Count(size)], targets[..Count(size)], net.weights, lambda)
  {
    loss := SumOfDifferences(outputs[..Count(size)], targets[..Count(size)], Square);
    var penalty := net.GetL2Penalty();
    loss := 0.5 * loss + 0.5 * lambda * penalty;
  }

  /** `dropoutGeneralisation`: the squared error over the first `size`
      entries scaled by 1/(1 - p). */
  method DropoutGeneralisation(outputs: array<real>, targets: array<real>, size: int, p: real)
    returns (loss: real)
    requires size <= outputs.Length && size <= targets.Length && p != 1.0
    ensures loss == DropoutLoss(outputs[..Count(size)], targets[..Count(size)], p)
  {
    loss := SumOfDifferences(outputs[..Count(size)], targets[..Count(size)], Square);
    loss := loss / (1.0 - p);
  }

  /** What the loss call at the end of `backwithL2` reads: `size` entries of
      the output and expected buffers, or past their end. */
  datatype BufferRead = Within(loss: real) | Overrun

  /** The loss call of `backwithL2` as written: it passes `in` as the size of
      the output and expected buffers, which hold `out` entries. */
  function L2LossAsWritten(nIn: nat, output: seq<real>, expected: seq<real>,
                           weights: seq<seq<seq<real>>>): (r: BufferRead)
    ensures r == Overrun <==> nIn > |output| || nIn > |expected|
    ensures r.Within? ==> r.loss == LossWithL2(output[..nIn], expected[..nIn], weights, Lambda)
  {
    if nIn <= |output| && nIn <= |expected| then Within(LossWithL2(output[..nIn], expected[..nIn], weights, Lambda))
    else Overrun
  }

  /** Two inputs and one output: the call reads a second entry of the
      one-entry output buffer. */
  lemma L2LossOverrunsWithTwoInputs(output: seq<real>, expected: seq<real>, weights: seq<seq<seq<real>>>)
    requires |output| == 1 && |expected| == 1
    ensures L2LossAsWritten(2, output, expected, weights) == Overrun
  {
  }

  /** With fewer inputs than outputs the call reads only a prefix: the loss
      printed leaves the last outputs out. */
  lemma L2LossAsWrittenDropsOutputs(nIn: nat, output: seq<real>, expected: seq<real>, weights: seq<seq<seq<real>>>)
    requires nIn < |output| == |expected|
    ensures L2LossAsWritten(nIn, output, expected, weights) == Within(LossWithL2(output[..nIn], expected[..nIn], weights, Lambda))
  {
  }
}
