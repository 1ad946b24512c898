# A verified model of the multi-layer perceptron library

The library trains a bias-free multi-layer perceptron. It ships two versions
of the network.

- A C++ class `mlp` keeps its vectors, weight tensors, gradient tensors and
  per-layer caches in `std::vector`s.
- A C `struct MLP` keeps the same data in heap buffers.

Both versions share one sizing rule:

- `layers = in + out` cache rows;
- `neurons = in * out` units per hidden layer;
- `iweights` of shape neurons×in;
- `weights` of shape (layers-1)×neurons×neurons;
- `oweights` of shape out×neurons.

The operations are:

- `forward`: sigmoid hidden layers and a linear output layer.
- `backward`: the delta rule, after which the C++ version clears every cache.
- `backprop`: gradients into the gradient tensors.
- `backwithL1` and `backwithL2`: `backprop` followed by a regularised step with λ = 0.01.
- `rprop`: the resilient-propagation sign rule with step sizes in [1e-6, 50].
- The training loops, validation and test.

Around these sit the activation functions and their derivatives (sigmoid,
ReLU, SeLU, softmax with a temperature, LOTA), the error measures (MSE,
rMSE), the penalties and losses, the inner-product matrices `iproduct`, and
the `mat` class.

The model is organised as follows.

- **Arithmetic.** All arithmetic is over `real`. `exp` and `sqrt` are
  constants of function type carrying the properties the proofs need: exp is
  positive with exp(0) = 1; the square root is non-negative, zero at zero and
  positive on positive arguments.
- **Pure definitions.** The arithmetic of the network is defined once, as
  functions on values, in `Propagation`. Examples are the weighted sums of
  `forward`, the deltas of `backward`, the gradients of `backprop`, the rprop
  cell rule and the losses. `Training` composes them into what one sample, one
  round, one pass and one epoch of the training loops do to the weights.
- **Loops.** The loops of the source are methods with loop invariants,
  proved to compute the matching function (`VectorLoops`, `NetSteps`). Each
  inner product of `forward` is the accumulator loop `Linalg.InnerProduct`,
  which stands for both `std::inner_product` and the explicit C `sum` loop.
- **The C++ class.** `MlpNet.Mlp` has the fields of the C++ class. Its
  methods state the new weights, gradients, caches and counters in terms of
  those functions and the old state; the training and rprop loops are tied to
  recursive functions over rounds, passes and epochs (`Rounds`, `Passes`,
  `RpropRun`).
- **The C struct.** `CMlp.Net` does the same for the C struct. Its three
  vectors are `array`s and its tensors are sequences.
- **Proved properties.** Examples:
  - softmax and LOTA are probability distributions;
  - the derivatives are bounded;
  - the rprop step stays in range, through every sample and epoch;
  - a training round at the target leaves the weights unchanged;
  - the L2 step decays weights;
  - `backprop` yields only zero gradients from the state the constructors
    leave;
  - the output ignores the last inter-hidden matrix;
  - `rprop` sets `status` exactly when the error of the idle network is
    small.

| module | what it holds |
|---|---|
| Numerics | `exp`, `sqrt`, sums, dot products, zero tensors, normalisation |
| Outcomes | the `Result` of an operation that can throw |
| Activations | scalar activations and their vector and matrix maps |
| Errors | `MSE` and `rMSE` over vectors, with the length check |
| CActivations | the C array `MSE`, `rMSE`, `softmax`, `softmaxder` and their 2-D forms |
| Softmax | softmax with temperature, its derivative, the matrix overloads |
| Lota | LOTA and its derivative on vectors, matrices and a top-left block |
| Propagation | the network arithmetic as functions, and its lemmas |
| Training | one sample, round, pass and epoch of the training loops and of rprop, as functions on the weights |
| VectorLoops | the inner loops of the network over vectors |
| NetSteps | the loops of `forward`, `backward`, `backprop`, the regularised updates and `rprop` over whole networks |
| MlpNet | class `mlp` (C++), the loss functions of the C++ library |
| CMlp | `struct MLP` (C), `createMLP`, `initializeWeights`, the C training and loss functions |
| Linalg | `iproduct` and the `mat` class |

## Model

| member | source | states |
|---|---|---|
| Activations.Sigmoid | libraries/mlp/activations.cpp:63-66 | the sigmoid lies strictly between 0 and 1 |
| Activations.SigmoidDer | libraries/mlp/activations.cpp:74-79 | s·(1-s) is positive and at most 1/4 |
| Activations.SigmoidAtZero | libraries/mlp/activations.cpp:63-79 | sigmoid(0) = 1/2 and its derivative there is 1/4 |
| Activations.ReLU | libraries/mlp/activations.cpp:224-227 | the result is max(0, x): non-negative, at least x, either 0 or x, and equal to x times the ReLU derivative |
| Activations.ReLUDer | libraries/mlp/activations.cpp:236-239 | the derivative is 1 exactly for x > 0 and 0 exactly for x <= 0 |
| Activations.SeLU | libraries/mlp/activations.cpp:251-254 | the result is x times its derivative, keeps the sign of x, is zero only at 0 and is never below x |
| Activations.SeLUDer | libraries/mlp/activations.cpp:264-267 | the derivative is 1 exactly for x > 0 and 0.1 exactly for x <= 0 |
| Activations.SeLUAtMinusOne | libraries/mlp/activations.cpp:224-254 | SeLU(-1) = -0.1, ReLU(-1) = 0 and ReLU(2) = 2 |
| Activations.SigmoidV | maths/src/basics/src/activations.cpp:25-29 | the vector sigmoid keeps the length and maps each entry into (0, 1) |
| Activations.SigmoidVDer | maths/src/basics/src/activationsder.cpp:29-35 | each entry of the vector derivative is in (0, 1/4] |
| Activations.ReLUV | maths/src/basics/src/activations.cpp:115-121 | each entry is the ReLU of its input: non-negative and at least the input |
| Activations.ReLUVDer | maths/src/basics/src/activationsder.cpp:157-162 | each entry is 1 exactly where the input is positive |
| Activations.SeLUV | maths/src/basics/src/activations.cpp:146-151 | each entry is the input scaled by its SeLU derivative |
| Activations.SeLUVDer | maths/src/basics/src/activationsder.cpp:188-194 | each entry is 1 or 0.1, by the sign of the input |
| Activations.SigmoidMatrix | maths/src/basics/src/activations.cpp:36-42 | each row becomes its vector sigmoid, and the shape is kept |
| Activations.SigmoidDerMatrix | maths/src/basics/src/activationsder.cpp:44-50 | each row becomes its vector sigmoid derivative, and the shape is kept |
| Errors.SumSquaredDifferences | libraries/mlp/activations.cpp:22-28 | the loop yields the sum of squared differences, never negative |
| Errors.MSE | libraries/mlp/activations.cpp:18-31 | invalid_argument exactly on a length mismatch; otherwise the mean squared error, non-negative |
| Errors.RMSE | libraries/mlp/activations.cpp:39-54 | invalid_argument exactly on a length mismatch; otherwise the root of the mean squared error, non-negative |
| Errors.MseNonneg | libraries/mlp/activations.cpp:18-54 | both error measures are non-negative |
| Errors.MseZeroIffEqual | libraries/mlp/activations.cpp:18-54 | each error measure is zero if and only if prediction equals target |
| Errors.RmseNonneg | libraries/mlp/activations.cpp:39-54 | the root error is non-negative and zero only when the mean error is |
| Errors.MseOfSelf | libraries/mlp/activations.cpp:18-31 | a prediction equal to its target has zero error |
| Errors.SumSquaresSymmetric | libraries/mlp/activations.cpp:22-28 | swapping prediction and target keeps the sum of squares |
| Errors.MseSymmetric | libraries/mlp/activations.cpp:18-54 | both error measures are symmetric in their arguments |
| Errors.QuotientSign | libraries/mlp/activations.cpp:30 | the division by the count keeps the sign, and is zero only for a zero sum |
| CActivations.MSE | mlp/C/activations.c:16-23 | the mean squared error of the first `size` entries, non-negative |
| CActivations.SquaredDifferences | mlp/C/activations.c:18-21 | the loop sums the squared differences of the first `size` entries |
| CActivations.SquaredDifferenceStep | mlp/C/activations.c:18-21 | one more entry adds its squared difference |
| CActivations.RMSE | mlp/C/activations.c:32-34 | the root of the mean squared error, non-negative |
| CActivations.StoreExps | mlp/C/activations.c:111-114 | the buffer holds the tempered exponentials, and the sum is their total |
| CActivations.DivideBy | mlp/C/activations.c:115-117 | every entry is divided by the sum |
| CActivations.SoftmaxArray | mlp/C/activations.c:106-119 | a fresh array holding the softmax of the first `size` inputs |
| CActivations.ComplementLoop | mlp/C/activations.c:140-142 | a fresh array of s·(1-s) per value |
| CActivations.SoftmaxDerArray | mlp/C/activations.c:130-145 | a fresh array holding the diagonal softmax derivative s·(1-s) |
| CActivations.RowValues | mlp/C/activations.c:157-165 | the first `cols` values of each of the first `rows` rows |
| CActivations.SoftmaxRowAt | mlp/C/activations.c:161-163 | row i of `softmax2D` is the softmax of input row i |
| CActivations.FillSoftmaxRows | mlp/C/activations.c:160-164 | every output row is a fresh array holding its expected softmax row |
| CActivations.Softmax2D | mlp/C/activations.c:157-165 | `rows` fresh rows, each the softmax of its own input row |
| CActivations.SoftmaxDerRowAt | mlp/C/activations.c:181-183 | row i of `softmaxder2D` is the derivative of input row i |
| CActivations.FillSoftmaxDerRows | mlp/C/activations.c:180-184 | every output row is a fresh array holding its expected derivative row |
| CActivations.SoftmaxDer2D | mlp/C/activations.c:177-185 | `rows` fresh rows, each the diagonal softmax derivative of its input row |
| Softmax.Exps | libraries/mlp/activations.cpp:99 | every tempered exponential is positive |
| Softmax.PositiveSum | libraries/mlp/activations.cpp:99-100 | a non-empty sum of exponentials is positive, so the division is defined |
| Softmax.Softmax | libraries/mlp/activations.cpp:93-107 | the softmax keeps the length of its input |
| Softmax.SoftmaxIsDistribution | libraries/mlp/activations.cpp:93-107 | every entry is in (0, 1], and a non-empty softmax sums to 1 |
| Softmax.SumOfExps | libraries/mlp/activations.cpp:125-126 | the loop yields the sum of the tempered exponentials, positive for a non-empty input |
| Softmax.SubtractOthers | libraries/mlp/activations.cpp:130-141 | the nested loop yields y_i(1-y_i) minus every other y_j |
| Softmax.SoftmaxDer | libraries/mlp/activations.cpp:121-144 | the method yields the derivative as written |
| Softmax.SoftmaxDerAtUnitTemperature | libraries/mlp/activations.cpp:121-144 | at temperature 1 every entry of the as-written derivative is -(1-s_i)², never positive |
| Softmax.UnitTemperatureEntry | libraries/mlp/activations.cpp:121-144 | one entry of the as-written derivative at temperature 1 is -(1-s_i)² |
| Softmax.OthersRemovedFromDistribution | libraries/mlp/activations.cpp:131-141 | for entries summing to 1, removing the others leaves -(1-y_i)² |
| Softmax.WeightsAtUnitTemperature | libraries/mlp/activations.cpp:126-128 | at temperature 1 the derivative's weights are the softmax |
| Softmax.ComplementIdentity | libraries/mlp/activations.cpp:131-141 | y(1-y) - (1-y) = -(1-y)² |
| Softmax.ComplementProductBounds | mlp/C/activations.c:140-142 | s(1-s) lies in [0, 1/4] for s in (0, 1], and is positive below 1 |
| Softmax.ComplementProductsBounded | mlp/C/activations.c:140-142 | the vector of s(1-s) lies in [0, 1/4] entry by entry |
| Softmax.SoftmaxDiagonalDerBounds | libraries/mlp/activations.cpp:110-144 | every entry of the documented derivative s(1-s) lies in [0, 1/4] |
| Softmax.SoftmaxOfTwoZeros | libraries/mlp/activations.cpp:93-107 | the softmax of (0, 0) is (1/2, 1/2) |
| Softmax.SoftmaxDerSignExample | libraries/mlp/activations.cpp:121-144 | the as-written derivative at (0, 0) is (-1/4, -1/4) |
| Softmax.SoftmaxDiagonalDerExample | libraries/mlp/activations.cpp:110-144 | the documented derivative at (0, 0) is (1/4, 1/4) |
| Softmax.SoftmaxMatrixAsWritten | libraries/mlp/activations.cpp:156-170 | the matrix softmax as written returns its input unchanged |
| Softmax.ExpsMatrix | libraries/mlp/activations.cpp:160-165 | each row holds the tempered exponentials of its input row |
| Softmax.PositiveTotal | libraries/mlp/activations.cpp:160-165 | a matrix of positive entries with at least one entry has a positive total |
| Softmax.SoftmaxMatrix | libraries/mlp/activations.cpp:156-170 | the corrected matrix softmax keeps the shape of its input |
| Softmax.SoftmaxMatrixIsDistribution | libraries/mlp/activations.cpp:156-170 | all entries of the corrected matrix softmax are in (0, 1] and sum to 1 over the whole matrix |
| Softmax.SoftmaxMatrixExample | libraries/mlp/activations.cpp:156-170 | on [[0]] the as-written result is [[0]], the corrected one [[1]] |
| Softmax.SoftmaxDerMatrixAsWritten | libraries/mlp/activations.cpp:183-215 | the matrix derivative as written returns its input unchanged |
| Softmax.SoftmaxDerMatrix | libraries/mlp/activations.cpp:183-215 | the corrected matrix derivative keeps the shape |
| Softmax.SoftmaxDerMatrixBounds | libraries/mlp/activations.cpp:183-215 | every entry of the corrected matrix derivative lies in [0, 1/4] |
| Softmax.SoftmaxMatrixOfTwoZeros | libraries/mlp/activations.cpp:156-170 | the corrected matrix softmax of [[0, 0]] is [[1/2, 1/2]] |
| Softmax.SoftmaxDerMatrixExample | libraries/mlp/activations.cpp:183-215 | on [[0, 0]] the as-written result is [[0, 0]], the corrected one [[1/4, 1/4]] |
| Lota.MinOf | maths/src/basics/src/activations.cpp:165 | the minimum is at most every entry and is one of them |
| Lota.MinOfStep | maths/src/basics/src/activations.cpp:165 | the minimum of a longer prefix is the smaller of the old minimum and the new entry |
| Lota.Shifted | maths/src/basics/src/activations.cpp:166-168 | every entry is raised by the lift |
| Lota.Lifted | maths/src/basics/src/activations.cpp:163-168 | every entry is raised by the magnitude of the minimum and becomes non-negative |
| Lota.Lota | maths/src/basics/src/activations.cpp:163-177 | each entry lies in [0, 1] and the entries sum to 1 |
| Lota.LotaKeepsOrder | maths/src/basics/src/activations.cpp:163-177 | LOTA preserves the order of entries |
| Lota.QuotientMonotone | maths/src/basics/src/activations.cpp:172-174 | dividing by a positive sum preserves order |
| Lota.Floor | maths/src/basics/src/activations.cpp:191-196 | the floor loop yields a value at most 0 and at most every entry |
| Lota.FloorStep | maths/src/basics/src/activations.cpp:191-196 | one more row lowers the floor to that row's minimum if it is smaller |
| Lota.ShiftedMatrix | maths/src/basics/src/activations.cpp:198-200 | every row is shifted by the lift |
| Lota.LiftedMatrix | maths/src/basics/src/activations.cpp:191-200 | every entry is raised by the magnitude of the floor and becomes non-negative; the shape is kept |
| Lota.LotaMatrixOf | maths/src/basics/src/activations.cpp:187-211 | the matrix LOTA keeps the shape |
| Lota.LotaMatrixIsDistribution | maths/src/basics/src/activations.cpp:187-211 | entries are in [0, 1] and sum to 1 over the whole matrix |
| Lota.FloorLoop | maths/src/basics/src/activations.cpp:191-196 | the loop yields the floor of the matrix |
| Lota.TotalLoop | maths/src/basics/src/activations.cpp:201-205 | the loop yields the total of all entries |
| Lota.LiftLoop | maths/src/basics/src/activations.cpp:198-200 | the loop shifts every row by the lift |
| Lota.LotaMatrix | maths/src/basics/src/activations.cpp:187-211 | the method yields the matrix LOTA |
| Lota.Block | maths/src/basics/src/activations.cpp:230-236 | the top-left t×t block |
| Lota.WithBlock | maths/src/basics/src/activations.cpp:239-250 | only the first t entries of rows below t are replaced; everything else is kept |
| Lota.BlockOfWithBlock | maths/src/basics/src/activations.cpp:239-250 | reading back a replaced block gives the new block |
| Lota.WithBlockTwice | maths/src/basics/src/activations.cpp:239-250 | replacing the block twice keeps only the second replacement |
| Lota.LotaBlockOf | maths/src/basics/src/activations.cpp:221-252 | `LOTA(y, t)` keeps the number of rows |
| Lota.LotaBlockProperties | maths/src/basics/src/activations.cpp:221-252 | outside the block nothing changes; the block becomes the matrix LOTA of the old block, a distribution |
| Lota.RowFloor | maths/src/basics/src/activations.cpp:232-235 | one row of the block scan lowers the running floor to the row's minimum |
| Lota.BlockFloorLoop | maths/src/basics/src/activations.cpp:230-236 | the loop yields the floor of the block |
| Lota.BlockLiftLoop | maths/src/basics/src/activations.cpp:239-241 | only the block is shifted by the lift |
| Lota.BlockTotalLoop | maths/src/basics/src/activations.cpp:242-246 | the loop yields the total of the block |
| Lota.BlockDivideLoop | maths/src/basics/src/activations.cpp:248-250 | only the block is divided by the sum |
| Lota.LotaBlock | maths/src/basics/src/activations.cpp:221-252 | delegation when t is the row count, otherwise the four block loops |
| Lota.DerivativeEntry | maths/src/basics/src/activationsder.cpp:214-216 | (S-v)/S² = (1-v/S)/S, non-negative for 0 <= v <= S |
| Lota.CancelFactor | maths/src/basics/src/activationsder.cpp:214-216 | a non-zero common factor cancels |
| Lota.NonnegQuotient | maths/src/basics/src/activationsder.cpp:214-216 | a non-negative value over a positive one is non-negative |
| Lota.DerivativeRow | maths/src/basics/src/activationsder.cpp:214-216 | each entry v becomes (S-v)/S² |
| Lota.LotaDer | maths/src/basics/src/activationsder.cpp:206-219 | the vector derivative keeps the length |
| Lota.LotaDerFromLota | maths/src/basics/src/activationsder.cpp:206-219 | each entry equals (1 - LOTA(y)_i)/S and is non-negative |
| Lota.LotaDerMatrixOf | maths/src/basics/src/activationsder.cpp:230-260 | the matrix derivative keeps the shape |
| Lota.DerivativeOfNormalised | maths/src/basics/src/activationsder.cpp:254-258 | a derivative entry equals (1 - normalised entry)/S and is non-negative |
| Lota.LotaDerMatrixEntry | maths/src/basics/src/activationsder.cpp:230-260 | one entry of the matrix derivative is (1 - LOTA_ij)/S and non-negative |
| Lota.LotaDerMatrixFromLota | maths/src/basics/src/activationsder.cpp:230-260 | every entry of the matrix derivative is (1 - LOTA_ij)/S and non-negative |
| Lota.LotaDerMatrix | maths/src/basics/src/activationsder.cpp:230-260 | the method yields the matrix derivative |
| Propagation.Weighted | libraries/mlp/forprop.cpp:31-35 | one weighted sum per weight row |
| Propagation.Hidden | libraries/mlp/forprop.cpp:15-28 | each hidden layer has one sum per neuron |
| Propagation.NetOutput | libraries/mlp/forprop.cpp:31-35 | the output has one entry per output weight row |
| Propagation.HiddenReadsOnlyEarlierWeights | libraries/mlp/forprop.cpp:22-28 | layer l depends only on the first l inter-hidden matrices |
| Propagation.ZeroInputFirstLayer | mlp/C++/train.cpp:62-78 | with zero input, the first hidden sums are 0 and their sigmoids 1/2 |
| Propagation.OutputIgnoresLastHiddenMatrix | libraries/mlp/forprop.cpp:22-35 | the network output does not depend on the last inter-hidden matrix |
| Propagation.Outer | libraries/mlp/backprop.cpp:23-27 | the outer product has shape |u|×|v| |
| Propagation.Nudged | libraries/mlp/backprop.cpp:73-79 | adding rate times the update keeps the shape |
| Propagation.Propagate | libraries/mlp/backprop.cpp:61-67 | the propagated error has one entry per neuron |
| Propagation.PropagateAt | libraries/mlp/backprop.cpp:61-67 | one entry of the propagated error is the column sum times sigmoidder |
| Propagation.BackDelta | libraries/mlp/backprop.cpp:50-70 | the layer error keeps the width of dh1 at every layer |
| Propagation.FirstDelta | libraries/mlp/backprop.cpp:30-36 | dh1 has the width of the last computed hidden layer |
| Propagation.DeltaOutputWeights | libraries/mlp/backprop.cpp:39-43 | the output update keeps the number of output rows |
| Propagation.DeltaHiddenWeights | libraries/mlp/backprop.cpp:73-79 | the hidden update keeps the number of matrices |
| Propagation.DeltaInputWeights | libraries/mlp/backprop.cpp:82-86 | the input update keeps the shape |
| Propagation.DeltaHiddenKeepsShapes | libraries/mlp/backprop.cpp:73-79 | the hidden update keeps the tensor shape |
| Propagation.DeltaRuleKeepsShapes | libraries/mlp/backprop.cpp:18-86 | the delta rule keeps all three weight shapes |
| Training.ForwardHidden | libraries/mlp/forprop.cpp:15-28 | one row of sums per computed layer, each a neuron wide |
| Training.ForwardActivations | libraries/mlp/forprop.cpp:15-28 | the sigmoids of those rows, with the same shape |
| Training.BackDeltaReadsComputedRows | libraries/mlp/backprop.cpp:50-70 | the layer error reads only the cache rows the forward pass computes |
| Training.DeltaRuleReadsComputedRows | libraries/mlp/backprop.cpp:18-86 | the delta rule reads only the cache rows the forward pass computes |
| Training.DeltaHiddenReadsComputedRows | libraries/mlp/backprop.cpp:73-79 | the hidden-layer update reads only the cache rows below the number of hidden matrices |
| Training.NudgedByZeros | libraries/mlp/backprop.cpp:73-79 | a zero update leaves a matrix unchanged |
| Training.OuterOfZeros | libraries/mlp/backprop.cpp:23-27 | an outer product with a zero vector is zero |
| Training.PropagateZeros | libraries/mlp/backprop.cpp:61-67 | a zero error propagates to zero |
| Training.BackDeltaOfZeros | libraries/mlp/backprop.cpp:50-70 | a zero dh1 gives zero layer errors at every layer |
| Training.DeltaHiddenAtZeroDelta | libraries/mlp/backprop.cpp:73-79 | a zero dh1 leaves the hidden weights unchanged |
| Training.LayerAtZeroDelta | libraries/mlp/backprop.cpp:73-79 | with a zero dh1, each hidden matrix is left unchanged by the update |
| Training.DeltaInputAtZeroDelta | libraries/mlp/backprop.cpp:82-86 | a zero delta leaves the input weights unchanged |
| Propagation.InputWeightsMoveTogether | libraries/mlp/backprop.cpp:82-86 | the cells of a row of `iweights` keep their differences: the input is never read |
| Propagation.Gated | libraries/mlp/backprop.cpp:114-121 | `hidden_error` has one entry per activation |
| Propagation.LayerGradientError | libraries/mlp/backprop.cpp:131-147 | `layer_error` has one entry per activation |
| Propagation.BackpropGradients | libraries/mlp/backprop.cpp:100-148 | one hidden gradient matrix per weight matrix |
| Propagation.ColProductsOfZeros | libraries/mlp/backprop.cpp:131-147 | a column product against zero gradients is 0 |
| Propagation.BackpropVanishes | libraries/mlp/backprop.cpp:100-148 | with the top activation row and old gradients zero, all three gradient tensors are zero |
| Propagation.L1Matrix | libraries/mlp/backprop.cpp:178-209 | the L1 step keeps the shape |
| Propagation.L2Matrix | libraries/mlp/backprop.cpp:243-262 | the L2 step keeps the shape |
| Propagation.L1Tensor | libraries/mlp/backprop.cpp:178-189 | the L1 step keeps the number of matrices |
| Propagation.L2Tensor | libraries/mlp/backprop.cpp:243-250 | the L2 step keeps the number of matrices |
| Propagation.L1StepWithoutGradient | libraries/mlp/backprop.cpp:178-209 | without gradient, a positive weight drops by rate·λ and any other weight rises by rate·λ |
| Propagation.L2StepWithoutGradient | libraries/mlp/backprop.cpp:243-262 | without gradient, the weight is scaled by 1-rate·λ and its magnitude does not grow for 0 < rate·λ <= 1 |
| Propagation.ZeroQuotient | libraries/mlp/backprop.cpp:243-262 | zero over a non-zero value is zero |
| Propagation.ProductNonneg | libraries/mlp/loss.cpp:71-77 | the product of non-negatives is non-negative |
| Propagation.L2MatrixIsDecay | libraries/mlp/backprop.cpp:243-262 | with zero gradients, every weight of a matrix is scaled by 1-rate·λ |
| Propagation.L2TensorIsDecay | libraries/mlp/backprop.cpp:243-250 | with zero gradients, every inter-hidden weight is scaled by 1-rate·λ |
| Propagation.RpropStepStaysInRange | libraries/mlp/backprop.cpp:303-319 | the step stays within [1e-6, 50] |
| Propagation.RpropRules | libraries/mlp/backprop.cpp:303-319 | the weight moves by exactly the new step against the gradient's sign; the memory is reset on a sign flip; the step grows only on agreement and shrinks only on a flip |
| Propagation.RpropZeroGradient | libraries/mlp/backprop.cpp:314-317 | a zero gradient adds the step to the weight, clears the memory and keeps the step |
| Propagation.RpropMatrix | libraries/mlp/backprop.cpp:303-319 | the matrix update keeps all three shapes |
| Propagation.RpropMatrixZeroGradient | libraries/mlp/backprop.cpp:303-319 | with zero gradients, each weight rises by its step, memories clear and steps stay |
| Propagation.RpropMatrixKeepsSteps | libraries/mlp/backprop.cpp:303-319 | a matrix update keeps every step in [1e-6, 50] |
| Propagation.RpropMatrixOnMatrices | libraries/mlp/backprop.cpp:303-319 | the matrix update keeps the shapes and the step range |
| Propagation.Block | libraries/mlp/backprop.cpp:320-336 | the top-left block has the given shape |
| Propagation.WithBlock | libraries/mlp/backprop.cpp:320-336 | replacing the top-left block keeps the shape |
| Propagation.RpropSampleWithoutGradient | libraries/mlp/backprop.cpp:303-336 | with zero caches, hidden error and memories, both loops add the steps, keep them and leave the memories zero |
| Propagation.RpropSampleUpdate | libraries/mlp/backprop.cpp:303-336 | both update loops keep the four shapes |
| Propagation.RpropSampleKeepsSteps | libraries/mlp/backprop.cpp:303-336 | both update loops keep every step in [1e-6, 50] |
| Propagation.PenaltiesNonneg | libraries/mlp/loss.cpp:11-39 | both penalties are non-negative, and zero for zero weights |
| Propagation.LossesNonneg | libraries/mlp/loss.cpp:52-96 | every loss is non-negative for λ >= 0 and p < 1, and zero for a perfect prediction with zero weights |
| VectorLoops.WeightedInto | libraries/mlp/forprop.cpp:31-35 | the output loop yields the weighted sums |
| VectorLoops.WeightedSigmoidInto | libraries/mlp/forprop.cpp:15-19 | one layer loop yields the sums and their sigmoids |
| VectorLoops.Differences | libraries/mlp/backprop.cpp:18-20 | the loop yields the element-wise differences |
| VectorLoops.ScaledRow | libraries/mlp/backprop.cpp:24-26 | each entry is the scalar times the vector entry |
| VectorLoops.OuterProduct | libraries/mlp/backprop.cpp:23-27 | the nested loops yield the outer product |
| VectorLoops.ColumnSum | libraries/mlp/backprop.cpp:31-34 | the loop yields the column dot product |
| VectorLoops.ColumnProducts | libraries/mlp/backprop.cpp:131-147 | the loop yields the column sum of products |
| VectorLoops.PropagateInto | libraries/mlp/backprop.cpp:61-67 | the loop yields the propagated error |
| VectorLoops.GatedInto | libraries/mlp/backprop.cpp:114-121 | the loop yields `hidden_error` |
| VectorLoops.LayerErrorInto | libraries/mlp/backprop.cpp:131-147 | the loop yields `layer_error` |
| VectorLoops.NudgeMatrix | libraries/mlp/backprop.cpp:73-79 | the loop adds rate times the update |
| VectorLoops.ShiftRows | libraries/mlp/backprop.cpp:82-86 | the loop yields the input-weight update |
| VectorLoops.L1MatrixLoop | libraries/mlp/backprop.cpp:190-209 | the loop yields the L1 step of a matrix |
| VectorLoops.L2MatrixLoop | libraries/mlp/backprop.cpp:251-262 | the loop yields the L2 step of a matrix |
| VectorLoops.AccumulateRow | libraries/mlp/loss.cpp:11-21 | the loop adds f of every entry to the accumulator |
| VectorLoops.AccumulateMatrix | libraries/mlp/loss.cpp:11-21 | the loop adds f of every matrix entry to the accumulator |
| VectorLoops.TensorSum | libraries/mlp/loss.cpp:11-39 | the triple loop sums f over the tensor |
| VectorLoops.SumOfDifferences | libraries/mlp/loss.cpp:52-96 | the loop sums f of the differences |
| VectorLoops.RpropCellStep | libraries/mlp/backprop.cpp:305-317 | one cell follows the rprop rule |
| VectorLoops.RpropMatrixLoop | libraries/mlp/backprop.cpp:303-319 | the nested loops yield the matrix rprop update |
| NetSteps.ForwardLayers | libraries/mlp/forprop.cpp:15-28 | rows below the last hold each layer's sums and sigmoids; the last row is kept |
| NetSteps.ForwardPass | libraries/mlp/forprop.cpp:9-36 | as ForwardLayers, with the output equal to the network output |
| NetSteps.LayerDeltas | libraries/mlp/backprop.cpp:50-70 | each layer's update is the outer product of its activations with the next layer error; the final delta reaches layer 0 |
| NetSteps.NudgeLayers | libraries/mlp/backprop.cpp:73-79 | each matrix moves by rate times its update |
| NetSteps.DeltaRule | libraries/mlp/backprop.cpp:18-86 | the three tensors become their delta-rule updates, with shapes kept |
| NetSteps.HiddenRule | libraries/mlp/backprop.cpp:50-79 | the hidden tensor becomes its delta-rule update, and the delta reaching layer 0 is returned |
| NetSteps.ClearCaches | libraries/mlp/backprop.cpp:89-93 | both caches become zero matrices |
| NetSteps.BackwardPass | libraries/mlp/backprop.cpp:11-94 | the delta rule on all three tensors, then caches and output zero |
| NetSteps.GradientPath | libraries/mlp/backprop.cpp:100-148 | the gradients equal `BackpropGradients` and have the weight shapes |
| NetSteps.L1Update | libraries/mlp/backprop.cpp:178-209 | the three tensors take the L1 step |
| NetSteps.L2Update | libraries/mlp/backprop.cpp:243-262 | the three tensors take the L2 step |
| NetSteps.SampleError | libraries/mlp/backprop.cpp:294-298 | the output error is expected - output and the error its sum of squares |
| NetSteps.RpropSample | libraries/mlp/backprop.cpp:303-336 | both update loops yield `RpropSampleUpdate` with shapes kept |
| MlpNet.Mlp.constructor | libraries/mlp/C++/mlp.cpp:17-38 | sizes by the sizing rule, zero vectors, caches and gradients, the drawn weights; gradients vanish |
| MlpNet.Mlp.WithData | libraries/mlp/C++/mlp.cpp:53-77 | past the size check: the vectors stored as given, the counts derived from them, zero caches and gradients, the drawn weights |
| MlpNet.Mlp.Create | libraries/mlp/C++/mlp.cpp:53-77 | runtime_error with the source's message exactly when `expected` and `output` differ in length; otherwise a fresh quiet network holding the given vectors and weights |
| MlpNet.Mlp.InitializeWeights | mlp/CUDA/src/weights.cpp:10-36 | only the three weight tensors change, to drawn values of the right shapes |
| MlpNet.Mlp.Forward | libraries/mlp/forprop.cpp:9-36 | caches hold each layer's sums and sigmoids and the output the network output; nothing else changes |
| MlpNet.Mlp.Backward | libraries/mlp/backprop.cpp:11-94 | the delta-rule updates of all three tensors, then caches and output zero; the gradients are kept |
| MlpNet.Mlp.Backprop | libraries/mlp/backprop.cpp:100-148 | the gradients become `BackpropGradients` of the old state; a quiet state stays quiet with zero gradients |
| MlpNet.Mlp.BackwithL1 | libraries/mlp/backprop.cpp:151-214 | `backprop`, then the L1 step on every tensor; the caches are kept |
| MlpNet.Mlp.BackwithL2 | libraries/mlp/backprop.cpp:216-267 | `backprop`, then the L2 step on every tensor; the caches are kept |
| MlpNet.Mlp.RpropUpdate | libraries/mlp/backprop.cpp:294-336 | the sample error is the MSE, and the weights and memories follow `RpropSampleUpdate` |
| MlpNet.Mlp.RpropStep | libraries/mlp/backprop.cpp:288-336 | the row becomes the input; the weights, memories and steps become `RpropSampleStep` of the old weights (forward, the delta rule of `backward`, then the sign rule on the cleared caches); the caches and output end cleared and the error is the idle error; steps in [1e-6, 50] stay there |
| MlpNet.Mlp.RpropDescended | libraries/mlp/backprop.cpp:293-336 | on the cleared network the error is the idle error and the weights, memories and steps become `RpropAfterDescent`; steps stay in range |
| MlpNet.Mlp.RpropRowStep | libraries/mlp/backprop.cpp:288-336 | row k takes the state after rows 0..k-1 to the state after rows 0..k, with the idle error |
| MlpNet.Mlp.RpropPassRow | libraries/mlp/backprop.cpp:288-300 | as RpropRowStep, and the running error grows to (k+1) × idle error |
| MlpNet.Mlp.RpropEpoch | libraries/mlp/backprop.cpp:287-337 | one sample step per row: the total error is rows × idle error, the weights, memories and steps are those after every row in order, the steps stay in [1e-6, 50], and the last row is the input |
| MlpNet.Mlp.Rprop | libraries/mlp/backprop.cpp:275-345 | `status` is set exactly when an epoch runs on a non-empty dataset and the idle error is below 0.01; then one epoch runs, otherwise all of them; the weights are those of `RpropRun` after that many epochs; without an epoch or data nothing but `status` is read |
| MlpNet.Mlp.RpropLoop | libraries/mlp/backprop.cpp:286-343 | the epoch loop stops after one epoch exactly when the idle error is below 0.01, otherwise after all; the weights are those of `RpropRun` |
| MlpNet.Mlp.RpropRound | libraries/mlp/backprop.cpp:286-343 | one epoch takes `RpropRun(p)` to `RpropRun(p + 1)` with the memories and steps carried over from the previous epoch, and tests the idle error against 0.01 |
| Training.RpropSampleStep | libraries/mlp/backprop.cpp:288-336 | one rprop sample keeps the weight shapes and the steps in [1e-6, 50] |
| Training.RpropAfterDescent | libraries/mlp/backprop.cpp:293-336 | the sign-rule phase on the cleared network keeps the shapes and the steps in range |
| Training.RpropRows | libraries/mlp/backprop.cpp:288-337 | the samples of one epoch, in order, keep the shapes and the steps in range |
| Training.RpropRowsThrough | libraries/mlp/backprop.cpp:288-337 | the same through row k |
| Training.RpropRowsNext | libraries/mlp/backprop.cpp:288-337 | one more row is one more `RpropSampleStep` from the state the earlier rows left |
| Training.RpropRun | libraries/mlp/backprop.cpp:283-344 | after any number of epochs the shapes hold and every step is in [1e-6, 50] |
| MlpNet.Mlp.TrainRound | mlp/C++/train.cpp:13-18 | `mse` is the MSE of the network output under the old weights, and small exactly when below 1e-6; a small round keeps the weights and leaves its forward pass in the caches, any other applies the delta rule (`SampleStep`) and clears the caches |
| MlpNet.Mlp.Measure | mlp/C++/train.cpp:13-14 | the caches hold the forward pass and `mse` its MSE, small exactly when below 1e-6; the weights are kept |
| MlpNet.Mlp.RecordError | mlp/C++/train.cpp:14-15 | `mse` becomes the non-negative MSE of the output and is small exactly when below 1e-6 |
| MlpNet.Mlp.Descend | mlp/C++/train.cpp:18 | after a forward pass, `backward` makes the weights `SampleStep` of the old ones and clears the caches |
| MlpNet.Mlp.TrainRoundAt | mlp/C++/train.cpp:13-19 | round r measures `RoundError(r)` and, unless it is below 1e-6, moves the weights from `Rounds(r)` to `Rounds(r + 1)` |
| MlpNet.Mlp.Settle | mlp/C++/train.cpp:21-22 | `epochs` becomes the count; the final forward pass reproduces the output and leaves rows 0 to layers-2 of `hlayers` and `activations` as `Hidden` and its sigmoids |
| MlpNet.Mlp.Train | mlp/C++/train.cpp:10-23 | the weights are those after `rounds` delta-rule rounds, every earlier round erred at least 1e-6; on convergence `mse` is that round's error below 1e-6, `epochs == rounds` and rows 0 to layers-2 of the caches hold the final forward pass; a quiet state stays quiet |
| MlpNet.Mlp.TrainRounds | mlp/C++/train.cpp:12-20 | the loop ends with the weights of `Rounds(rounds)`, every earlier round at or above 1e-6 and, on convergence, `mse` below it |
| Training.SampleStep | mlp/C++/train.cpp:13-18 | one delta-rule step after a forward pass keeps the weight shapes |
| Training.DeltaRuleAfterForward | libraries/mlp/backprop.cpp:18-86 | the delta rule applied to the caches a forward pass leaves is `SampleStep` of the weights |
| Training.SampleStepAtTarget | mlp/C++/train.cpp:13-18 | a network whose output equals its target is left unchanged by a step |
| Training.DeltaRuleAtZeroError | libraries/mlp/backprop.cpp:18-86 | with output equal to expected, the delta rule returns the weights unchanged |
| Training.Rounds | mlp/C++/train.cpp:12-20 | the weights after r rounds keep the shapes |
| Training.RoundsAtTarget | mlp/C++/train.cpp:12-20 | at the target every number of rounds leaves the weights unchanged |
| Training.RoundErrorAtTarget | mlp/C++/train.cpp:12-20 | at the target every round measures zero error, so `train` stops in round 0 |
| MlpNet.Mlp.TrainSample | mlp/C++/train.cpp:36-47 | the row becomes the input; its error is the MSE of the network output under the old weights, non-negative; the weights become `SampleStep` of the old weights and the caches are cleared |
| MlpNet.Mlp.TrainPass | mlp/C++/train.cpp:34-48 | the running total and the weights are those of `Pass`: each row adds the MSE under the weights the earlier rows left, then takes its delta-rule step; the last row is the input |
| MlpNet.Mlp.TrainOn | mlp/C++/train.cpp:30-57 | the weights are those of `Passes` after the passes run; every pass but the last averaged at most 1e-7; it stops only on a non-empty input, storing in `mse` the never-reset running total divided by the row count after that pass, which is above 1e-7 |
| MlpNet.Mlp.TrainPassRow | mlp/C++/train.cpp:34-47 | row k takes `Pass(k)` to `Pass(k + 1)`: its MSE is added and its delta-rule step taken |
| MlpNet.Mlp.TrainEpoch | mlp/C++/train.cpp:34-51 | one pass and the division take `Passes(p)` to `Passes(p + 1)`; the last row is the input |
| MlpNet.Mlp.TrainEpochs | mlp/C++/train.cpp:33-55 | the loop ends with the total and weights of `Passes`, stopping only above 1e-7 after every earlier pass at or below it |
| Training.Average | mlp/C++/train.cpp:51 | the average of a non-negative total is non-negative |
| Training.RepeatedAverage | libraries/mlp/backprop.cpp:300-338 | n equal errors total n times the error, and average to it |
| Training.Pass | mlp/C++/train.cpp:34-48 | a pass keeps the weight shapes and never lowers the running total |
| Training.PassNext | mlp/C++/train.cpp:36-47 | row k adds the MSE of the output under the weights earlier rows left, then takes `SampleStep` |
| Training.Passes | mlp/C++/train.cpp:33-55 | the passes keep the weight shapes and a non-negative start gives a non-negative average |
| Training.PassesNext | mlp/C++/train.cpp:34-51 | pass p + 1 continues from the total and weights of pass p and divides by the row count |
| MlpNet.Mlp.Validate | mlp/C++/train.cpp:62-78 | zero vectors, a forward pass whose caches and output are stated, and the MSE of the result; the field `mse` and the weights are kept |
| MlpNet.Mlp.Test | mlp/C++/train.cpp:83-98 | zero vectors, a forward pass, caches set, weights kept |
| MlpNet.Mlp.GetL1Penalty | libraries/mlp/loss.cpp:11-21 | the L1 penalty of the inter-hidden weights, non-negative |
| MlpNet.Mlp.GetL2Penalty | libraries/mlp/loss.cpp:29-39 | the L2 penalty of the inter-hidden weights, non-negative |
| MlpNet.ComputeLossWithL1 | libraries/mlp/loss.cpp:52-58 | the absolute error plus half λ times the L1 penalty |
| MlpNet.ComputeLossWithL2 | libraries/mlp/loss.cpp:71-77 | half the squared error plus half λ times the L2 penalty |
| MlpNet.DropoutGeneralisation | libraries/mlp/loss.cpp:90-96 | the squared error over 1-p |
| CMlp.Count | mlp/C/loss.c:45-51 | a negative C loop bound counts as 0, any other as itself |
| CMlp.Net.constructor | mlp/C/mlp.c:12-65 | fresh zero buffers, zero caches and gradients, the drawn weights, sizes by the rule |
| CMlp.Net.InitializeWeights | mlp/C/weights.c:35-64 | only the three weight tensors change |
| CMlp.Net.Forward | mlp/C/forprop.c:10-43 | caches hold each layer's sums and sigmoids and the output buffer the network output |
| CMlp.Net.Backward | libraries/mlp/C/backprop.c:9-107 | the delta-rule updates; unlike C++, caches, output and gradients are kept |
| CMlp.Net.Backprop | libraries/mlp/C/backprop.c:112-160 | the gradients become `BackpropGradients`; a quiet state stays quiet |
| CMlp.Net.BackwithL1 | libraries/mlp/C/backprop.c:166-207 | `backprop`, then the L1 step on every tensor |
| CMlp.Net.BackwithL2 | libraries/mlp/C/backprop.c:209-260 | `backprop`, the L2 step, and a non-negative regularised loss of all outputs |
| CMlp.Net.RegularisedLoss | libraries/mlp/C/backprop.c:258 | the L2 loss of all outputs, non-negative |
| CMlp.Net.RpropPhase | libraries/mlp/C/backprop.c:298-314 | `oweights`, memory and steps follow `RpropMatrix`; nothing else changes |
| CMlp.Net.Evaluate | libraries/mlp/C/backprop.c:285-286 | the output is the network output under the old weights, and the weights become their delta-rule step `SampleStep` |
| CMlp.Net.Descend | libraries/mlp/C/backprop.c:9-107 | after a forward pass `backward` makes the weights `SampleStep` of the old ones and keeps the caches |
| CMlp.Net.RpropRound | libraries/mlp/C/backprop.c:285-314 | the error is the MSE of the forward output; the weights, `goweights` and steps become `CRpropEpoch` of the old state (the delta rule, then the sign rule on `oweights`); steps in [1e-6, 50] stay there |
| CMlp.Net.RpropFinish | libraries/mlp/C/backprop.c:288-314 | the error is the MSE of the output, and `oweights`, `goweights` and steps follow `RpropMatrix`; nothing else changes |
| CMlp.Net.RpropEpoch | libraries/mlp/C/backprop.c:284-321 | it reports convergence exactly when the MSE under the old weights divided by `epochs` is below 0.01; the new state is `CRpropEpoch` of the old one and the steps stay in range |
| CMlp.Net.Rprop | libraries/mlp/C/backprop.c:269-328 | the weights and `goweights` are those of `CRpropEpochs` after the epochs run; every epoch but the last missed the 0.01 test; `status` records whether the last passed it; an early stop means it passed; no epochs change nothing |
| CMlp.Net.RecordConverged | libraries/mlp/C/backprop.c:318-320 | `status` is set when the epoch converged; nothing else changes |
| CMlp.Net.RpropLoop | libraries/mlp/C/backprop.c:283-322 | the epoch loop ends with the state of `CRpropEpochs`, every earlier epoch missing and the result being the last test |
| CMlp.Net.RpropIterate | libraries/mlp/C/backprop.c:283-322 | the same loop, also returning the steps |
| CMlp.Net.RpropEpochAt | libraries/mlp/C/backprop.c:284-321 | epoch k takes `CRpropEpochs(k)` to `CRpropEpochs(k + 1)` and tests `CRpropError(k)` |
| CMlp.Net.RpropEpochAfter | libraries/mlp/C/backprop.c:284-321 | one turn of the epoch loop keeps the loop invariant |
| Training.CRpropEpoch | libraries/mlp/C/backprop.c:285-314 | one C epoch keeps the shapes and the steps in [1e-6, 50] |
| Training.FitsWithOutputWeights | libraries/mlp/C/backprop.c:298-313 | replacing the output matrix by one of the right shape keeps the network shape |
| Training.CRpropEpochs | libraries/mlp/C/backprop.c:283-322 | k epochs keep the shapes and the steps in range |
| Training.CRpropEpochsThrough | libraries/mlp/C/backprop.c:283-322 | the same through epoch k |
| Training.CRpropEpochsNext | libraries/mlp/C/backprop.c:284-321 | epoch k + 1 is `CRpropEpoch` of the state after k, and its error is the MSE under those weights |
| Training.CRpropMissedNext | libraries/mlp/C/backprop.c:316-321 | a missed epoch extends the run of missed epochs |
| Training.CRpropResume | libraries/mlp/C/backprop.c:283-322 | the state the loop holds before epoch k is `CRpropEpochs(k)`, with all earlier epochs missed |
| CMlp.Net.TrainRound | libraries/mlp/C/train.c:11-16 | `mse` is the MSE of the output under the old weights, small exactly when below 1e-6; a small round keeps the weights, any other applies the delta rule `SampleStep` |
| CMlp.Net.Measure | libraries/mlp/C/train.c:11-12 | the caches hold the forward pass and `mse` its MSE, small exactly when below 1e-6 |
| CMlp.Net.RecordError | libraries/mlp/C/train.c:12-13 | `mse` becomes the non-negative MSE of the output, small exactly when below 1e-6 |
| CMlp.Net.TrainRoundAt | libraries/mlp/C/train.c:11-17 | round r measures `RoundError(r)` and, unless it is below 1e-6, moves the weights to `Rounds(r + 1)` |
| CMlp.Net.Settle | libraries/mlp/C/train.c:19-20 | `epochs` becomes the count; the output is reproduced and rows 0 to layers-2 of `hlayers` and `activations` hold the final forward pass |
| CMlp.Net.Train | libraries/mlp/C/train.c:8-21 | the weights are those after `rounds` delta-rule rounds, and every earlier round erred at least 1e-6; on convergence `mse` < 1e-6 is that round's error, `epochs == rounds` and rows 0 to layers-2 of the caches hold the final forward pass; out of fuel, `fuel + 1` rounds ran, none below 1e-6 |
| CMlp.Net.TrainRounds | libraries/mlp/C/train.c:10-18 | the loop ends with the weights of `Rounds(rounds)` and every earlier round at or above 1e-6 |
| CMlp.Net.GetL1Penalty | mlp/C/loss.c:8-18 | the L1 penalty of the inter-hidden weights, non-negative |
| CMlp.Net.GetL2Penalty | mlp/C/loss.c:24-34 | the L2 penalty of the inter-hidden weights, non-negative |
| CMlp.ComputeLossWithL1 | mlp/C/loss.c:45-51 | the L1 loss over the first `size` entries |
| CMlp.ComputeLossWithL2 | mlp/C/loss.c:62-68 | the L2 loss over the first `size` entries |
| CMlp.DropoutGeneralisation | mlp/C/loss.c:78-84 | the dropout loss over the first `size` entries |
| CMlp.L2LossAsWritten | libraries/mlp/C/backprop.c:258 | it reads past the buffers exactly when `in` exceeds their length |
| CMlp.L2LossOverrunsWithTwoInputs | libraries/mlp/C/backprop.c:258 | two inputs and one output overrun |
| CMlp.L2LossAsWrittenDropsOutputs | libraries/mlp/C/backprop.c:258 | fewer inputs than outputs leaves the last outputs out of the loss |
| Linalg.Gram | maths/src/linalg/src/vec2.cpp:13-26 | |a|×|b| inner products |
| Linalg.DotReadsPrefix | maths/src/linalg/src/vec2.cpp:20-24 | a dot product reads only a prefix of its second argument |
| Linalg.DotSymmetric | maths/src/linalg/src/vec2.cpp:20-24 | the dot product of equal-length vectors is symmetric |
| Linalg.DotSelfNonneg | maths/src/linalg/src/vec2.cpp:20-24 | a vector dotted with itself is non-negative |
| Linalg.GramSymmetric | maths/src/linalg/src/vec2.cpp:13-26 | `iproduct(a)` is symmetric with a non-negative diagonal |
| Linalg.InnerProduct | maths/src/linalg/src/vec2.cpp:20-24 | the accumulation yields the dot product |
| Linalg.InnerProductRow | maths/src/linalg/src/vec2.cpp:42-46 | a row of inner products padded with zeros |
| Linalg.Iproduct | maths/src/linalg/src/vec2.cpp:13-26 | runtime_error exactly for no rows; otherwise the Gram matrix |
| Linalg.IproductAsWritten | maths/src/linalg/src/vec2.cpp:36-49 | it writes past a row exactly when b has more rows than b[0] has columns |
| Linalg.IproductOverrunsWithTwoRows | maths/src/linalg/src/vec2.cpp:40-46 | a concrete overrun |
| Linalg.IproductPadsWithZeroColumns | maths/src/linalg/src/vec2.cpp:40-46 | a concrete result with a zero column the Gram matrix lacks |
| Linalg.IproductPair | maths/src/linalg/src/vec2.cpp:36-49 | runtime_error exactly on no rows or unequal first rows; otherwise the |a|×|b| Gram matrix |
| Linalg.Mat.constructor | maths/src/linalg/include/mat.hpp:26 | counts zero, coefficients {{0}}, not described by the counts |
| Linalg.Mat.Sized | maths/src/linalg/include/mat.hpp:33-37 | x rows of y zeros |
| Linalg.Mat.Square | maths/src/linalg/include/mat.hpp:43-46 | the x×x zero matrix |
| Linalg.Mat.FromRows | maths/src/linalg/include/mat.hpp:52-58 | counts from b and its first row; described exactly when rectangular |
| Linalg.Mat.Copy | maths/src/linalg/include/mat.hpp:64-68 | an equal copy |
| Linalg.Mat.Move | maths/src/linalg/include/mat.hpp:76-82 | the contents taken over, the source counts zero |
| Linalg.Mat.AssignAsWritten | maths/src/linalg/src/mat.cpp:9-14 | `row` takes the column count and `col` is kept; a non-square source breaks the shape |
| Linalg.Mat.Assign | maths/src/linalg/src/mat.cpp:9-14 | both counts and the coefficients copied |
| Linalg.Mat.AssignRows | maths/src/linalg/src/mat.cpp:21-26 | counts from b and its first row, coefficients b |
| Linalg.AssignmentMiscountsRows | maths/src/linalg/src/mat.cpp:9-14 | a 2×3 assignment as written leaves 3 rows counted and 2 held |
| Linalg.AssignmentKeepsShape | maths/src/linalg/src/mat.cpp:9-14 | the corrected assignment keeps the 2×3 shape |

## Left out

- Floating point is not modelled: all arithmetic is over reals, so rounding, NaN and infinity are absent.
- The random generator (`std::mt19937`, `rand`, `normal_random`) is not modelled. The drawn weights are parameters of the constructors and of `initializeWeights`.
- MlpNet.Mlp.InitializeWeights: states only the shapes of the drawn tensors, not the scaling by (j+1) or the division by (k+1).
- CMlp.Net.InitializeWeights: the same weakening as the C++ version.
- `malloc`, NULL checks, `freeMLP` and memory release are not modelled; the model has no manual memory.
- Printing is not modelled. Two values the source only prints are returned instead: the regularised loss of the C `backwithL2` and the MSE of the C++ `validate`.
- The C `validate` and `test` are not modelled: they point the struct at stack buffers and free them.
- The RNN, CUDA and OpenCL code is not modelled.
- MlpNet.Mlp.Train: the source loops `while(1)`; the model runs at most `fuel` rounds.
- MlpNet.Mlp.TrainOn: the same `fuel` bound replaces the unbounded loop.
- CMlp.Net.Train: the source loops `while(1)`; the model runs at most `fuel + 1` error measurements and as many backward rounds, and reports `fuel + 1` when none of them was below 1e-6.
- Activations.SigmoidMatrix: requires a non-empty matrix, because the source reads `x[0]` to size its result.
- Activations.SigmoidDerMatrix: requires a non-empty matrix, because the source reads `x[0]` to size its result.
- Softmax.SoftmaxDerMatrixAsWritten: requires a non-empty, rectangular matrix, because the source reads `x[0]` and indexes every row by its width.
- CActivations.SoftmaxArray: requires `temperature != 0.0`, because the source divides by it.
- CActivations.SoftmaxDerArray: requires `temperature != 0.0`, because the source divides by it.
- CActivations.Softmax2D: requires `temperature != 0.0`, because the source divides by it.
- CActivations.SoftmaxDer2D: requires `temperature != 0.0`, because the source divides by it.
- MlpNet.Mlp.constructor: requires in >= 1 and out >= 1. The source builds a network with a zero count without fault. With both counts zero, `layers - 1` wraps around as unsigned. With `in + out == 1`, the forward pass reads row `layers - 2`, which wraps too. With one count zero and the other at least 2, the network has no neurons; the model's shape invariant, which every method relies on, does not admit such a network.
- CMlp.Net.constructor: the same precondition as the C++ constructor.
- MlpNet.Mlp.Rprop: requires in == 1 when an epoch runs on data, because with more inputs the `iweights` loop indexes `gradients` past its `out` rows.
- MlpNet.Mlp.RpropStep: requires in == 1 for the same reason.
- MlpNet.Mlp.RpropEpoch: requires in == 1 on a non-empty dataset for the same reason.
- MlpNet.Mlp.Rprop: requires every row to have `in` entries. `std::inner_product` over the input also accepts a shorter row and reads the weights only that far; such rows are not modelled.
- MlpNet.Mlp.RpropStep: requires the row to have `in` entries, for the same reason.
- MlpNet.Mlp.RpropEpoch: requires every row to have `in` entries, for the same reason.
- MlpNet.Mlp.TrainSample: requires the row to have `in` entries, for the same reason.
- MlpNet.Mlp.TrainPass: requires every row to have `in` entries, for the same reason.
- MlpNet.Mlp.TrainOn: requires every row to have `in` entries, for the same reason.
- MlpNet.Mlp.WithData: requires `expected` and `output` of equal length; the throw of the source on a mismatch is `MlpNet.Mlp.Create`.
- MlpNet.Mlp.WithData: requires non-empty `input` and `output`, which the source does not check. With a zero count `layers - 1` wraps around as unsigned.
- MlpNet.Mlp.Create: the same requirement of non-empty `input` and `output`.
- CMlp.Net.Rprop: states the weights, `goweights` and `status` after the epochs; the caches and output the last epoch leaves are not stated.
- The tensors are sequences: aliasing between rows of a `std::vector` or C buffer is not modelled.
- The constructors leave `mse` and `status` unspecified, as the source does.
- Errors.MSE: requires a non-empty input, because the source divides 0 by 0.
- Errors.RMSE: requires a non-empty input, for the same reason.
- CActivations.MSE: requires `size` > 0, because the source divides by `size`.
- CActivations.RMSE: requires `size` > 0, for the same reason.
- Lota.Lota: requires a non-zero lifted sum and a non-empty input. The source divides by zero or dereferences `end()` there.
- Lota.LotaMatrix: requires non-empty rows and a non-zero total, for the same reason.
- Lota.LotaBlock: requires a block inside the matrix and a non-zero total.
- Lota.LotaDerMatrix: requires non-empty rows and a non-zero total.
- Softmax.Softmax: requires a non-zero temperature, which the source divides by.
- MlpNet.DropoutGeneralisation: requires p != 1, which the source divides by.
- CMlp.DropoutGeneralisation: requires p != 1, for the same reason.
- Lota.LotaDer: requires a non-empty input and a non-zero lifted sum. The source dereferences `end()` or divides by zero there.
- Linalg.Mat.Square: requires a non-negative size, for the reason given for `Sized`.
- Linalg.Mat.Sized: requires non-negative sizes. A negative size throws `length_error` in `std::vector`, which is not modelled.
- Linalg.Iproduct: requires rows whose lengths allow the read. Ragged rows read past the end of a vector.
- Linalg.IproductPair: when the first rows agree in length, requires every row of `a` to be no longer than every row of `b`, because ragged rows read past the end of a vector. Inputs that throw are not restricted.
- Linalg.Mat.Move: the moved-from coefficients are modelled as empty. The C++ standard leaves them valid but unspecified.

## Findings

| source | as written | input that shows it | evidently intended | confidence | as-written member | corrected member |
|---|---|---|---|---|---|---|
| libraries/mlp/activations.cpp:121-144 | `softmaxder` subtracts every other y_j from y_i(1-y_i) | x = (0, 0), temp = 1 gives (-1/4, -1/4) | the documented derivative s_i(1-s_i) = (1/4, 1/4), within [0, 1/4] | high, not executed | Softmax.SoftmaxDerSignExample | Softmax.SoftmaxDiagonalDerBounds |
| libraries/mlp/activations.cpp:156-170 | the matrix `softmax` normalises `x` and returns the untouched copy `y` | [[0]] returns [[0]] | the normalised matrix, here [[1]] | high, not executed | Softmax.SoftmaxMatrixExample | Softmax.SoftmaxMatrixIsDistribution |
| libraries/mlp/activations.cpp:183-215 | the matrix `softmaxder` returns the untouched copy `y` | [[0, 0]] returns [[0, 0]] | s(1-s) per entry, here [[1/4, 1/4]] | high, not executed | Softmax.SoftmaxDerMatrixExample | Softmax.SoftmaxDerMatrixBounds |
| maths/src/linalg/src/mat.cpp:9-14 | `operator=` sets `row` twice, the second time to `m.col`, and never sets `col` | assigning a 2×3 matrix counts 3 rows for 2 held | both counts copied | high, not executed | Linalg.AssignmentMiscountsRows | Linalg.AssignmentKeepsShape |
| libraries/mlp/C/backprop.c:258 | the loss call passes `net->in` as the size of the `out`-entry buffers | in = 2, out = 1 reads a second entry of a one-entry buffer | `net->out` entries | high, not executed | CMlp.L2LossOverrunsWithTwoInputs | CMlp.Net.BackwithL2 |
| maths/src/linalg/src/vec2.cpp:36-49 | the result has `b[0].size()` columns but column j is written for every row j of `b` | a = [[1]], b = [[1], [2]] writes column 1 of a one-column row | a result of `b.size()` columns | high, not executed | Linalg.IproductOverrunsWithTwoRows | Linalg.IproductPair |
