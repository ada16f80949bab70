# Multilayer perceptron trainer, modelled in Dafny

This project models the trainer in `la1/imc/MultilayerPerceptron.cpp`: a fully connected
multilayer perceptron trained by online backpropagation with momentum, with early stopping
on the training error and a plain-text weight file.

In the C++ the network is a list of layers, and each layer is a list of neurons. Each neuron
holds:
- its activation `x`;
- its error signal `dX`;
- four vectors of length `n_{h-1} + 1`: `w`, `deltaW`, `lastDeltaW` and `wCopy`.

The model keeps the same state in the class `Perceptron.MultilayerPerceptron`:
- one `array<real>` per layer for activations and one for signals;
- one `array2<real>` per layer for each of the four weight vectors. Row `j` of a layer's
  matrix is neuron `j`'s vector. Its first `n_{h-1}` slots are the connections; its last slot
  is the bias weight.
- Layer 0 gets 0×0 matrices, since input neurons have no weights.

Every operation of the C++ except `initialize` is a method with the same loop nest:
- the layer loops live in module-level methods over the sequences of arrays (`ForwardLayer`,
  `AdjustAllWeights`, …);
- the neuron and slot loops live in the row methods (`AdjustRow`, …).

`initialize` keeps only its layer loop (`AllocateLayers`). Its neuron loop (:50-64), which sets
each neuron's activation and signal and allocates its four vectors, becomes one allocation per
layer: an array initialised to 1.0, an array initialised to 0.0, and four matrices.

Each method states its result against a pure model of the whole network. The model is the
datatype `NetworkModel.Net`, and the view `State()` maps the arrays to it. A typical contract
is `State() == Forward(nOfNeurons, old(State()), bias, sigma)`. The properties the source
promises are then proved about these functions as lemmas:
- the shape is kept;
- which slots change and to what;
- the error measures are non-negative and vanish exactly on a perfect fit;
- the early-stopping bookkeeping;
- the weight file round trip.

The modules are:
- `NetworkMath` covers single neurons and the error measures: the weighted sum, the sigmoid
  as a parameter `sigma`, the deltas, the momentum rule and the mean squared error.
- `NetworkModel` holds the value-level network and one function per operation of the trainer,
  up to a training epoch and a whole training run.
- `EarlyStopping` holds the do-while loop's bookkeeping, over the sequence of per-epoch
  training errors.
- `WeightLayout` covers the token layout of `saveWeights`/`readWeights`: the header, then the
  weights in layer, neuron, slot order.
- `Perceptron` holds the class and the in-place methods.

Numbers are exact `real`s. The sigmoid `1 / (1 + exp(-s))` is the constructor parameter
`sigma`, a function the model never evaluates. The random numbers of `randomWeights` are the
parameter `values`, and a weight file is a sequence of reals.

The source does not compile as written. Where its text cannot mean anything, the model
follows what the comments and the loop structure state:
- `randomWeights` (:93-102) reads `layers[i-1]` at `i = 0` and assigns to `w` rather than
  `w[k]`. It is modelled as filling every slot of layers 1 … L-1, in file order.
- The loop of `feedInputs` (:107) has no bound. It is modelled as running over the input
  layer.
- `copyWeights` and `restoreWeights` (:124, :132) assign pointers. They are modelled as
  element-wise copies, which is what the comments describe.
- `neurons` used as an index (:149, :206, :257) is read as `nOfNeurons`, the bias slot.
- `nOfNeurons[j].dX` (:178) is read as `neurons[j].dX`.
- `lasteltaW` (:223) is read as `lastDeltaW`.
- `initialize` writes `.out` and `.delta` (:51-52), where every other operation reads and writes
  `.x` and `.dX`. They are read as the same two fields, the activation and the error signal.
- `nofLayers` (:166) is read as `nOfLayers`.
- In `test`, `nOfPatrons` (:344, :350) is read as `nOfPatterns` and `entradas` (:346) as
  `inputs`.
- The Spanish-named calls (:262-266, :346-348) are read as the methods they translate:
  - `alimentarEntradas` is `feedInputs`;
  - `propagarEntradas` is `forwardPropagate`;
  - `retropropagarError` is `backpropagateError`;
  - `acumularCambio` is `accumulateChange`;
  - `ajustarPesos` is `weightAdjustment`;
  - `calcularErrorSalida` is `obtainError`;
  - `salida` (:152) is `out`.
- In `test` (:348), `pDatosTest->salidas[i]` is read as the targets of the data set passed in.

## Model

| member | source | states |
|---|---|---|
| Perceptron.MultilayerPerceptron.constructor | la1/imc/MultilayerPerceptron.cpp:26-33 | the configuration is η = 0.1, μ = 0.9, bias off, as :27-29 set it. The C++ leaves `nOfLayers` unset; the model's choice is to start with no layers. `nNumCapas = 3` (:30) sets a field nothing reads, and it is dropped |
| Perceptron.MultilayerPerceptron.Initialize | la1/imc/MultilayerPerceptron.cpp:39-66 | the network has the given layer sizes, every activation is 1.0 and every signal 0.0, all arrays are new and distinct, and every weight matrix of layer h ≥ 1 is n_h × (n_{h-1}+1) while layer 0 has none; η, μ and bias are kept |
| Perceptron.AllocateLayers | la1/imc/MultilayerPerceptron.cpp:43-65 | one fresh array of each kind per layer, activations 1.0, signals 0.0, weight matrices of the layer's shape, no two arrays shared |
| Perceptron.AllocateLayer | la1/imc/MultilayerPerceptron.cpp:45-63 | the arrays of one layer: fresh, distinct, of the layer's sizes, activations 1.0 and signals 0.0 |
| Perceptron.MultilayerPerceptron.RandomWeights | la1/imc/MultilayerPerceptron.cpp:93-102 | the weights become the given values laid out in file order (Unflatten); nothing else changes |
| Perceptron.StoreWeights | la1/imc/MultilayerPerceptron.cpp:94-101 | every layer's matrix becomes its part of the value sequence |
| Perceptron.StoreLayer | la1/imc/MultilayerPerceptron.cpp:95-99 | slot (j, k) of layer h gets the value at offset LayerStart(h) + j·(n_{h-1}+1) + k, and the next layer starts right after |
| Perceptron.MultilayerPerceptron.FeedInputs | la1/imc/MultilayerPerceptron.cpp:106-109 | exactly the layer-0 activations become the input; the rest of the network is unchanged |
| NetworkModel.FeedInputs | la1/imc/MultilayerPerceptron.cpp:106-109 | feeding inputs keeps the network's shape |
| Perceptron.MultilayerPerceptron.GetOutputs | la1/imc/MultilayerPerceptron.cpp:113-117 | the first n_{L-1} entries of the buffer are the output layer's activations, the rest of the buffer and the whole network are unchanged |
| Perceptron.MultilayerPerceptron.CopyWeights | la1/imc/MultilayerPerceptron.cpp:121-125 | wCopy becomes w, nothing else changes |
| Perceptron.MultilayerPerceptron.RestoreWeights | la1/imc/MultilayerPerceptron.cpp:129-134 | w becomes wCopy, nothing else changes |
| Perceptron.CopyMatrices | la1/imc/MultilayerPerceptron.cpp:122-124 | every destination matrix equals its source matrix |
| Perceptron.CopyMatrix | la1/imc/MultilayerPerceptron.cpp:124 | one matrix copied element-wise |
| NetworkModel.CopyThenRestore | la1/imc/MultilayerPerceptron.cpp:121-134 | restoring right after copying changes nothing and leaves w as it was; copying changes only wCopy |
| NetworkModel.RestoreTakesSnapshot | la1/imc/MultilayerPerceptron.cpp:129-134 | after restoring, w is the snapshot, and only w changed |
| NetworkModel.CopyWeights | la1/imc/MultilayerPerceptron.cpp:121-125 | the snapshot becomes the weights, and nothing else changes |
| NetworkModel.RestoreWeights | la1/imc/MultilayerPerceptron.cpp:129-134 | the weights become the snapshot, and nothing else changes |
| Perceptron.MultilayerPerceptron.ForwardPropagate | la1/imc/MultilayerPerceptron.cpp:138-158 | the network becomes Forward of the old one: layers 1 … L-1 in increasing order, each activation sigma of its net input |
| Perceptron.Propagate | la1/imc/MultilayerPerceptron.cpp:141-157 | every layer's activations are Activation(h) of the old layer-0 activations and the weights |
| Perceptron.ForwardLayer | la1/imc/MultilayerPerceptron.cpp:142-156 | the layer's activations are sigma of each neuron's net input from the layer below |
| Perceptron.NegatedNetInput | la1/imc/MultilayerPerceptron.cpp:144-149 | the running value `out` is minus the weighted sum plus, when the bias is on, minus the bias weight |
| NetworkModel.Forward | la1/imc/MultilayerPerceptron.cpp:138-158 | propagating keeps the network's shape |
| NetworkModel.ForwardLayers | la1/imc/MultilayerPerceptron.cpp:141-156 | layer 0 is untouched, layer h is LayerOut of layer h-1 and its weights, and only activations change |
| NetworkModel.ForwardUnique | la1/imc/MultilayerPerceptron.cpp:141-156 | any activations that agree with layer 0 and satisfy the layer-by-layer rule are the ones Forward computes |
| NetworkModel.ActivationMatches | la1/imc/MultilayerPerceptron.cpp:141-156 | activations built by the layer-by-layer rule match the closed form Activation at every layer |
| NetworkModel.ForwardInUnitInterval | la1/imc/MultilayerPerceptron.cpp:152 | with a sigmoid whose values lie in (0, 1), every activation of layers ≥ 1 lies in (0, 1) |
| NetworkMath.NetInputIgnoresBiasSlot | la1/imc/MultilayerPerceptron.cpp:144-149 | with the bias off, the bias slot does not affect the net input |
| NetworkMath.DotPrefix | la1/imc/MultilayerPerceptron.cpp:144-145 | the weighted sum reads only the first n weights |
| NetworkMath.DotInputPrefix | la1/imc/MultilayerPerceptron.cpp:144-145 | the weighted sum reads only the first n activations |
| NetworkMath.NetInput | la1/imc/MultilayerPerceptron.cpp:144-149 | the net input is the weighted sum over the previous layer extended by one input, 1.0 with the bias on and 0.0 with it off, weighted by the bias slot |
| NetworkModel.Activation | la1/imc/MultilayerPerceptron.cpp:141-156 | layer h's activations, from the inputs and the weights, have one entry per neuron |
| Perceptron.MultilayerPerceptron.ObtainError | la1/imc/MultilayerPerceptron.cpp:162-171 | the result is the mean squared error of the output layer against the target |
| NetworkMath.MeanSquaredErrorSpec | la1/imc/MultilayerPerceptron.cpp:162-171 | the mean squared error is ≥ 0, and 0 exactly when the output equals the target |
| NetworkMath.SquaredErrorNonNegative | la1/imc/MultilayerPerceptron.cpp:166-167 | the running sum of squares is ≥ 0 |
| NetworkMath.SquaredErrorZero | la1/imc/MultilayerPerceptron.cpp:166-167 | the sum of squares over the first n outputs is 0 exactly when they equal the targets |
| NetworkMath.SquareZero | la1/imc/MultilayerPerceptron.cpp:167 | a square is ≥ 0 and positive unless its base is 0 |
| NetworkMath.MeanSquaredError | la1/imc/MultilayerPerceptron.cpp:162-171 | the error of one output vector is never negative |
| Perceptron.MultilayerPerceptron.BackpropagateError | la1/imc/MultilayerPerceptron.cpp:176-193 | the network becomes Backpropagate of the old one; only the signals change |
| Perceptron.BackpropagateSignals | la1/imc/MultilayerPerceptron.cpp:177-192 | every layer h ≥ 1 gets the signal Delta(h); layer 0 keeps its signals when there is more than one layer |
| Perceptron.OutputSignals | la1/imc/MultilayerPerceptron.cpp:177-178 | the output signals are -(t_j - x_j)·x_j·(1 - x_j) |
| Perceptron.HiddenSignals | la1/imc/MultilayerPerceptron.cpp:185-191 | hidden signal j is (Σ_i w_{h+1,i}[j]·dX_{h+1,i})·x_j·(1 - x_j), with the running sum reset to 0 after each neuron |
| Perceptron.HiddenSignalsAt | la1/imc/MultilayerPerceptron.cpp:184-191 | layer h gets Delta(h) from layer h+1's signals, and every other layer keeps its signals |
| NetworkModel.Delta | la1/imc/MultilayerPerceptron.cpp:177-191 | the signals of layer h have one entry per neuron |
| NetworkModel.Backpropagate | la1/imc/MultilayerPerceptron.cpp:176-193 | backpropagating keeps the network's shape |
| NetworkModel.BackpropagateLayers | la1/imc/MultilayerPerceptron.cpp:176-193 | output signals come from the targets, layers L-2 down to 1 come from the layer above, layer 0 is untouched, and nothing but signals changes |
| NetworkMath.OutputDeltaSign | la1/imc/MultilayerPerceptron.cpp:178 | for an output in (0, 1), the output signal is 0 exactly when the output hits the target, and positive exactly when it overshoots |
| NetworkMath.OutputDelta | la1/imc/MultilayerPerceptron.cpp:178 | an output neuron's signal is 0 when its output hits the target, and 0 when the output is saturated at 0 or 1 |
| NetworkMath.HiddenDelta | la1/imc/MultilayerPerceptron.cpp:185-190 | a hidden neuron's signal is 0 when no error comes back from the layer above, and 0 when its output is saturated at 0 or 1 |
| Perceptron.MultilayerPerceptron.AccumulateChange | la1/imc/MultilayerPerceptron.cpp:198-209 | the network becomes Accumulate of the old one; only deltaW changes |
| Perceptron.AccumulateAllChanges | la1/imc/MultilayerPerceptron.cpp:199-208 | every layer's deltaW becomes AccumulateLayers of the old one |
| Perceptron.AccumulateLayerChanges | la1/imc/MultilayerPerceptron.cpp:200-207 | one layer's deltaW becomes AccumulateLayer of the old one |
| Perceptron.AccumulateRow | la1/imc/MultilayerPerceptron.cpp:201-206 | slot i of neuron j gains dX_j·x_{h-1,i}; the bias slot gains dX_j only when the bias is on; the other rows are unchanged |
| NetworkModel.AccumulateLayer | la1/imc/MultilayerPerceptron.cpp:200-207 | accumulating keeps the layer's shape |
| NetworkModel.AccumulateLayers | la1/imc/MultilayerPerceptron.cpp:199-208 | accumulating keeps the weight shape |
| NetworkModel.Accumulate | la1/imc/MultilayerPerceptron.cpp:198-209 | accumulating keeps the network's shape |
| NetworkModel.AccumulateLayerAt | la1/imc/MultilayerPerceptron.cpp:201-206 | slot by slot: the contribution on connections, the signal on the bias slot when the bias is on, unchanged otherwise |
| NetworkModel.AccumulateFromZero | la1/imc/MultilayerPerceptron.cpp:198-209 | after the reset and one accumulation, each deltaW[i] is exactly dX_j·x_{h-1,i} for that pattern (dX_j on the bias slot when the bias is on, and the bias slot untouched when it is off) |
| Perceptron.MultilayerPerceptron.WeightAdjustment | la1/imc/MultilayerPerceptron.cpp:213-228 | the network becomes Adjust of the old one; only w and lastDeltaW change |
| Perceptron.AdjustAllWeights | la1/imc/MultilayerPerceptron.cpp:214-226 | every layer's w and lastDeltaW become AdjustLayers and RememberLayers of the old ones |
| Perceptron.AdjustLayerAt | la1/imc/MultilayerPerceptron.cpp:214-226 | layer h is adjusted and every other layer's w, lastDeltaW and deltaW are unchanged |
| Perceptron.AdjustLayerWeights | la1/imc/MultilayerPerceptron.cpp:215-225 | one layer's w and lastDeltaW become AdjustLayer and RememberLayer of the old ones |
| Perceptron.AdjustRow | la1/imc/MultilayerPerceptron.cpp:216-224 | every trained slot of neuron j gets the momentum update and lastDeltaW := deltaW; an untrained slot, and every other row, is unchanged |
| NetworkModel.AdjustLayer | la1/imc/MultilayerPerceptron.cpp:215-225 | adjusting keeps the layer's shape |
| NetworkModel.RememberLayer | la1/imc/MultilayerPerceptron.cpp:216-223 | remembering keeps the layer's shape |
| NetworkModel.AdjustLayers | la1/imc/MultilayerPerceptron.cpp:214-226 | adjusting keeps the weight shape |
| NetworkModel.RememberLayers | la1/imc/MultilayerPerceptron.cpp:214-226 | remembering keeps the weight shape |
| NetworkModel.Adjust | la1/imc/MultilayerPerceptron.cpp:213-228 | adjusting keeps the network's shape |
| NetworkModel.AdjustSlots | la1/imc/MultilayerPerceptron.cpp:213-228 | deltaW, activations, signals and wCopy are unchanged; on a trained slot w gets the momentum update and lastDeltaW becomes deltaW; the bias slot with the bias off is untouched |
| NetworkMath.MomentumUpdate | la1/imc/MultilayerPerceptron.cpp:217 | with μ = 0 the rule is plain gradient descent w - η·deltaW; with no change now or before it leaves the weight alone |
| NetworkMath.MomentumUpdateSpec | la1/imc/MultilayerPerceptron.cpp:217-222 | the update is w - η·deltaW - μ·η·lastDeltaW; with μ = 0 it is plain gradient descent; with zero changes it leaves w alone |
| Perceptron.MultilayerPerceptron.ResetChanges | la1/imc/MultilayerPerceptron.cpp:251-259 | the network becomes ZeroGradients of the old one; only deltaW changes |
| Perceptron.ZeroAllChanges | la1/imc/MultilayerPerceptron.cpp:251-259 | every layer's deltaW becomes ZeroLayers of the old one |
| Perceptron.ZeroLayerChanges | la1/imc/MultilayerPerceptron.cpp:252-258 | one layer's deltaW becomes ZeroLayer of the old one |
| Perceptron.ZeroRow | la1/imc/MultilayerPerceptron.cpp:253-257 | every trained slot of neuron j becomes 0, the bias slot only when the bias is on; the other rows are unchanged |
| NetworkModel.ZeroLayer | la1/imc/MultilayerPerceptron.cpp:252-258 | the reset keeps the layer's shape |
| NetworkModel.ZeroLayers | la1/imc/MultilayerPerceptron.cpp:251-259 | the reset keeps the weight shape |
| NetworkModel.ZeroGradients | la1/imc/MultilayerPerceptron.cpp:251-259 | the reset keeps the network's shape |
| Perceptron.MultilayerPerceptron.PerformEpochOnline | la1/imc/MultilayerPerceptron.cpp:250-267 | the network becomes OnlineStep of the old one: reset, feed, propagate, backpropagate, accumulate, adjust |
| NetworkModel.OnlineStep | la1/imc/MultilayerPerceptron.cpp:250-267 | one pattern step keeps the network's shape and the snapshot |
| NetworkModel.OnlineStepActivations | la1/imc/MultilayerPerceptron.cpp:250-267 | after a pattern step, every layer's activations are those of the input under the old weights |
| NetworkModel.OnlineStepSlot | la1/imc/MultilayerPerceptron.cpp:250-267 | after a pattern step, deltaW is that pattern's gradient alone, lastDeltaW equals deltaW on trained slots, and the untrained bias slot keeps w and lastDeltaW |
| Perceptron.MultilayerPerceptron.TrainOnline | la1/imc/MultilayerPerceptron.cpp:333-338 | the network becomes Epoch of the old one: one pattern step per pattern, in order |
| Perceptron.MultilayerPerceptron.TrainNext | la1/imc/MultilayerPerceptron.cpp:335-337 | after pattern i the network is TrainOnline over the first i + 1 patterns |
| NetworkModel.TrainOnline | la1/imc/MultilayerPerceptron.cpp:333-338 | training on the first k patterns keeps the shape and the snapshot |
| NetworkModel.TrainOnlineLast | la1/imc/MultilayerPerceptron.cpp:335-337 | the last of k pattern steps keeps the shape and the snapshot |
| NetworkModel.TrainOnlineNext | la1/imc/MultilayerPerceptron.cpp:335-337 | training on k + 1 patterns is one more pattern step after training on k |
| NetworkModel.Epoch | la1/imc/MultilayerPerceptron.cpp:333-338 | an epoch keeps the shape and the snapshot |
| Perceptron.MultilayerPerceptron.PatternTest | la1/imc/MultilayerPerceptron.cpp:345-348 | the error of one pattern is PatternError under the current weights; only activations change |
| Perceptron.MultilayerPerceptron.TestNext | la1/imc/MultilayerPerceptron.cpp:344-349 | the running sum after pattern i is TestSum over the first i + 1 patterns, and the weights are unchanged |
| Perceptron.MultilayerPerceptron.Test | la1/imc/MultilayerPerceptron.cpp:342-352 | the result is TestError, the sum of the per-pattern errors divided by the number of patterns; only activations change |
| NetworkModel.PatternErrors | la1/imc/MultilayerPerceptron.cpp:344-349 | one error per pattern |
| NetworkModel.PatternError | la1/imc/MultilayerPerceptron.cpp:345-348 | one pattern's error is never negative |
| NetworkModel.TestSum | la1/imc/MultilayerPerceptron.cpp:343-349 | the running sum of test is never negative |
| NetworkModel.TestSumLast | la1/imc/MultilayerPerceptron.cpp:348 | the running sum after a pattern is at least that pattern's error |
| NetworkModel.TestError | la1/imc/MultilayerPerceptron.cpp:342-352 | the test error is never negative |
| NetworkModel.PatternErrorSpec | la1/imc/MultilayerPerceptron.cpp:345-348 | a pattern's error is obtainError after feedInputs and forwardPropagate, and it is ≥ 0 |
| NetworkModel.TestSumNext | la1/imc/MultilayerPerceptron.cpp:348 | the running sum grows by the next pattern's error |
| NetworkModel.TestSumSpec | la1/imc/MultilayerPerceptron.cpp:344-349 | the running sum over k patterns is the sum of the first k per-pattern errors |
| NetworkModel.TestErrorMean | la1/imc/MultilayerPerceptron.cpp:342-352 | the test error is the mean of the per-pattern errors |
| NetworkModel.TestErrorSpec | la1/imc/MultilayerPerceptron.cpp:342-352 | the test error is ≥ 0, and 0 exactly when the network reproduces every target |
| NetworkMath.SumPrefix | la1/imc/MultilayerPerceptron.cpp:348 | adding the next element extends a prefix sum |
| NetworkMath.SumNonNegative | la1/imc/MultilayerPerceptron.cpp:343-349 | a sum of non-negative terms is ≥ 0, and 0 exactly when every term is 0 |
| NetworkMath.MeanNonNegative | la1/imc/MultilayerPerceptron.cpp:350 | a mean of non-negative terms is ≥ 0, and 0 exactly when every term is 0 |
| Perceptron.MultilayerPerceptron.RunOnlineBackPropagation | la1/imc/MultilayerPerceptron.cpp:386-461 | training starts from the random weights. The history is a valid run. It has at least one epoch, and more than maxiter only when maxiter < 1. It stops exactly at maxiter epochs or when the counter reached 50, and the counter never exceeds 50. errorTrain is the smallest training error, which is the error of the snapshot epoch. The snapshot is that epoch's weights and is restored on early exit. errorTest is the test error of the final weights |
| Perceptron.MultilayerPerceptron.TrainThenTest | la1/imc/MultilayerPerceptron.cpp:404-460 | the loop and the final test from the current weights, with every promise of RunOnlineBackPropagation except the random start |
| Perceptron.MultilayerPerceptron.TrainLoop | la1/imc/MultilayerPerceptron.cpp:406-436 | the do-while loop: the epochs form a run, no epoch before the last one stopped it, it ends at maxiter or exhaustion, minTrainError is the tracked minimum, and the weights are the snapshot on exhaustion and the last epoch's otherwise |
| Perceptron.MultilayerPerceptron.Advance | la1/imc/MultilayerPerceptron.cpp:406-436 | one pass of the loop extends the run by one epoch, keeps the bookkeeping equal to Trace of the errors, and computes the loop condition `countTrain < maxiter` after the forced exit |
| Perceptron.MultilayerPerceptron.TrainStep | la1/imc/MultilayerPerceptron.cpp:408-425 | one epoch extends the run, the new bookkeeping is Trace of the longer error sequence, stopping happens exactly on exhaustion, and the snapshot holds the best epoch's weights |
| Perceptron.MultilayerPerceptron.TrainEpoch | la1/imc/MultilayerPerceptron.cpp:408-409 | trainOnline then test on the training set extends the run by this epoch, whose error is the test error of the trained weights; the snapshot is untouched |
| Perceptron.MultilayerPerceptron.TrainAndTest | la1/imc/MultilayerPerceptron.cpp:408-409 | the network becomes Epoch of the old one, apart from the activations that test leaves, and the result is TestError of the trained weights on the training set |
| Perceptron.MultilayerPerceptron.CheckProgress | la1/imc/MultilayerPerceptron.cpp:410-425 | minTrainError and the counter follow Update; the weights are snapshotted exactly on the first epoch or a strict improvement; at 50 the snapshot is restored and the loop is told to stop |
| NetworkModel.RunSnoc | la1/imc/MultilayerPerceptron.cpp:406-436 | a run extended by one more epoch from the network the last epoch left is still a run |
| NetworkModel.ContinuesSnapshot | la1/imc/MultilayerPerceptron.cpp:410-425 | taking or restoring a snapshot does not break the chain of epochs |
| EarlyStopping.TraceSpec | la1/imc/MultilayerPerceptron.cpp:410-418 | after the epochs so far, minTrainError is the minimum error, the snapshot is the first epoch that reached it, and the counter is the number of trailing epochs worse than the best before them by at least 0.00001 |
| EarlyStopping.MinTrainError | la1/imc/MultilayerPerceptron.cpp:410-413 | errorTrain, which is minTrainError, is the smallest training error, and the snapshot epoch has that error |
| EarlyStopping.CounterBound | la1/imc/MultilayerPerceptron.cpp:414-426 | while the loop goes on the counter stays within 0 … 50 |
| EarlyStopping.MinOfNonIncreasing | la1/imc/MultilayerPerceptron.cpp:410-413 | the best error so far never increases from one epoch to the next |
| EarlyStopping.MinOfSpec | la1/imc/MultilayerPerceptron.cpp:410-413 | the minimum is one of the errors and no error is below it |
| EarlyStopping.FirstEpoch | la1/imc/MultilayerPerceptron.cpp:410-413 | the first epoch always takes the snapshot and clears the counter |
| EarlyStopping.TraceSnoc | la1/imc/MultilayerPerceptron.cpp:406-436 | the bookkeeping after one more epoch is one Update of the bookkeeping before it |
| EarlyStopping.ContinuedSnoc | la1/imc/MultilayerPerceptron.cpp:436 | an epoch that the loop condition lets through extends a run that has not stopped |
| EarlyStopping.Update | la1/imc/MultilayerPerceptron.cpp:410-418 | one epoch's check: after the first epoch the best error becomes the minimum of the old one and this epoch's; the counter grows by at most one, and it is positive exactly when the epoch does not improve and is worse than the best by at least 0.00001 |
| EarlyStopping.Trace | la1/imc/MultilayerPerceptron.cpp:406-436 | after k epochs the bookkeeping has counted k epochs, and the snapshot epoch and the counter are both below k |
| EarlyStopping.Exhausted | la1/imc/MultilayerPerceptron.cpp:420-424 | the counter can reach 50 only after more than 50 epochs |
| EarlyStopping.Continued | la1/imc/MultilayerPerceptron.cpp:436 | when more than one epoch ran, there were no more than maxiter of them and the counter had not reached 50 before the last |
| EarlyStopping.NoImprovementTrace | la1/imc/MultilayerPerceptron.cpp:410-418 | when no epoch after the first comes within 0.00001 of the first, after k epochs the counter is k - 1 and the snapshot is still the first epoch |
| EarlyStopping.NoImprovementStops | la1/imc/MultilayerPerceptron.cpp:410-426 | in that case training stops right after epoch 51 and not before, and the weights it restores are the first epoch's |
| Perceptron.MultilayerPerceptron.SaveWeights | la1/imc/MultilayerPerceptron.cpp:465-490 | the tokens written are the header followed by the weights in file order (Save) |
| Perceptron.AppendWeights | la1/imc/MultilayerPerceptron.cpp:481-484 | the weights of layers 1 … L-1 are appended in layer, neuron, slot order (Flatten) |
| Perceptron.AppendLayer | la1/imc/MultilayerPerceptron.cpp:482-484 | one layer's weights are appended neuron by neuron, slot by slot |
| Perceptron.MultilayerPerceptron.ReadWeights | la1/imc/MultilayerPerceptron.cpp:495-529 | it succeeds exactly when Read does. On success the network has the file's topology and weights and keeps η, μ and bias; as after `initialize`, all its arrays are new, every activation is 1.0 and every signal 0.0. On failure nothing changes |
| Perceptron.MultilayerPerceptron.Load | la1/imc/MultilayerPerceptron.cpp:517-523 | after `initialize` and the weight loop, the network has the given topology and the weights Unflatten of the values, on new arrays with activations 1.0 and signals 0.0 |
| Perceptron.ParseHeader | la1/imc/MultilayerPerceptron.cpp:504-514 | the header loop yields exactly ReadHeader of the tokens |
| WeightLayout.ReadHeader | la1/imc/MultilayerPerceptron.cpp:504-514 | a header that is read has its L + 1 tokens in the file |
| WeightLayout.Header | la1/imc/MultilayerPerceptron.cpp:474-478 | the header is L + 1 tokens |
| WeightLayout.LayerRuns | la1/imc/MultilayerPerceptron.cpp:481-484 | one run of weights per layer |
| WeightLayout.Unflatten | la1/imc/MultilayerPerceptron.cpp:520-523 | weights read from enough values have the network's shape |
| WeightLayout.WeightCountFormula | la1/imc/MultilayerPerceptron.cpp:481-484 | the file holds Σ_{h≥1} n_h·(n_{h-1}+1) weights, none for fewer than two layers |
| WeightLayout.FlattenLength | la1/imc/MultilayerPerceptron.cpp:481-484 | exactly WeightCount weights are written |
| WeightLayout.FlattenIndex | la1/imc/MultilayerPerceptron.cpp:481-484 | weight (h, j, k) sits at Offset(h, j, k) of the written sequence |
| WeightLayout.OffsetBound | la1/imc/MultilayerPerceptron.cpp:481-484 | the offset of a slot of layer h lies before the start of layer h + 1, which is within the file |
| WeightLayout.LayerStartMonotone | la1/imc/MultilayerPerceptron.cpp:481-484 | later layers start later |
| WeightLayout.LayerStartPrefix | la1/imc/MultilayerPerceptron.cpp:481-484 | where a layer starts depends only on the layers before it |
| WeightLayout.UnflattenRow | la1/imc/MultilayerPerceptron.cpp:520-523 | neuron j of layer h reads its n_{h-1}+1 values from offset Offset(h, j, 0) |
| WeightLayout.UnflattenFlatten | la1/imc/MultilayerPerceptron.cpp:520-523 | reading back written weights, whatever follows them, gives the same weights |
| WeightLayout.FlattenUnflatten | la1/imc/MultilayerPerceptron.cpp:520-523 | writing read weights gives back the first WeightCount values |
| WeightLayout.ReadHeaderSave | la1/imc/MultilayerPerceptron.cpp:508-514 | reading a written header gives back the topology |
| WeightLayout.ReadSave | la1/imc/MultilayerPerceptron.cpp:465-529 | reading a saved network, whatever follows it, gives back the same topology and weights |
| WeightLayout.HeaderReadHeader | la1/imc/MultilayerPerceptron.cpp:508-514 | a header that reads writes back as the same tokens |
| WeightLayout.ReadSpec | la1/imc/MultilayerPerceptron.cpp:495-529 | whatever reads successfully is a shaped network whose saved form is a prefix of the file |
| WeightLayout.Flatten | la1/imc/MultilayerPerceptron.cpp:481-484 | no layers write nothing, and the last layer's weights come last |
| WeightLayout.Save | la1/imc/MultilayerPerceptron.cpp:465-490 | the file is the header and the weights, and its header reads back as the topology |
| WeightLayout.Read | la1/imc/MultilayerPerceptron.cpp:495-529 | a successful read has the header's topology, weights of that shape, and a file long enough for all of them |

## Left out

- Floating point, `exp` and `pow`: numbers are exact reals. The sigmoid is the parameter
  `sigma`, and `pow(d, 2)` is `d * d`.
- Randomness: `randomDouble(-1, 1)` is replaced by the parameter `values`. The model does not
  require the values to lie in [-1, 1].
- File and console I/O:
  - `saveWeights` and `readWeights` work on a sequence of tokens. Opening, closing and
    number formatting are not modelled, nor is the `false` they return when the file does not
    open.
  - `printNetwork`, `predict` and the `cout` reports are not modelled.
  - The loop that prints the test predictions (:442-456) changes only activations, which
    `test` overwrites, so leaving it out changes neither the weights nor the errors.
- `readData` (:271-329) is `ifstream` parsing; data sets are the datatype `Dataset`.
- The validation split (:397-402) is an empty stub.
- Memory management is not modelled: the destructor, `freeMemory` and the `NULL` checks of
  `initialize` (:46-48, :60-62), since allocation cannot fail here.
- Perceptron.MultilayerPerceptron.Initialize: the weight vectors' contents are left
  unspecified, because `new double[]` leaves them uninitialized. The missing return value is
  not modelled.
- Perceptron.MultilayerPerceptron.ReadWeights: it fails when a header entry is not a natural
  number or the file has too few values. The C++ does not check and would go on with garbage.
- Perceptron.MultilayerPerceptron.Test: it requires at least one pattern. The C++ divides 0 by
  0 there and yields NaN, which has no counterpart among the reals.
  RunOnlineBackPropagation has the same requirement for both data sets.
- Perceptron.MultilayerPerceptron.ObtainError: it requires a non-empty output layer, for the
  same reason.
- `iterWithoutImproving` starts uninitialized in the C++ (:394). The model starts it at 0.
  Nothing depends on this, because the first epoch always takes the snapshot branch and
  resets it.
- The loop of `runOnlineBackPropagation` is split into helper methods. `TrainEpoch`,
  `TrainAndTest`, `CheckProgress`, `TrainStep` and `Advance` cover one pass, `TrainLoop` the
  do-while, and `TrainThenTest` everything after `randomWeights`. `Load` is the end of
  `readWeights`. They perform the same statements in the same order.
- Integer width is not modelled. Sizes and counters are unbounded `int`s and `nat`s:
  - Perceptron.MultilayerPerceptron.RunOnlineBackPropagation and Advance: on the forced exit,
    `countTrain = maxiter; countTrain++` (:423, :427) is signed overflow in the C++ when
    `maxiter` is `INT_MAX`; the model's count simply goes one past it.
  - Perceptron.MultilayerPerceptron.Initialize: the layer sizes are `nat`s, so a negative
    `npl[i]`, which the C++ would pass to `new Neuron[...]` (:45), cannot occur.
