# neuralnet in Dafny

A model of the core of ANDRVV/neuralnet, a small feed-forward neural network in C++. The model covers three parts of the library:

- **Activation kernel.** `sigmoid`, `dx_sigmoid`, `swish`, `dx_swish` and He initialisation (`genHe`).
- **Neurons and topology.** The `Neuron` type, with weights, a stored prediction and a bias, and `Neuron::predict`. Also the `DeepLayers` builder, which turns a `LayerLayout` into hidden layers and an output layer and records `TotalLogicLayers` and `TotalNeurons`.
- **The `DeepNetwork` trainer.** Its members are:
  - `_get_predicts` and `forward`;
  - `_update_wb`, which applies a gradient step clipped to ±10;
  - `_calc_loss_gradient` and `_layer_backward`;
  - `backward`, with its fixed layer order: the output layer, then hidden layers `H-2` down to 1, then hidden layer 0, all scored against the example's target;
  - the drivers `Train` and `GetOutput`.

Values are `real`. `sigmoid` is abstract: `Logistic` is the type of real functions whose values lie strictly between 0 and 1.

The model has four modules:

| module | file | models |
|---|---|---|
| `Activation` | `activation.dfy` | `src/mathfuncs.hpp` |
| `Neurons` | `neurons.dfy` | `src/neurons.hpp` |
| `NetworkSpec` | `network_spec.dfy` | `src/neuralnet.hpp`, as functions on values |
| `NeuralNet` | `neuralnet.dfy` | `src/neuralnet.hpp`, as the class `DeepNetwork` |

**How the source is mapped.**

- **A neuron is a `datatype`.** The source stores neurons by value in `std::vector`s.
- **Routines on one neuron are methods that return the updated neuron.** These are `predict`, `initNeuron` and `_update_wb`. Each method's loop is proved to compute the function that specifies it.
- **`DeepNetwork` is a `class`.** Its fields `hiddenLayers: seq<seq<Neuron>>` and `outputLayer: seq<Neuron>` are reassigned by `Forward`, `Backward`, `Train` and `GetOutput`. Each method's `ensures` ties the new layers to a function of the old ones: `ForwardPass`, `BackwardPass`, `Trained` and `Output`.
- **`backward` is described as a plan.** The plan is an explicit ordered list of layer updates, `BackwardPlan`, applied by the fold `RunPlan`. Lemmas then state which layers are updated:
  - each updated layer is updated exactly once;
  - each is fed a stated vector;
  - none is fed the predictions of a layer already updated;
  - the last hidden layer is never updated when there are two or more hidden layers.
- **Frame conditions are equalities of views.** The views are:
  - `Shape`, the weight count of every neuron;
  - `ParamsOf`, the weights and biases;
  - `PredictionsOf`, the stored predictions.

  `forward` changes only predictions, and `backward` changes only weights and biases.
- **The C++ leaves out-of-range reads unchecked. The model states them as `requires` clauses.** They are:
  - `|inputs| <= |weights|` for `predict`;
  - `|weights| <= |prev|` for `_update_wb`;
  - `|layer| <= |target|` for `_layer_backward`.

  These are collected in `ForwardFits`, `BackwardFits` and `AllFit`. `ChainedFits` shows that a network with the builder's fan-in chain meets them for any example whose input has the first layer's width and whose target is at least as long as every layer.

**Behaviour of the code that the model keeps.**

- **Zero sizes.** The `DeepLayers` constructor does not reject zero sizes, so the model accepts them. A negative size is excluded by a `requires`: `resize` would throw, and since the constructors are `noexcept` (src/neurons.hpp:24, 63) that terminates the program.
- **Initial bias and prediction.** The constructor `Neuron(int)` never sets `bias` or `predicted`, whatever the comment at src/neurons.hpp:54 says. Both start indeterminate, so the model takes them as parameters (`InitDraw`).
- **Input length for `predict`.** `predict` needs only `|inputs| <= |weights|`, because its loop is bounded by the input length.
- **The last hidden layer in `backward`.** With two or more hidden layers, `backward` never updates the last hidden layer: the loop starts at `size() - 2`, the second-to-last layer. With one hidden layer, `size() - 2` is `-1` as an `int`, the loop does not run, and the only hidden layer is updated from the raw input. The model reproduces both cases (`BackwardSkipsLastHidden`, `BackwardFirstHidden`).
- **Learning rate.** The learning rate is the constant 0.03. Nothing in the source changes it.
- **`Train` with no epochs.** `Train(dataset, epochs)` with `epochs <= 0` never reads the dataset, so only a positive epoch count requires the examples to fit.

## Model

| member | source | states |
|---|---|---|
| Activation.DxSigmoid | src/mathfuncs.hpp:15-18 | the derivative written in terms of a logistic output `y` is at most 1/4, and is 0 at `y == 0` and at `y == 1` |
| Activation.DxSigmoidPositive | src/mathfuncs.hpp:15-18 | strictly inside (0, 1) the derivative is positive |
| Activation.Swish | src/mathfuncs.hpp:20-23 | defines `swish(v)` as `v * sigma(v)`; its sign and size are stated by SwishShape |
| Activation.SwishShape | src/mathfuncs.hpp:20-23 | `swish(0) == 0`; for `v != 0`, `swish(v)` has the sign of `v` and lies strictly between 0 and `v`, so its magnitude is below that of `v` |
| Activation.DxSwish | src/mathfuncs.hpp:25-29 | defines `dx_swish(v)` as `s + v * s * (1 - s)` with `s = sigma(v)`, at the value passed; its properties are stated by DxSwishSplit and DxSwishShape |
| Activation.DxSwishSplit | src/mathfuncs.hpp:25-29 | `dx_swish(v)` is `s + v * dx_sigmoid(s)` with `s = sigmoid(v)`, evaluated at whatever value is passed |
| Activation.DxSwishShape | src/mathfuncs.hpp:25-29 | `dx_swish(0) == sigmoid(0)`; `dx_swish(v)` lies on the side of `sigmoid(v)` given by the sign of `v`, and at most a quarter of the magnitude of `v` away from it |
| Activation.UnitDraw | src/mathfuncs.hpp:34 | a draw in [0, RAND_MAX] maps into [-1, 1] |
| Activation.GenHe | src/mathfuncs.hpp:31-35 | the He value is `-c` for draw 0 and `c` for draw RAND_MAX, where `c` is the scale with `c * c == 2 / n` |
| Activation.GenHeBound | src/mathfuncs.hpp:31-35 | for a fan-in `n > 0` the He value lies in `[-c, c]` |
| Activation.GenHeSquareBound | src/mathfuncs.hpp:31-35 | for a fan-in `n > 0` the square of the He value is at most `2 / n` |
| Neurons.Dot | src/neurons.hpp:30-33 | the left-to-right sum of `inputs[i] * weights[i]` over the input indices, 0 for an empty input |
| Neurons.DotStep | src/neurons.hpp:31-33 | one iteration of the accumulation loop adds `inputs[i] * weights[i]` to the sum of the earlier terms |
| Neurons.DotZero | src/neurons.hpp:30-33 | an all-zero input contributes 0 whatever the weights |
| Neurons.DotIgnoresExtraWeights | src/neurons.hpp:31-33 | weights beyond the input length are never read |
| Neurons.Activated | src/neurons.hpp:28-35 | defines the neuron after `predict`: `predicted` is `swish(Dot + bias)` and nothing else changes; Predict is proved to compute it |
| Neurons.Predict | src/neurons.hpp:28-35 | `predicted` becomes `swish` of the bias plus the sum of `inputs[i] * weights[i]` over every input index; weights and bias are unchanged; requires no more inputs than weights |
| Neurons.ActivatedOnZeroInput | src/neurons.hpp:28-35 | on an all-zero input the activation is `swish(bias)`, and exactly 0 when the bias is 0 |
| Neurons.Prototype | src/neurons.hpp:47-56 | the neuron for fan-in `k` has exactly `k` weights, all equal to one He value, so all lie in `[-c, c]` when `k > 0` |
| Neurons.InitNeuron | src/neurons.hpp:47-56 | the weight-filling loop yields exactly that prototype neuron |
| Neurons.Replicate | src/neurons.hpp:65 | `resize(count, proto)` on an empty vector gives `count` copies of `proto` |
| Neurons.Sum | src/neurons.hpp:75-78 | the running total of hidden sizes is non-negative when every size is |
| Neurons.Topology | src/neurons.hpp:63-89 | defines the layers the constructor builds: each hidden layer and the output layer are copies of one prototype with the preceding size as fan-in; its shape is stated by TopologyShape |
| Neurons.HiddenLayerOf | src/neurons.hpp:74-81 | hidden layer `i` has `qtyHiddenLayers[i]` neurons, copies of the prototype for its fan-in |
| Neurons.BuildDeepLayers | src/neurons.hpp:63-89 | the constructor builds `Topology(layout)`, with `TotalLogicLayers` one more than the number of hidden sizes and `TotalNeurons == sum of hidden sizes + qtyOutputs`, in both branches |
| Neurons.TopologyShape | src/neurons.hpp:63-89 | there is one hidden layer per size with that many neurons, and `qtyOutputs` output neurons; the fan-in chain is the input count for layer 0, size `i-1` for layer `i`, and the last hidden size (the input count without hidden layers) for the output layer |
| Neurons.TopologyLayerUniform | src/neurons.hpp:74-84 | all neurons of a layer are copies of one prototype, and all weights of a neuron are equal |
| Neurons.TopologyOutputUniform | src/neurons.hpp:65-84 | the output layer likewise consists of copies of one prototype, in both branches of the constructor |
| Neurons.TopologyCount | src/neurons.hpp:69-87 | `TotalNeurons` equals the number of neurons actually built |
| NetworkSpec.Predicts | src/neuralnet.hpp:25-32 | the stored predictions of a layer, one per neuron, in neuron order |
| NetworkSpec.ParamsDetermineShape | src/neuralnet.hpp:34-63 | equal weights and biases mean equal weight counts, so a pass that keeps parameters keeps dimensions |
| NetworkSpec.SameShapeCount | src/neurons.hpp:86-87 | a dimension-preserving change keeps the neuron count, so the stored `TotalNeurons` stays accurate |
| NetworkSpec.PredictLayer | src/neuralnet.hpp:38-40 | predicting a whole layer changes no weight or bias |
| NetworkSpec.ForwardHidden | src/neuralnet.hpp:42-54 | the hidden pass keeps the number of hidden layers and every weight and bias |
| NetworkSpec.ForwardHiddenAt | src/neuralnet.hpp:42-54 | hidden layer 0 predicts from the input, and layer `i > 0` from the predictions layer `i-1` has just stored |
| NetworkSpec.ForwardPass | src/neuralnet.hpp:34-63 | `forward` changes only stored predictions: weights, biases and dimensions are kept |
| NetworkSpec.ForwardPassEffect | src/neuralnet.hpp:34-63 | without hidden layers the output layer predicts from the raw input; otherwise layer 0 from the input, layer `i` from the new predictions of layer `i-1`, and the output layer from those of the last hidden layer |
| NetworkSpec.ForwardHiddenIgnoresPredictions | src/neuralnet.hpp:42-54 | the hidden pass does not depend on the predictions stored before it |
| NetworkSpec.ForwardIgnoresPredictions | src/neuralnet.hpp:34-63 | two networks differing only in stored predictions forward to the same network |
| NetworkSpec.ForwardIdempotent | src/neuralnet.hpp:34-63 | forwarding the same input twice equals forwarding it once |
| NetworkSpec.Output | src/neuralnet.hpp:146-154 | the result has one value per output neuron |
| NetworkSpec.OutputDeterminedByParams | src/neuralnet.hpp:146-154 | the output depends only on the input, the weights and the biases |
| NetworkSpec.OutputRepeatable | src/neuralnet.hpp:146-154 | a second `GetOutput(x)` with no training in between returns what the first returned |
| NetworkSpec.Clip | src/neuralnet.hpp:68-71 | the clipped step lies in [-10, 10]; it equals its argument exactly when the argument's magnitude is at most 10, and otherwise has magnitude 10 and the argument's sign |
| NetworkSpec.ClipMonotone | src/neuralnet.hpp:68-71 | clipping is monotone and never moves a value away from 0 |
| NetworkSpec.ClippedStep | src/neuralnet.hpp:67-71 | the step magnitude is at most 10; it is 0 when `delta == 0`; it is exactly `learnRate * delta` when that magnitude is at most 10 |
| NetworkSpec.Stepped | src/neuralnet.hpp:72-76 | a weight step keeps the weight count and `predicted`, and a zero step changes nothing |
| NetworkSpec.LossGradient | src/neuralnet.hpp:79-82 | the gradient is 0 when the prediction equals the target |
| NetworkSpec.LossGradientSign | src/neuralnet.hpp:79-82 | for a non-negative prediction the gradient has the sign of `predict - target` |
| NetworkSpec.BackwardLayer | src/neuralnet.hpp:84-93 | `_layer_backward` keeps every weight count and every stored prediction of its layer |
| NetworkSpec.BackwardLayerAtTarget | src/neuralnet.hpp:84-93 | a neuron whose prediction equals its target is left unchanged |
| NetworkSpec.BackwardPlan | src/neuralnet.hpp:95-131 | the plan has `H + 1` steps for `H <= 1` and `H` steps otherwise |
| NetworkSpec.BackwardPlanAt | src/neuralnet.hpp:100-129 | step 0 is the output layer, fed the last hidden layer (the raw input when `H == 0`); middle step `k` is hidden layer `H-1-k`, fed layer `H-2-k`; the last step is hidden layer 0, fed the raw input |
| NetworkSpec.BackwardPlanOrder | src/neuralnet.hpp:107-129 | the output layer comes first, then hidden layers with strictly decreasing indices, all below `H-1` when `H >= 2` |
| NetworkSpec.BackwardPlanFeedsFresh | src/neuralnet.hpp:107-129 | no step is fed the predictions of a hidden layer that an earlier step updated |
| NetworkSpec.BackwardPlanNamedOnce | src/neuralnet.hpp:107-129 | no layer is updated twice |
| NetworkSpec.BackwardPlanSkips | src/neuralnet.hpp:116 | with `H >= 2` no step names hidden layer `H-1` |
| NetworkSpec.BackwardPlanMiddle | src/neuralnet.hpp:116-122 | loop iteration `i` is step `H-1-i`: hidden layer `i`, fed layer `i-1` |
| NetworkSpec.ApplyStep | src/neuralnet.hpp:84-93 | one layer update keeps the network's dimensions and stored predictions |
| NetworkSpec.ApplyStepOther | src/neuralnet.hpp:84-93 | one layer update touches no other layer |
| NetworkSpec.ApplyStepSelf | src/neuralnet.hpp:84-93 | one layer update replaces its own layer by `_layer_backward` of it |
| NetworkSpec.RunPlan | src/neuralnet.hpp:95-131 | applying the updates in order keeps the dimensions and stored predictions |
| NetworkSpec.RunPlanUntouched | src/neuralnet.hpp:95-131 | a layer that no step names is unchanged |
| NetworkSpec.RunPlanTouched | src/neuralnet.hpp:95-131 | a layer named by exactly one step ends up as that update of the original layer, fed the original vector |
| NetworkSpec.BackwardPass | src/neuralnet.hpp:95-131 | `backward` changes only weights and biases: dimensions and stored predictions are kept |
| NetworkSpec.BackwardOutput | src/neuralnet.hpp:100-112 | the output layer is updated against the target, fed the last hidden layer's predictions (the raw input without hidden layers) |
| NetworkSpec.BackwardMiddleHidden | src/neuralnet.hpp:114-122 | hidden layer `i`, `1 <= i < H-1`, is updated against the target, fed the predictions of layer `i-1` |
| NetworkSpec.BackwardFirstHidden | src/neuralnet.hpp:124-129 | hidden layer 0 is updated against the target, fed the raw input; this includes `H == 1` |
| NetworkSpec.BackwardSkipsLastHidden | src/neuralnet.hpp:116 | with two or more hidden layers the last hidden layer is unchanged |
| NetworkSpec.BackwardFirstStep | src/neuralnet.hpp:100-112 | the first statement of `backward` updates the output layer only |
| NetworkSpec.BackwardLoopStep | src/neuralnet.hpp:116-122 | each iteration of the loop updates hidden layer `i` only, fed the current predictions of layer `i-1` |
| NetworkSpec.BackwardLastStep | src/neuralnet.hpp:124-129 | the last statement of `backward` updates hidden layer 0 from the input and completes the pass |
| NetworkSpec.Example | src/neuralnet.hpp:140-141 | `forward` then `backward` on one example keeps the dimensions |
| NetworkSpec.Epoch | src/neuralnet.hpp:139-142 | one pass over the dataset keeps the dimensions |
| NetworkSpec.Trained | src/neuralnet.hpp:136-144 | training keeps the dimensions |
| NetworkSpec.EpochAppend | src/neuralnet.hpp:139-142 | a pass over `a + b` is a pass over `a`, then over `b`, in order |
| NetworkSpec.EpochPrefix | src/neuralnet.hpp:139-142 | one more example extends the pass by `forward` and `backward` on that example |
| NetworkSpec.EpochExample | src/neuralnet.hpp:139-142 | example `k` fits the network the earlier examples produced, and `backward(forward(...))` on it extends the pass |
| NetworkSpec.TrainedNone | src/neuralnet.hpp:136-138 | with `epochs <= 0` training leaves the network as it is, whatever the dataset |
| NetworkSpec.TrainedStep | src/neuralnet.hpp:136-144 | with `epochs > 0`, training is one epoch followed by `epochs - 1` more |
| NetworkSpec.ChainedFits | src/neurons.hpp:74-84 | a network with the builder's fan-in chain fits every example whose input has the first layer's width and whose target covers every layer |
| NeuralNet.DeepNetwork.constructor | src/neuralnet.hpp:134 | the trainer holds the built layers and counts unchanged |
| NeuralNet.DeepNetwork.GetPredicts | src/neuralnet.hpp:25-32 | the push-back loop returns the layer's stored predictions, in order |
| NeuralNet.DeepNetwork.PredictAll | src/neuralnet.hpp:38-40 | running `predict` over a layer is `PredictLayer`, and keeps its weights and biases |
| NeuralNet.DeepNetwork.Forward | src/neuralnet.hpp:34-63 | the new layers are exactly `ForwardPass` of the old ones |
| NeuralNet.DeepNetwork.UpdateWb | src/neuralnet.hpp:65-77 | every weight `j` becomes `w[j] - g * prev[j]` and the bias `b - g`, with `g` the clipped step; the weight count and `predicted` are unchanged |
| NeuralNet.DeepNetwork.LayerBackward | src/neuralnet.hpp:84-93 | neuron `i` takes the step for its own prediction against `target[i]`; dimensions and predictions are kept |
| NeuralNet.DeepNetwork.Backward | src/neuralnet.hpp:95-131 | the new layers are exactly `BackwardPass` of the old ones |
| NeuralNet.DeepNetwork.BackwardMiddleLayers | src/neuralnet.hpp:116-122 | the loop from `H-2` down to 1 carries out every plan step except the last |
| NeuralNet.DeepNetwork.Train | src/neuralnet.hpp:136-144 | the new layers are exactly `Trained` of the old ones, with the same dimensions |
| NeuralNet.DeepNetwork.RunEpoch | src/neuralnet.hpp:139-142 | the inner loop over the examples computes `Epoch` |
| NeuralNet.DeepNetwork.GetOutput | src/neuralnet.hpp:146-154 | `forward(inputs)` is carried out, and the result is `Output` of the old layers |

## Left out

- test.cpp is not part of this model. It is the demo program: it builds a literal dataset, trains it and ranks the outputs with `getPercs`. Its shapes violate the preconditions stated here.
- The bodies of `sigmoid` and `std::exp`: `exp` is not available, so `sigmoid` is any function of type `Logistic`.
- `std::sqrt` in `genHe`: its value is the parameter `scale`, with `scale >= 0` and `scale * scale == 2 / n`.
- `std::srand(std::time(0))` and `std::rand()`: the clock and the random generator are left out, and each draw is a parameter (`InitDraw.rand`). `RAND_MAX` is taken to be the glibc value 2147483647.
- IEEE-754 rounding, NaN and infinity: values are reals. Nothing is claimed about convergence. For a fan-in of 0, `genHe` divides by zero; the resulting value never reaches a weight, and the model leaves it unconstrained.
- The initial `bias` and `predicted` of a new `Neuron` are indeterminate in the source, so they are parameters and not 0.
- Out-of-range reads: `predict`, `_update_wb` and `_layer_backward` read past a vector's end when shapes do not fit. The model requires the shapes to fit rather than reproducing undefined behaviour.
- In-place mutation below the class: neurons and layers are values, and updates return new values that are assigned back. This means the model does not capture aliasing of `Neuron&` or `std::vector&`. The source has none across layers.
- `forward` calls `_get_predicts(previous layer)` once per neuron; the model calls it once per layer. The previous layer does not change during that loop, so every call returns the same vector.
- The compiler attributes (`_HIGH_PERF`, `#pragma GCC target`) and the `<iostream>` include carry no behaviour.
- `noexcept`: its only effect is that a throwing `resize` on a negative size terminates the program, and `LayoutOk` excludes that case.
- NetworkSpec.Trained: the lemma that `e1 + e2` epochs are `e1` epochs followed by `e2` more is not proved. Only the one-epoch unfolding (TrainedStep, TrainedNone) is.
