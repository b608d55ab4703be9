# perceptron — a verified model of the multilayer perceptron core

This project models the multilayer perceptron of the `machine` namespace in Dafny:

- **`Network::Parameters`**: the fluent builder, with the defaults of both source snapshots.
- **`Network`**: its constructor, which lays out `hiddenLayers + 2` layers.
- **Feed-forward**: per layer and for the whole network, including the input/output caches that are kept in training mode.
- **The training-mode flag**: set by `~` on a `bool`.
- **`Trainer::train`** and the `train` of the variant snapshot.
- **`_backPropogation`**: its in-place weight update, run from the last layer to the first.
- **`__dotprod`**: the dot-product propagation.
- **`Network::iterator` and `Layer::iterator`**: the variant snapshot's iterators.

The model is split into three files:

- `strategies.dfy` (module `Strategies`) holds the pluggable strategies.
  - An activation is a pair of functions `real -> real`: forward `dxdy` and derivative `dydx`.
  - A propagation is either the built-in dot product or any total function of two vectors.
  - An initializer is an object that counts its calls; its k-th call yields `stream(k)`.
  - The training strategy is back propagation.
  - `Dot` is the specification of `__dotprod`, and `DotProd` is its loop.
- `network_spec.dfy` (module `NetworkSpec`) describes on values what the classes compute:
  - `Topology` gives the layer shapes a set of parameters produces;
  - `Drawn` and `LayersDrawn` give the weights the initializer fills in;
  - `LayerOutput`, `FeedAt` and `Feeds` give the forward pass;
  - `UpdateLayer` and `BackPass` give the back-propagation sweep.
  - The lemmas state shapes, frames, the closed form of the sweep, the zero-rate case and the draw order of the initializer.
- `network.dfy` (module `Machine`) holds the objects: `Parameters`, `Layer`, `Network`, `Trainer` and the two iterator classes.
  - Their methods work in place: setters assign fields, constructors fill the weight vectors in loops, `FeedForward` writes the caches, and back propagation rewrites the weights.
  - The constructors, the forward passes and training are proved against the functions of `NetworkSpec`. The setters, the toggles and the iterators state their new fields directly.

A neuron is its weight vector: row `j` of `Layer.weights` is neuron `j`. A layer's reference to its network is replaced by explicit arguments: the activation, the propagation, the initializer and the training flag. The network holds a reference to its `Parameters` object, as the source does (`const Parameters&` in one snapshot, `const Parameters*` in the variant), so setters called after construction are seen by later calls. The exception is the training strategy: the main snapshot's `Trainer` copies it when the network is built (src/network.cpp:223, 447), so `Network.Train` runs the strategy the parameters held at that time.

The source never checks vector lengths. Where it would read past the end of a vector, the model has an explicit precondition instead:

- `Fits` for the dot product;
- `StepOk`, `PassOk` and `Network.Trainable` for the training loop. It indexes `expected` and a layer's cached input at every weight index of every neuron of that layer.

So training is in bounds only when `expected` is at least as long as the weight vectors of the last layer (`PassOkNeedsExpected`). Those vectors have one entry per neuron of the layer before, not one per output. A network with 2 inputs, 1 output and no hidden layer therefore cannot be trained on an expected vector of its own output width (`OutputWidthExpectedOutOfBounds`).

## Model

| member | source | states |
|---|---|---|
| Strategies.DotProd | src/network-fun.cpp:71-81 | the accumulating loop returns Dot(a, b), the sum of a[i]*b[i] over the indices of a; it needs b at least as long as a |
| Strategies.DotIgnoresExcess | src/network-fun.cpp:77-78 | entries of b past the length of a do not affect the dot product |
| Strategies.DotSymmetric | src/network-fun.cpp:71-81 | for vectors of equal length the dot product does not depend on argument order |
| Strategies.DotExample | src/network-fun.cpp:71-81 | dot([1,2,3],[4,5,6]) == 32 |
| Strategies.Sigmoid | src/network.cpp:23-30 | the sigmoid activation keeps the given forward function, and its derivative at output y is y*(1-y) |
| Strategies.SigmoidDerivative | src/network.cpp:27-29 | the sigmoid's derivative, written in terms of the output, never exceeds 1/4 |
| Strategies.SigmoidDerivativeAtHalf | src/network.cpp:27-29 | the sigmoid's derivative reaches 1/4 at output 1/2 |
| Strategies.ActFunction.Dxdy | src/network.h:53-56 | the activation applies the stored forward function |
| Strategies.ActFunction.Dydx | src/network.h:58-61 | the derivative applies the stored derivative function |
| Strategies.Propagate | src/network.cpp:280-283 | invoking the propagation handle is invoking what it wraps: the dot product for the built-in strategy, the given function for a custom one |
| Strategies.Initializer.constructor | src/network.h:74-80 | a new initializer has made no calls and draws from the given stream |
| Strategies.Initializer.Next | src/network.h:69-70 | each call yields the next value of the stream and counts one call |
| Machine.Parameters.constructor | src/network-classes.cpp:19-20 | defaults: inputs 3, outputs 5, one hidden layer, hidden size 0, rate 0.001, bias term on, sigmoid activation, the random initializer, no propagation and no training strategy |
| Machine.Parameters.WithVariantDefaults | src/network-obj.cpp:28-29 | variant defaults: as above but hidden size 4, dot-product propagation and back-propagation training |
| Machine.Parameters.Inputs | src/network-classes.cpp:24-28 | stores n in inputs only and returns the same object |
| Machine.Parameters.Outputs | src/network-classes.cpp:30-34 | stores n in outputs only and returns the same object |
| Machine.Parameters.HiddenLayers | src/network-classes.cpp:36-40 | stores n in hiddenLayers only and returns the same object |
| Machine.Parameters.HiddenSize | src/network-classes.cpp:42-46 | stores n in hiddenSize only and returns the same object |
| Machine.Parameters.Rate | src/network-classes.cpp:48-52 | stores the rate only and returns the same object |
| Machine.Parameters.BiasTerm | src/network-classes.cpp:54-58 | stores the flag only and returns the same object |
| Machine.Parameters.Activation | src/network-classes.cpp:60-64 | stores the activation only and returns the same object |
| Machine.Parameters.Initialization | src/network-classes.cpp:66-70 | stores the initializer only and returns the same object |
| Machine.Parameters.Propogation | src/network-classes.cpp:72-76 | sets the propagation strategy only and returns the same object |
| Machine.Parameters.Training | src/network-classes.cpp:78-82 | sets the training strategy only and returns the same object |
| NetworkSpec.HiddenWidth | src/network.cpp:249-252 | a hidden layer has the requested size, or when that is 0 the floor of the mean of the input and output counts |
| NetworkSpec.Topology | src/network.cpp:226 | a network has hiddenLayers + 2 layers |
| NetworkSpec.TopologyShape | src/network.cpp:230-259 | the input layer has `inputs` neurons of `inputs` weights; the last layer has `outputs` neurons; the layers between have the hidden width; every later layer has one weight per neuron of the layer before |
| NetworkSpec.TopologyExample | src/network.cpp:230-259 | 4 inputs, 2 outputs and one automatically sized hidden layer give neuron counts 4, 3, 2 and weight lengths 4, 4, 3 |
| NetworkSpec.Row | src/network.cpp:421-428 | a neuron's weight vector drawn from the initializer has one entry per weight |
| NetworkSpec.RowAt | src/network.cpp:426-427 | weight i of a neuron is the i-th draw after the neuron's first |
| NetworkSpec.Drawn | src/network.cpp:352-359 | a layer's drawn weights have one vector per neuron |
| NetworkSpec.DrawnAt | src/network-classes.cpp:221-228 | weight i of neuron j is draw number j*nWeights + i of the layer, and each vector has nWeights entries |
| NetworkSpec.DrawnHasShape | src/network-classes.cpp:221-228 | a layer has exactly nNeurons neurons with exactly nWeights weights each |
| NetworkSpec.DrawsInOrder | src/network.h:69-70 | the initializer is called once per weight: the draw numbers strictly increase in neuron-then-weight order and stay below nNeurons*nWeights |
| NetworkSpec.ConstantInitEqualWeights | src/network.cpp:421-428 | with a constant initializer every weight equals the constant |
| NetworkSpec.LayersDrawn | src/network.cpp:230-259 | the weights of the first k layers, one entry per layer |
| NetworkSpec.LayersDrawnAt | src/network.cpp:230-259 | layer a draws its weights from where the layers before it stopped |
| NetworkSpec.LayersDrawnFrom | src/network.cpp:230-259 | layers that each draw from where the ones before stopped are exactly LayersDrawn |
| NetworkSpec.LayersDrawnShaped | src/network.h:182-185 | the weights drawn for a topology have its shapes: nNeurons vectors of nWeights weights per layer |
| NetworkSpec.LayerOutput | src/network.cpp:370-377 | a layer's output has one entry per neuron |
| NetworkSpec.FeedAt | src/network.cpp:270-277 | the vector after k layers has one entry per neuron of layer k-1 (the input itself when k is 0) |
| NetworkSpec.Feeds | src/network.cpp:270-277 | a forward pass yields one vector per layer plus the result |
| NetworkSpec.ShapedChained | src/network.cpp:239-242 | layers shaped by a topology can be fed one into the next |
| NetworkSpec.OutputWidth | src/network.cpp:270-277 | the result of a forward pass through a constructed network has `outputs` entries |
| NetworkSpec.UpdateNeuron | src/network.cpp:128-133 | a neuron's update keeps its weight count |
| NetworkSpec.UpdateNeuronKeeps | src/network-fun.cpp:129-130 | a weight is unchanged when the rate is 0 or expected[i] equals in[i] |
| NetworkSpec.UpdateLayer | src/network-fun.cpp:118-133 | a layer's update keeps the neuron count and every weight count |
| NetworkSpec.BackPass | src/network-fun.cpp:111-138 | the sweep keeps the number of layers and of output caches |
| NetworkSpec.PassOkStep | src/network-fun.cpp:126-129 | if the sweep over layers 0..k is in bounds, then so is updating layer k, re-running it, and the sweep over the layers below |
| NetworkSpec.PassOkNeedsExpected | src/network-fun.cpp:124-132 | if the sweep is in bounds, expected is at least as long as every weight vector of the first layer visited |
| NetworkSpec.OutputWidthExpectedOutOfBounds | src/network-fun.cpp:124-132 | with 2 inputs, 1 output, no hidden layer and an expected vector of length 1, the sweep reads past the end of expected |
| NetworkSpec.BackPassStep | src/network-fun.cpp:111-138 | one loop iteration updates and re-runs layer k, and what remains is the sweep over the layers below it |
| NetworkSpec.BackPassKeepsShape | src/network-fun.cpp:111-137 | training changes weight values only: layer count, neuron counts and weight lengths are unchanged |
| NetworkSpec.BackPassShaped | src/network-fun.cpp:111-137 | a network shaped by a topology keeps that shape through training |
| NetworkSpec.BackPassFrame | src/network-fun.cpp:111 | the sweep over layers below k leaves layers k and above untouched |
| NetworkSpec.BackPassLayers | src/network-fun.cpp:111-138 | each layer is updated exactly once. The first layer visited is updated against the given expected vector and every other against the re-run output of the layer above it. Neuron j uses out[j], while expected and input restart at index 0. The layer's output cache ends as its re-run output on its cached input. |
| NetworkSpec.BackPassZeroRate | src/network-fun.cpp:129-130 | with rate 0 training leaves every weight unchanged |
| Machine.NewNeuron | src/network-obj.cpp:433-440 | a neuron's weights are nWeights consecutive draws, one initializer call each |
| Machine.Layer.constructor | src/network.cpp:352-359 | nNeurons neurons of nWeights weights each, the draws taken in order, nNeurons*nWeights initializer calls, empty caches |
| Machine.Layer.FeedForward | src/network.cpp:370-386 | out[j] = dxdy(propagate(input, weights_j)) for each neuron; weights untouched; caches set to the input and output only in training mode, otherwise unchanged |
| Machine.Layer.Begin | src/network-obj.cpp:365-368 | an iterator at the first neuron |
| Machine.Layer.End | src/network-obj.cpp:370-373 | an iterator one past the last neuron |
| Machine.Network.constructor | src/network.cpp:220-261 | hiddenLayers + 2 linked layers with the shapes of Topology, which does not involve biasTerm; the weights are the draws LayersDrawn describes; caches empty; training off; the trainer holds the parameters' training strategy |
| Machine.Network.Size | src/network.cpp:304-307 | the layer count; the constructor makes it hiddenLayers + 2 |
| Machine.Network.FeedForward | src/network.cpp:270-277 | the result is the last vector of Feeds; no weight changes; in training mode layer k caches the vectors entering and leaving it, otherwise no cache changes |
| Machine.Network.ToggleTrainingMode | src/network.cpp:316-319 | as written, `~` on the promoted flag leaves training on whatever it was before |
| Machine.ToggleKeepsTrainingOn | src/network-classes.cpp:185-188 | the complement of a set flag (promoted to 1) is -2, which is nonzero, so toggling never clears the flag |
| Machine.Network.FlipTrainingMode | src/network-classes.cpp:184-188 | the toggle the comment describes: the flag is negated |
| Machine.Network.Train | src/network.cpp:291-295 | training goes through the trainer, leaves training mode on, and sets weights and caches as the sweep describes |
| Machine.Network.TrainDirect | src/network-obj.cpp:208-215 | the variant switches training on if it is off and runs the strategy once; weights and caches as the sweep describes |
| Machine.Network.Begin | src/network-obj.cpp:246-249 | an iterator at the first layer |
| Machine.Network.End | src/network-obj.cpp:251-254 | an iterator one past the last layer |
| Machine.NewLayers | src/network-classes.cpp:95-128 | the layers are fresh, linked, shaped as Topology, hold LayersDrawn's weights and have empty caches; the initializer is called once per weight of the network |
| Machine.BuildLayers | src/network.cpp:226-259 | builds hiddenLayers + 2 layers in order, each at its own index with its topology shape, drawing where the previous one stopped |
| Machine.NewLayer | src/network-obj.cpp:108-137 | one iteration of the constructor's loop: input-layer test first, then output-layer test, else a hidden layer; the next layer is appended keeping the Built invariant |
| Machine.BuiltShapes | src/network.cpp:230-259 | layers built for a whole topology have its shapes |
| Machine.BuiltWeights | src/network.cpp:230-259 | layers built for a whole topology hold LayersDrawn's weights |
| Machine.BuiltNetwork | src/network.cpp:226-259 | layers built for the whole topology are linked, shaped and drawn in order, with empty caches |
| Machine.TopologyLinked | src/network.cpp:239-254 | distinct layers at their positions with a topology's shapes each have one weight per neuron of the layer before |
| Machine.FeedLayers | src/network.cpp:270-277 | layers are applied left to right, each output fed to the next; the result and, in training mode, every cache follow Feeds; weights unchanged |
| Machine.Complement | src/network.cpp:316-319 | the complement of a promoted bool (0 or 1) is negative, hence nonzero |
| Machine.Trainer.constructor | src/network.cpp:447 | the trainer keeps the training strategy it is given |
| Machine.Trainer.Train | src/network.cpp:452-459 | switches training on if off, then runs the training strategy once on (input, expected); training stays on afterwards |
| Machine.UpdateLayerWeights | src/network-fun.cpp:118-133 | in place, weight i of neuron j decreases by rate*(expected[i]-input[i])*dydx(output[j])*input[i]; the result is UpdateLayer; caches untouched |
| Machine.BackPropagate | src/network.cpp:100-141 | one forward pass refreshes every cache and its result is discarded; then the sweep from last layer to first leaves BackPass's weights and output caches, and each input cache holds the forward pass's input to that layer; the network stays valid |
| Machine.BackLayers | src/network-fun.cpp:111-138 | the loop over layers from last to first updates each layer in place, then re-runs it on its cached input, and that output becomes the next expected vector; the final weights and output caches are BackPass's |
| Machine.NetworkIterator.constructor | src/network-obj.cpp:272 | an iterator at the given position |
| Machine.NetworkIterator.PreIncrement | src/network-obj.cpp:275-278 | prefix ++ advances one position and returns the position before the step |
| Machine.NetworkIterator.PostIncrement | src/network-obj.cpp:280-283 | postfix ++ advances one position and returns the position after the step |
| Machine.NetworkIterator.Equals | src/network-obj.cpp:295-298 | equal exactly when the positions are equal |
| Machine.NetworkIterator.NotEquals | src/network-obj.cpp:300-303 | different exactly when the positions differ |
| Machine.LayerIterator.constructor | src/network-obj.cpp:395 | an iterator at the given position |
| Machine.LayerIterator.PreIncrement | src/network-obj.cpp:398-401 | prefix ++ advances one position and returns the position before the step |
| Machine.LayerIterator.PostIncrement | src/network-obj.cpp:403-406 | postfix ++ advances one position and returns the position after the step |
| Machine.LayerIterator.Equals | src/network-obj.cpp:418-421 | equal exactly when the positions are equal |
| Machine.LayerIterator.NotEquals | src/network-obj.cpp:423-426 | different exactly when the positions differ |

## Left out

- The bodies of `sigmoid`, `softplus` and `hyperbolic_tan` are left out because they use the floating-point transcendentals `exp`, `log10`, `tanh` and `pow`. An activation is any pair of real functions. For the sigmoid, only the derivative `y*(1-y)` is stated exactly.
- The `random` initializer is left out because it draws on a process-wide `std::random_device` and engine. Any initializer is modelled as a call counter over a caller-supplied stream.
- `save`, `load` and the stream operators of the variant snapshot are left out: they are file I/O, and their bodies are empty.
- `shared_ptr`, `std::function`, the factory templates and the empty destructors are ownership plumbing and are left out. Each factory only wraps its callable, so a strategy here is the callable itself.
- `double` arithmetic is modelled as exact `real` arithmetic. The hidden width `(unsigned)((in+out)*0.5)` becomes the integer division `(in+out)/2`.
- The accessors `propogate`, `init`, `activate`, `rate`, `getInput`, `getOutput` and `size` only forward a field or a call, so the model reads the field directly. `Network.Size` returns the layer count.
- `rbegin`/`rend` are not a separate member. Back propagation's reverse walk over the layers is the loop in `Machine.BackLayers`, which counts down.
- Iterator dereference (`*` and `->`) is left out. An iterator is a position in the layer or neuron list, and positions past the end are not bounded.
- Custom training strategies are left out because the model's `Training` has back propagation as its only variant.
- Custom initializers that are not functions of their call number are left out.
- Machine.Parameters.Inputs, Machine.Parameters.Outputs, Machine.Parameters.HiddenLayers, Machine.Parameters.HiddenSize: require a non-negative argument. The source converts a negative `int` to a large `unsigned int`, which the model does not reproduce.
- Machine.NewLayer: no 32-bit wrap-around. `inputs + outputs` is an unbounded sum, and the `int` neuron counts are unbounded naturals.
- Machine.Network.TrainDirect: runs the training strategy held by the parameters. The variant snapshot calls a `trainf` member of the network that the file never assigns, so its value cannot be known.
- Machine.BackPropagate: requires the network to be in training mode. Both callers switch training on first. Called directly with training off, the source would work on stale caches; that case is not modelled.
- Machine.Network.FeedForward, Machine.Trainer.Train: require the propagation strategy, and for training the training strategy, to be set. The main snapshot's defaults leave both empty, so the source would call through an empty pointer.

## Findings

| source | as written | input that shows it | evidently intended | confidence | as-written member | corrected member |
|---|---|---|---|---|---|---|
| src/network.cpp:316-319 | `training = ~training` promotes the `bool` to 0 or 1, complements it to -1 or -2, and converts the result back to `true` | training already on: `~1 == -2`, so the flag stays on and training mode can never be switched off | the flag is negated, as the name and the comment "toggle the training bool" say | high, not executed | Machine.Network.ToggleTrainingMode | Machine.Network.FlipTrainingMode |
