/** The network's objects: the Parameters builder, Layer, Network and Trainer
    (namespace `machine` of the C++ source), the back-propagation training
    strategy, and the iterators of the variant snapshot. A neuron is its
    weight vector, one row of its layer's `weights`. */
module Machine {
  import opened Strategies
  import opened NetworkSpec

  // ---------------------------------------------------------------------
  // Parameters
  // ---------------------------------------------------------------------

  /** Settings read by the Network constructor (dimensions) and, through the
      network's reference to this object, by every later call (activation,
      propagation, initializer, rate). */
  class Parameters {
    var inputs: nat
    var outputs: nat
    var hiddenLayers: nat
    var hiddenSize: nat
    var biasTerm: bool
    var rate: real
    var actf: ActFunction
    var initf: Initializer
    var propf: Option<Propagation>
    var trainf: Option<Training>

    /** The defaults of the main snapshot: no propagation and no training
        strategy are set. `random` stands for the process-wide random
        initializer and `sigmoidForward` for the logistic function. */
    constructor (random: Initializer, sigmoidForward: real -> real)
      ensures inputs == 3 && outputs == 5 && hiddenLayers == 1 && hiddenSize == 0
      ensures rate == 0.001 && biasTerm
      ensures actf == Sigmoid(sigmoidForward) && initf == random
      ensures propf == None && trainf == None
    {
      inputs, outputs, hiddenLayers, hiddenSize := 3, 5, 1, 0;
      actf, initf := Sigmoid(sigmoidForward), random;
      biasTerm, rate := true, 0.001;
      propf, trainf := None, None;
    }

    /** The defaults of the variant snapshot: hidden layers of 4 neurons, dot
        product propagation and back-propagation training. */
    constructor WithVariantDefaults(random: Initializer, sigmoidForward: real -> real)
      ensures inputs == 3 && outputs == 5 && hiddenLayers == 1 && hiddenSize == 4
      ensures rate == 0.001 && biasTerm
      ensures actf == Sigmoid(sigmoidForward) && initf == random
      ensures propf == Some(DotProduct) && trainf == Some(BackPropagation)
    {
      inputs, outputs, hiddenLayers, hiddenSize := 3, 5, 1, 4;
      biasTerm, rate := true, 0.001;
      actf, initf := Sigmoid(sigmoidForward), random;
      propf, trainf := Some(DotProduct), Some(BackPropagation);
    }

    // Each setter stores its argument in one field (its frame) and returns
    // this object, so that calls can be chained.

    method Inputs(n: int) returns (self: Parameters)
      requires n >= 0
      modifies this`inputs
      ensures self == this && inputs == n
    {
      inputs := n;
      self := this;
    }

    method Outputs(n: int) returns (self: Parameters)
      requires n >= 0
      modifies this`outputs
      ensures self == this && outputs == n
    {
      outputs := n;
      self := this;
    }

    method HiddenLayers(n: int) returns (self: Parameters)
      requires n >= 0
      modifies this`hiddenLayers
      ensures self == this && hiddenLayers == n
    {
      hiddenLayers := n;
      self := this;
    }

    method HiddenSize(n: int) returns (self: Parameters)
      requires n >= 0
      modifies this`hiddenSize
      ensures self == this && hiddenSize == n
    {
      hiddenSize := n;
      self := this;
    }

    method Rate(n: real) returns (self: Parameters)
      modifies this`rate
      ensures self == this && rate == n
    {
      rate := n;
      self := this;
    }

    method BiasTerm(b: bool) returns (self: Parameters)
      modifies this`biasTerm
      ensures self == this && biasTerm == b
    {
      biasTerm := b;
      self := this;
    }

    method Activation(f: ActFunction) returns (self: Parameters)
      modifies this`actf
      ensures self == this && actf == f
    {
      actf := f;
      self := this;
    }

    method Initialization(f: Initializer) returns (self: Parameters)
      modifies this`initf
      ensures self == this && initf == f
    {
      initf := f;
      self := this;
    }

    method Propogation(f: Propagation) returns (self: Parameters)
      modifies this`propf
      ensures self == this && propf == Some(f)
    {
      propf := Some(f);
      self := this;
    }

    method Training(f: Training) returns (self: Parameters)
      modifies this`trainf
      ensures self == this && trainf == Some(f)
    {
      trainf := Some(f);
      self := this;
    }
  }

  // ---------------------------------------------------------------------
  // Neuron and Layer
  // ---------------------------------------------------------------------

  /** A neuron's weight vector: nWeights values, one draw from the
      initializer each, in order. */
  method NewNeuron(nWeights: nat, init: Initializer) returns (w: seq<real>)
    modifies init
    ensures w == Row(init.stream, old(init.calls), nWeights)
    ensures init.calls == old(init.calls) + nWeights
  {
    w := [];
    var i := 0;
    while i < nWeights
      invariant 0 <= i <= nWeights
      invariant w == Row(init.stream, old(init.calls), i)
      invariant init.calls == old(init.calls) + i
    {
      var x := init.Next();
      w := w + [x];
      i := i + 1;
    }
  }

  class Layer {
    const index: nat
    const nNeurons: nat
    const nWeights: nat
    /** Number of draws the initializer had made before this layer drew its
        weights, and the weights it drew. */
    ghost const start: nat
    ghost const drawn: LayerWeights
    /** weights[j] is the weight vector of neuron j. */
    var weights: LayerWeights
    /** Input and output of the last feed-forward run in training mode. */
    var input: seq<real>
    var output: seq<real>

    ghost predicate Valid()
      reads this
    {
      HasShape(weights, Shape(nNeurons, nWeights))
    }

    /** The layer's initial weights are the draws from number start on. */
    ghost predicate Drew(stream: nat -> real)
    {
      drawn == Drawn(stream, start, Shape(nNeurons, nWeights))
    }

    constructor (nNeurons: nat, nWeights: nat, init: Initializer, index: nat)
      modifies init
      ensures Valid()
      ensures this.index == index && this.nNeurons == nNeurons && this.nWeights == nWeights
      ensures start == old(init.calls) && Drew(init.stream) && weights == drawn
      ensures init.calls == old(init.calls) + nNeurons * nWeights
      ensures input == [] && output == []
    {
      this.index, this.nNeurons, this.nWeights := index, nNeurons, nWeights;
      var ws: LayerWeights := [];
      var j := 0;
      while j < nNeurons
        invariant 0 <= j <= nNeurons
        invariant ws == Drawn(init.stream, old(init.calls), Shape(j, nWeights))
        invariant init.calls == old(init.calls) + j * nWeights
      {
        var w := NewNeuron(nWeights, init);
        ws := ws + [w];
        assert init.calls == old(init.calls) + (j + 1) * nWeights by {
          assert (j + 1) * nWeights == j * nWeights + nWeights;
        }
        j := j + 1;
      }
      weights := ws;
      start, drawn := old(init.calls), ws;
      input, output := [], [];
      DrawnHasShape(init.stream, old(init.calls), Shape(nNeurons, nWeights));
    }

    /** One output per neuron: the activation of the propagation of `input`
        with the neuron's weights. In training mode the input and the output
        are kept; otherwise nothing changes. */
    method FeedForward(feed: seq<real>, act: ActFunction, prop: Propagation, training: bool)
      returns (out: seq<real>)
      requires FitsAll(prop, feed, weights)
      modifies this
      ensures weights == old(weights)
      ensures out == LayerOutput(act, prop, weights, feed)
      ensures training ==> input == feed && output == out
      ensures !training ==> input == old(input) && output == old(output)
    {
      var W := weights;
      out := [];
      var j := 0;
      while j < |W|
        invariant 0 <= j <= |W|
        invariant out == LayerOutput(act, prop, W, feed)[..j]
        invariant weights == W && input == old(input) && output == old(output)
      {
        var p: real;
        match prop {
          case DotProduct =>
            p := DotProd(feed, W[j]);
          case Custom(f) =>
            p := f(feed, W[j]);
        }
        out := out + [act.Dxdy(p)];
        j := j + 1;
      }
      if training {
        input := feed;
        output := out;
      }
    }

    method Begin() returns (it: LayerIterator)
      ensures fresh(it) && it.layer == this && it.position == 0
    {
      it := new LayerIterator(this, 0);
    }

    method End() returns (it: LayerIterator)
      ensures fresh(it) && it.layer == this && it.position == nNeurons
    {
      it := new LayerIterator(this, nNeurons);
    }
  }

  // ---------------------------------------------------------------------
  // Network
  // ---------------------------------------------------------------------

  class Network {
    const params: Parameters
    const layers: seq<Layer>
    const trainer: Trainer
    var training: bool

    /** Linked, and every layer's weights have the shape of its counts. */
    ghost predicate Valid()
      reads layers
      ensures Valid() ==> Linked(layers) && Shaped(Weights(), Shapes()) && Chained(Weights())
    {
      Linked(layers) && Shaped(Weights(), Shapes()) &&
      (ShapedChained(Weights(), Shapes()); true)
    }

    ghost function Shapes(): (t: seq<Shape>)
      ensures |t| == |layers|
    {
      ShapesOf(layers)
    }

    ghost function Weights(): (Ws: seq<LayerWeights>)
      reads layers
      ensures |Ws| == |layers|
      ensures forall k :: 0 <= k < |layers| ==> Ws[k] == layers[k].weights
    {
      WeightsOf(layers)
    }

    /** Number of layers; the constructor makes it hiddenLayers + 2. */
    function Size(): (n: nat)
      ensures n == |layers|
    {
      |layers|
    }

    /** Builds hiddenLayers + 2 layers from the dimensions in `params`, each
        neuron drawing its weights from the initializer in order. */
    constructor (params: Parameters)
      modifies params.initf
      ensures this.params == params && !training && trainer.trainf == params.trainf
      ensures Valid()
      ensures Size() == params.hiddenLayers + 2
      ensures Shapes() == Topology(params.inputs, params.outputs, params.hiddenLayers, params.hiddenSize)
      ensures forall k :: 0 <= k < |layers| ==> fresh(layers[k])
      ensures forall k :: 0 <= k < |layers| ==> layers[k].input == [] && layers[k].output == []
      ensures Weights() == LayersDrawn(params.initf.stream, old(params.initf.calls), Shapes(), |layers|)
      ensures params.initf.calls == old(params.initf.calls) + Offset(Shapes(), |layers|)
    {
      this.params := params;
      trainer := new Trainer(params.trainf);
      var ls := NewLayers(params.inputs, params.outputs, params.hiddenLayers, params.hiddenSize, params.initf);
      layers := ls;
      training := false;
      new;
    }

    /** Feeds the vector through the layers in order. The weights are not
        touched; in training mode each layer keeps the vectors it received and
        produced, otherwise no cache changes. */
    method FeedForward(feed: seq<real>) returns (out: seq<real>)
      requires Valid() && params.propf.Some?
      requires FitsAll(params.propf.value, feed, layers[0].weights)
      modifies layers
      ensures Valid() && Weights() == old(Weights())
      ensures out == CurrentFeeds(feed)[|layers|]
      ensures training ==> forall k {:trigger layers[k]} :: 0 <= k < |layers| ==>
        layers[k].input == CurrentFeeds(feed)[k] && layers[k].output == CurrentFeeds(feed)[k + 1]
      ensures !training ==> forall k :: 0 <= k < |layers| ==>
        layers[k].input == old(layers[k].input) && layers[k].output == old(layers[k].output)
    {
      ghost var Ws := Weights();
      out := FeedLayers(layers, feed, params.actf, params.propf.value, training, Ws);
      assert Weights() == Ws;
    }

    /** The vectors of a forward pass with the current weights. */
    ghost function CurrentFeeds(input: seq<real>): (F: seq<seq<real>>)
      reads this, params, layers
      requires Valid() && params.propf.Some? && FitsAll(params.propf.value, input, layers[0].weights)
      ensures |F| == |layers| + 1
    {
      Feeds(params.actf, params.propf.value, Weights(), input)
    }

    /** Training on (input, expected) reads only within the vectors: see StepOk. */
    ghost predicate Trainable(input: seq<real>, expected: seq<real>)
      reads this, params, layers
      requires Valid()
    {
      params.propf.Some? && FitsAll(params.propf.value, input, layers[0].weights) &&
      var F := CurrentFeeds(input);
      PassOk(params.propf.value, F, Pass(Weights(), F[1..], expected), |layers|)
    }

    /** Weights and output caches that back propagation leaves. */
    ghost function Trained(input: seq<real>, expected: seq<real>): (r: Pass)
      reads this, params, layers
      requires Valid() && Trainable(input, expected)
      ensures |r.weights| == |layers| && |r.outputs| == |layers|
    {
      var F := CurrentFeeds(input);
      var p := Pass(Weights(), F[1..], expected);
      BackPassKeepsShape(params.actf, params.propf.value, params.rate, F, p, |layers|);
      BackPass(params.actf, params.propf.value, params.rate, F, p, |layers|)
    }

    /** `~` applied to the flag promotes it to the int 0 or 1 and complements
        it to -1 or -2; both convert back to true. */
    method ToggleTrainingMode()
      modifies this`training
      ensures training
    {
      var promoted := if training then 1 else 0;
      training := Complement(promoted) != 0;
    }

    /** The toggle its name and comment describe: the flag is flipped. The
        trainers call ToggleTrainingMode only when the flag is off, where the
        two agree. */
    method FlipTrainingMode()
      modifies this`training
      ensures training == !old(training)
    {
      training := !training;
    }

    /** Training through the trainer built with the network. */
    method Train(input: seq<real>, expected: seq<real>)
      requires Valid() && trainer.trainf.Some? && Trainable(input, expected)
      modifies this, layers
      ensures training && Valid()
      ensures Weights() == old(Trained(input, expected)).weights
      ensures forall l :: 0 <= l < |layers| ==>
        layers[l].output == old(Trained(input, expected)).outputs[l] &&
        layers[l].input == old(CurrentFeeds(input))[l]
    {
      trainer.Train(this, input, expected);
    }

    /** Training as the variant snapshot does it, without a trainer: switch
        training mode on if it is off, then run the training strategy once. */
    method TrainDirect(input: seq<real>, expected: seq<real>)
      requires Valid() && params.trainf.Some? && Trainable(input, expected)
      modifies this, layers
      ensures training && Valid()
      ensures Weights() == old(Trained(input, expected)).weights
      ensures forall l :: 0 <= l < |layers| ==>
        layers[l].output == old(Trained(input, expected)).outputs[l] &&
        layers[l].input == old(CurrentFeeds(input))[l]
    {
      if !training {
        ToggleTrainingMode();
      }
      match params.trainf.value {
        case BackPropagation => BackPropagate(input, expected, this);
      }
    }

    method Begin() returns (it: NetworkIterator)
      ensures fresh(it) && it.network == this && it.position == 0
    {
      it := new NetworkIterator(this, 0);
    }

    method End() returns (it: NetworkIterator)
      ensures fresh(it) && it.network == this && it.position == |layers|
    {
      it := new NetworkIterator(this, |layers|);
    }
  }

  /** The network's layers, linked, with the shapes of the topology the
      dimensions describe, each holding the weights it drew from the
      initializer in turn, and with empty caches. */
  method NewLayers(inputs: nat, outputs: nat, hiddenLayers: nat, hiddenSize: nat, init: Initializer)
    returns (ls: seq<Layer>)
    modifies init
    ensures forall k :: 0 <= k < |ls| ==> fresh(ls[k])
    ensures ShapesOf(ls) == Topology(inputs, outputs, hiddenLayers, hiddenSize)
    ensures Linked(ls) && Shaped(WeightsOf(ls), ShapesOf(ls))
    ensures WeightsOf(ls) == LayersDrawn(init.stream, old(init.calls), ShapesOf(ls), |ls|)
    ensures forall k :: 0 <= k < |ls| ==> ls[k].input == [] && ls[k].output == []
    ensures init.calls == old(init.calls) + Offset(ShapesOf(ls), |ls|)
  {
    ls := BuildLayers(inputs, outputs, hiddenLayers, hiddenSize, init);
    BuiltNetwork(ls, init.stream, old(init.calls), inputs, outputs, hiddenLayers, hiddenSize);
  }

  /** Builds the layers one at a time: the input layer first, the output
      layer last, hidden layers between them, each drawing its weights from
      the initializer in turn. */
  method BuildLayers(inputs: nat, outputs: nat, hiddenLayers: nat, hiddenSize: nat, init: Initializer)
    returns (ls: seq<Layer>)
    modifies init
    ensures |ls| == hiddenLayers + 2
    ensures forall k :: 0 <= k < |ls| ==> fresh(ls[k])
    ensures Built(ls, init.stream, old(init.calls), Topology(inputs, outputs, hiddenLayers, hiddenSize))
    ensures init.calls == old(init.calls) + Offset(Topology(inputs, outputs, hiddenLayers, hiddenSize), |ls|)
  {
    ghost var c0 := init.calls;
    var n := hiddenLayers + 2;
    ls := [];
    while |ls| < n
      invariant |ls| <= n
      invariant forall a :: 0 <= a < |ls| ==> fresh(ls[a])
      invariant Built(ls, init.stream, c0, Topology(inputs, outputs, hiddenLayers, hiddenSize))
      invariant init.calls == c0 + Offset(Topology(inputs, outputs, hiddenLayers, hiddenSize), |ls|)
      decreases n - |ls|
    {
      var layer := NewLayer(ls, inputs, outputs, hiddenLayers, hiddenSize, init, c0);
      ls := ls + [layer];
    }
  }

  /** Builds layer k = |ls| of the network the parameters describe: the
      input layer at position 0, the output layer at the last position, a
      hidden layer anywhere else, whose width a hidden size of 0 sets to the
      mean of the input and output widths, rounded down. Every layer but the
      first takes one weight per neuron of the layer before it. */
  method NewLayer(ls: seq<Layer>, inputs: nat, outputs: nat, hiddenLayers: nat, hiddenSize: nat,
                  init: Initializer, ghost c0: nat)
    returns (layer: Layer)
    requires |ls| < hiddenLayers + 2
    requires Built(ls, init.stream, c0, Topology(inputs, outputs, hiddenLayers, hiddenSize))
    requires init.calls == c0 + Offset(Topology(inputs, outputs, hiddenLayers, hiddenSize), |ls|)
    modifies init
    ensures fresh(layer)
    ensures Built(ls + [layer], init.stream, c0, Topology(inputs, outputs, hiddenLayers, hiddenSize))
    ensures init.calls == c0 + Offset(Topology(inputs, outputs, hiddenLayers, hiddenSize), |ls| + 1)
  {
    ghost var t := Topology(inputs, outputs, hiddenLayers, hiddenSize);
    TopologyShape(inputs, outputs, hiddenLayers, hiddenSize);
    var k, n := |ls|, hiddenLayers + 2;
    var nNeurons, nWeights;
    if k == 0 {
      // input layer
      nNeurons, nWeights := inputs, inputs;
    } else if k + 1 == n {
      // output layer
      nNeurons, nWeights := outputs, ls[k - 1].nNeurons;
    } else {
      // hidden layer
      if hiddenSize != 0 {
        nNeurons := hiddenSize;
      } else {
        nNeurons := (inputs + outputs) / 2;
      }
      nWeights := ls[k - 1].nNeurons;
    }
    layer := new Layer(nNeurons, nWeights, init, k);
    BuiltSnoc(ls, layer, init.stream, c0, t);
  }

  /** Layers at their positions, with the shapes of topology t, each holding
      the weights it drew from the stream where the layers before it stopped,
      and with empty caches. */
  ghost predicate Built(ls: seq<Layer>, stream: nat -> real, c0: nat, t: seq<Shape>)
    reads ls
  {
    && |ls| <= |t|
    && (forall a, b :: 0 <= a < b < |ls| ==> ls[a] != ls[b])
    && forall a {:trigger ls[a]} :: 0 <= a < |ls| ==>
         && ls[a].index == a
         && Shape(ls[a].nNeurons, ls[a].nWeights) == t[a]
         && ls[a].start == c0 + Offset(t, a)
         && ls[a].Drew(stream)
         && ls[a].weights == ls[a].drawn
         && ls[a].input == [] && ls[a].output == []
  }

  lemma BuiltSnoc(ls: seq<Layer>, l: Layer, stream: nat -> real, c0: nat, t: seq<Shape>)
    requires Built(ls, stream, c0, t) && |ls| < |t| && l !in ls
    requires l.index == |ls| && Shape(l.nNeurons, l.nWeights) == t[|ls|]
    requires l.start == c0 + Offset(t, |ls|) && l.Drew(stream) && l.weights == l.drawn
    requires l.input == [] && l.output == []
    ensures Built(ls + [l], stream, c0, t)
  {
    var ls' := ls + [l];
    var k := |ls|;
    forall a | 0 <= a < k ensures ls'[a] == ls[a] {
    }
  }

  /** At least an input and an output layer, distinct, each at its own
      position, the first with one weight per input, each later one with one
      weight per neuron of the layer before. These facts are about immutable
      fields only and hold for a network's whole life. */
  ghost predicate Linked(ls: seq<Layer>)
  {
    |ls| >= 2 &&
    (forall a, b :: 0 <= a < b < |ls| ==> ls[a] != ls[b]) &&
    (forall k :: 0 <= k < |ls| ==> ls[k].index == k) &&
    ls[0].nWeights == ls[0].nNeurons &&
    (forall a, b :: 0 <= a < b < |ls| && b == a + 1 ==> ls[b].nWeights == ls[a].nNeurons)
  }

  /** The neuron and weight counts of the layers. */
  ghost function ShapesOf(ls: seq<Layer>): (t: seq<Shape>)
    ensures |t| == |ls|
    ensures forall k {:trigger ls[k]} :: 0 <= k < |ls| ==> t[k] == Shape(ls[k].nNeurons, ls[k].nWeights)
  {
    seq(|ls|, k requires 0 <= k < |ls| => Shape(ls[k].nNeurons, ls[k].nWeights))
  }

  /** The weights of the layers. */
  ghost function WeightsOf(ls: seq<Layer>): (Ws: seq<LayerWeights>)
    reads ls
    ensures |Ws| == |ls|
    ensures forall k :: 0 <= k < |ls| ==> Ws[k] == ls[k].weights
  {
    seq(|ls|, k requires 0 <= k < |ls| reads ls => ls[k].weights)
  }

  /** Layers built for a whole topology have its shapes. */
  lemma BuiltShapes(ls: seq<Layer>, stream: nat -> real, c0: nat, t: seq<Shape>)
    requires Built(ls, stream, c0, t) && |ls| == |t|
    ensures ShapesOf(ls) == t
  {
  }

  /** Layers built for a whole topology hold the weights LayersDrawn
      describes. */
  lemma BuiltWeights(ls: seq<Layer>, stream: nat -> real, c0: nat, t: seq<Shape>)
    requires Built(ls, stream, c0, t) && |ls| == |t|
    ensures WeightsOf(ls) == LayersDrawn(stream, c0, t, |t|)
  {
    var Ws := WeightsOf(ls);
    forall a {:trigger Ws[a]} | 0 <= a < |Ws| ensures Ws[a] == Drawn(stream, c0 + Offset(t, a), t[a]) {
      assert ls[a].Drew(stream);
    }
    LayersDrawnFrom(Ws, stream, c0, t, |t|);
  }

  /** Layers built for the whole topology of the parameters are linked, have
      its shapes and hold the weights LayersDrawn describes. */
  lemma BuiltNetwork(ls: seq<Layer>, stream: nat -> real, c0: nat,
                     inputs: nat, outputs: nat, hiddenLayers: nat, hiddenSize: nat)
    requires Built(ls, stream, c0, Topology(inputs, outputs, hiddenLayers, hiddenSize))
    requires |ls| == hiddenLayers + 2
    ensures ShapesOf(ls) == Topology(inputs, outputs, hiddenLayers, hiddenSize)
    ensures Linked(ls)
    ensures WeightsOf(ls) == LayersDrawn(stream, c0, ShapesOf(ls), |ls|)
    ensures Shaped(WeightsOf(ls), ShapesOf(ls))
    ensures forall k :: 0 <= k < |ls| ==> ls[k].input == [] && ls[k].output == []
  {
    var t := Topology(inputs, outputs, hiddenLayers, hiddenSize);
    BuiltShapes(ls, stream, c0, t);
    TopologyLinked(ls, inputs, outputs, hiddenLayers, hiddenSize);
    BuiltWeights(ls, stream, c0, t);
    LayersDrawnShaped(stream, c0, t);
  }

  /** Feeds x through the layers in order, each layer's output being the
      next one's input; in training mode every layer keeps its input and
      output. */
  method FeedLayers(ls: seq<Layer>, x: seq<real>, act: ActFunction, prop: Propagation, training: bool,
                    ghost Ws: seq<LayerWeights>)
    returns (out: seq<real>)
    requires |Ws| == |ls| && forall l {:trigger ls[l]} :: 0 <= l < |ls| ==> ls[l].weights == Ws[l]
    requires forall a, b :: 0 <= a < b < |ls| ==> ls[a] != ls[b]
    requires Feedable(prop, Ws, x)
    modifies ls
    ensures forall l {:trigger ls[l]} :: 0 <= l < |ls| ==> ls[l].weights == Ws[l]
    ensures out == Feeds(act, prop, Ws, x)[|ls|]
    ensures forall l {:trigger ls[l]} :: 0 <= l < |ls| ==>
      ls[l].input == (if training then Feeds(act, prop, Ws, x)[l] else old(ls[l].input))
    ensures forall l {:trigger ls[l]} :: 0 <= l < |ls| ==>
      ls[l].output == (if training then Feeds(act, prop, Ws, x)[l + 1] else old(ls[l].output))
  {
    ghost var F := Feeds(act, prop, Ws, x);
    ghost var ins: seq<seq<real>> := [];
    ghost var outs: seq<seq<real>> := [];
    out := x;
    var k := 0;
    while k < |ls|
      invariant 0 <= k <= |ls| && |ins| == k
      invariant forall l {:trigger ls[l]} :: 0 <= l < |ls| ==> ls[l].weights == Ws[l]
      invariant out == F[k]
      invariant |outs| == k && ins == F[..k] && outs == F[1..k + 1]
      invariant training ==> forall l {:trigger ls[l]} :: 0 <= l < k ==>
        ls[l].input == ins[l] && ls[l].output == outs[l]
      invariant forall l {:trigger ls[l]} :: 0 <= l < |ls| && (k <= l || !training) ==>
        ls[l].input == old(ls[l].input) && ls[l].output == old(ls[l].output)
    {
      assert F[k + 1] == LayerOutput(act, prop, Ws[k], F[k]);
      ins := ins + [out];
      out := ls[k].FeedForward(out, act, prop, training);
      outs := outs + [out];
      k := k + 1;
    }
  }

  /** Distinct layers built at their positions with the shapes of a topology
      are linked. */
  lemma TopologyLinked(ls: seq<Layer>, inputs: nat, outputs: nat, hiddenLayers: nat, hiddenSize: nat)
    requires ShapesOf(ls) == Topology(inputs, outputs, hiddenLayers, hiddenSize)
    requires forall a, b :: 0 <= a < b < |ls| ==> ls[a] != ls[b]
    requires forall k :: 0 <= k < |ls| ==> ls[k].index == k
    ensures Linked(ls)
  {
    var t := ShapesOf(ls);
    TopologyShape(inputs, outputs, hiddenLayers, hiddenSize);
    forall a, b | 0 <= a < b < |ls| && b == a + 1 ensures ls[b].nWeights == ls[a].nNeurons {
      assert t[b].weights == t[a].neurons;
    }
  }

  /** Bitwise complement of a two's-complement integer. */
  function Complement(n: int): (r: int)
    ensures n == 0 || n == 1 ==> r < 0
  {
    -n - 1
  }

  /** Toggling a flag that is on leaves it on: the promoted value 1
      complements to -2, which is nonzero, so it converts back to true. */
  lemma ToggleKeepsTrainingOn()
    ensures Complement(1) == -2 && Complement(1) != 0
  {
  }

  // ---------------------------------------------------------------------
  // Trainer and the back-propagation strategy
  // ---------------------------------------------------------------------

  class Trainer {
    /** The training strategy, copied from the parameters at construction. */
    const trainf: Option<Training>

    constructor (trainf: Option<Training>)
      ensures this.trainf == trainf
    {
      this.trainf := trainf;
    }

    /** Switches the network's training mode on if it is off, then runs the
        training strategy once on (input, expected). */
    method Train(net: Network, input: seq<real>, expected: seq<real>)
      requires net.Valid() && trainf.Some? && net.Trainable(input, expected)
      modifies net, net.layers
      ensures net.training && net.Valid()
      ensures net.Weights() == old(net.Trained(input, expected)).weights
      ensures forall l :: 0 <= l < |net.layers| ==>
        net.layers[l].output == old(net.Trained(input, expected)).outputs[l] &&
        net.layers[l].input == old(net.CurrentFeeds(input))[l]
    {
      if !net.training {
        net.ToggleTrainingMode();
      }
      match trainf.value {
        case BackPropagation => BackPropagate(input, expected, net);
      }
    }
  }

  /** The update of one layer: for neuron j and weight index i, the weight
      decreases by rate * (expected[i] - input[i]) * dydx(output[j]) * input[i]. */
  method UpdateLayerWeights(layer: Layer, expected: seq<real>, input: seq<real>, output: seq<real>,
                            rate: real, act: ActFunction)
    requires |layer.weights| <= |output|
    requires forall j :: 0 <= j < |layer.weights| ==>
      |layer.weights[j]| <= |expected| && |layer.weights[j]| <= |input|
    modifies layer
    ensures layer.weights == UpdateLayer(act, rate, old(layer.weights), expected, input, output)
    ensures layer.input == old(layer.input) && layer.output == old(layer.output)
  {
    ghost var W := layer.weights;
    var j := 0;
    while j < |layer.weights|
      invariant 0 <= j <= |W| && |layer.weights| == |W|
      invariant forall a :: 0 <= a < j ==>
        layer.weights[a] == UpdateNeuron(W[a], expected, input, rate, act.Dydx(output[a]))
      invariant forall a :: j <= a < |W| ==> layer.weights[a] == W[a]
      invariant layer.input == old(layer.input) && layer.output == old(layer.output)
    {
      var i := 0;
      while i < |layer.weights[j]|
        invariant 0 <= i <= |W[j]| && |layer.weights| == |W| && |layer.weights[j]| == |W[j]|
        invariant forall a :: 0 <= a < j ==>
          layer.weights[a] == UpdateNeuron(W[a], expected, input, rate, act.Dydx(output[a]))
        invariant forall a :: j < a < |W| ==> layer.weights[a] == W[a]
        invariant forall b :: 0 <= b < i ==>
          layer.weights[j][b] == W[j][b] - Delta(rate, expected[b], input[b], act.Dydx(output[j]))
        invariant forall b :: i <= b < |W[j]| ==> layer.weights[j][b] == W[j][b]
        invariant layer.input == old(layer.input) && layer.output == old(layer.output)
      {
        var delta := rate * (expected[i] - input[i]) * act.Dydx(output[j]) * input[i];
        layer.weights := layer.weights[j := layer.weights[j][i := layer.weights[j][i] - delta]];
        i := i + 1;
      }
      assert layer.weights[j] == UpdateNeuron(W[j], expected, input, rate, act.Dydx(output[j]));
      j := j + 1;
    }
    assert layer.weights == UpdateLayer(act, rate, W, expected, input, output);
  }

  /** The training strategy: one forward pass to fill the caches, then the
      layers from last to first are updated against `expected`, which after
      each layer becomes that layer's output re-run on its cached input. */
  method BackPropagate(input: seq<real>, expected: seq<real>, net: Network)
    requires net.Valid() && net.training && net.Trainable(input, expected)
    modifies net.layers
    ensures net.Valid()
    ensures net.Weights() == old(net.Trained(input, expected)).weights
    ensures forall l :: 0 <= l < |net.layers| ==>
      net.layers[l].output == old(net.Trained(input, expected)).outputs[l] &&
      net.layers[l].input == old(net.CurrentFeeds(input))[l]
  {
    ghost var F := net.CurrentFeeds(input);
    ghost var R := net.Trained(input, expected);
    ghost var p := Pass(net.Weights(), F[1..], expected);
    var output := net.FeedForward(input);
    assert net.CurrentFeeds(input) == F;
    BackLayers(net.layers, net.params.actf, net.params.propf.value, net.params.rate,
               expected, net.training, F, p);
    BackPassShaped(net.params.actf, net.params.propf.value, net.params.rate, F, p, |p.weights|, net.Shapes());
    assert net.Weights() == R.weights;
  }

  /** The backward sweep over the layers, last to first: each layer's weights
      are updated against the vector expected of it, then the layer is re-run
      on its cached input, and that output is what the layer below is
      expected to give. */
  method BackLayers(ls: seq<Layer>, act: ActFunction, prop: Propagation, rate: real,
                    expected: seq<real>, training: bool, ghost F: seq<seq<real>>, ghost p0: Pass)
    requires training
    requires forall a, b :: 0 <= a < b < |ls| ==> ls[a] != ls[b]
    requires |ls| == |p0.weights| && PassOk(prop, F, p0, |ls|) && p0.expected == expected
    requires p0.outputs == F[1..]
    requires forall l {:trigger ls[l]} :: 0 <= l < |ls| ==>
      ls[l].weights == p0.weights[l] && ls[l].input == F[l] && ls[l].output == F[l + 1]
    modifies ls
    ensures forall l {:trigger ls[l]} :: 0 <= l < |ls| ==>
      ls[l].weights == BackPass(act, prop, rate, F, p0, |ls|).weights[l] &&
      ls[l].output == BackPass(act, prop, rate, F, p0, |ls|).outputs[l] &&
      ls[l].input == F[l]
  {
    ghost var R := BackPass(act, prop, rate, F, p0, |ls|);
    ghost var p := p0;
    var target := expected;
    var k := |ls|;
    while k > 0
      invariant 0 <= k <= |ls| && |p.weights| == |ls| && |p.outputs| == |ls|
      invariant PassOk(prop, F, p, k) && p.expected == target
      invariant BackPass(act, prop, rate, F, p, k) == R
      invariant forall l {:trigger ls[l]} :: 0 <= l < |ls| ==>
        ls[l].weights == p.weights[l] && ls[l].output == p.outputs[l] && ls[l].input == F[l]
      invariant forall l {:trigger p.outputs[l]} :: 0 <= l < k ==> p.outputs[l] == F[l + 1]
    {
      k := k - 1;
      var layer := ls[k];
      BackPassStep(act, prop, rate, F, p, k);
      UpdateLayerWeights(layer, target, layer.input, layer.output, rate, act);
      target := layer.FeedForward(layer.input, act, prop, training);
      p := Pass(p.weights[k := layer.weights], p.outputs[k := target], target);
    }
  }

  // ---------------------------------------------------------------------
  // Iterators of the variant snapshot
  // ---------------------------------------------------------------------

  /** Position in a network's layer list. */
  class NetworkIterator {
    const network: Network
    var position: int

    constructor (network: Network, position: int)
      ensures this.network == network && this.position == position
    {
      this.network, this.position := network, position;
    }

    /** Prefix `++`: steps forward and returns a copy taken before the step. */
    method PreIncrement() returns (copy: NetworkIterator)
      modifies this`position
      ensures position == old(position) + 1
      ensures fresh(copy) && copy.network == network && copy.position == old(position)
    {
      copy := new NetworkIterator(network, position);
      position := position + 1;
    }

    /** Postfix `++`: steps forward and returns a copy taken after the step. */
    method PostIncrement() returns (copy: NetworkIterator)
      modifies this`position
      ensures position == old(position) + 1
      ensures fresh(copy) && copy.network == network && copy.position == position
    {
      position := position + 1;
      copy := new NetworkIterator(network, position);
    }

    method Equals(rhs: NetworkIterator) returns (b: bool)
      ensures b <==> position == rhs.position
    {
      b := position == rhs.position;
    }

    method NotEquals(rhs: NetworkIterator) returns (b: bool)
      ensures b <==> position != rhs.position
    {
      b := position != rhs.position;
    }
  }

  /** Position in a layer's neuron list. */
  class LayerIterator {
    const layer: Layer
    var position: int

    constructor (layer: Layer, position: int)
      ensures this.layer == layer && this.position == position
    {
      this.layer, this.position := layer, position;
    }

    /** Prefix `++`: steps forward and returns a copy taken before the step. */
    method PreIncrement() returns (copy: LayerIterator)
      modifies this`position
      ensures position == old(position) + 1
      ensures fresh(copy) && copy.layer == layer && copy.position == old(position)
    {
      copy := new LayerIterator(layer, position);
      position := position + 1;
    }

    /** Postfix `++`: steps forward and returns a copy taken after the step. */
    method PostIncrement() returns (copy: LayerIterator)
      modifies this`position
      ensures position == old(position) + 1
      ensures fresh(copy) && copy.layer == layer && copy.position == position
    {
      position := position + 1;
      copy := new LayerIterator(layer, position);
    }

    method Equals(rhs: LayerIterator) returns (b: bool)
      ensures b <==> position == rhs.position
    {
      b := position == rhs.position;
    }

    method NotEquals(rhs: LayerIterator) returns (b: bool)
      ensures b <==> position != rhs.position
    {
      b := position != rhs.position;
    }
  }
}
