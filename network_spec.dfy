/** Value-level description of what the network computes: its topology, the
    weights the initializer produces, the forward pass, and the weight update
    of the training strategy. The classes of module Machine are proved to
    follow these functions. */
module NetworkSpec {
  import opened Strategies

  /** The weights of one layer: one weight vector per neuron. */
  type LayerWeights = seq<seq<real>>

  /** A layer's neuron count and the length of each of its weight vectors. */
  datatype Shape = Shape(neurons: nat, weights: nat)

  // ---------------------------------------------------------------------
  // Topology
  // ---------------------------------------------------------------------

  /** Width of a hidden layer: the requested size, or when that is 0 the
      floor of the mean of the input and output widths. */
  function HiddenWidth(inputs: nat, outputs: nat, hiddenSize: nat): (w: nat)
    ensures hiddenSize != 0 ==> w == hiddenSize
    ensures hiddenSize == 0 ==> 2 * w <= inputs + outputs < 2 * w + 2
  {
    if hiddenSize != 0 then hiddenSize else (inputs + outputs) / 2
  }

  /** Neuron count of the layer at position k: the first test is for the
      input layer, the second for the output layer, as in the constructor. */
  function NeuronCount(inputs: nat, outputs: nat, hiddenLayers: nat, hiddenSize: nat, k: nat): nat
  {
    if k == 0 then inputs
    else if k == hiddenLayers + 1 then outputs
    else HiddenWidth(inputs, outputs, hiddenSize)
  }

  /** The shapes of the layers a network is built with: the neuron count of
      each layer, and as many weights per neuron as the layer before has
      neurons (for the input layer, as there are inputs). */
  function Topology(inputs: nat, outputs: nat, hiddenLayers: nat, hiddenSize: nat): (t: seq<Shape>)
    ensures |t| == hiddenLayers + 2
  {
    seq(hiddenLayers + 2, k requires 0 <= k < hiddenLayers + 2 =>
      Shape(NeuronCount(inputs, outputs, hiddenLayers, hiddenSize, k),
            if k == 0 then inputs else NeuronCount(inputs, outputs, hiddenLayers, hiddenSize, k - 1)))
  }

  /** An input layer with one weight per input, hidden layers of the hidden
      width, an output layer with one neuron per output, and every layer after
      the first with one weight per neuron of the layer before. */
  lemma TopologyShape(inputs: nat, outputs: nat, hiddenLayers: nat, hiddenSize: nat)
    ensures var t := Topology(inputs, outputs, hiddenLayers, hiddenSize);
      t[0] == Shape(inputs, inputs) &&
      t[|t| - 1].neurons == outputs &&
      (forall k :: 0 < k < |t| - 1 ==> t[k].neurons == HiddenWidth(inputs, outputs, hiddenSize)) &&
      (forall a, b :: 0 <= a < b < |t| && b == a + 1 ==> t[b].weights == t[a].neurons)
  {
  }

  /** Four inputs, two outputs and one automatically sized hidden layer give
      neuron counts 4, 3, 2 and weight lengths 4, 4, 3. */
  lemma TopologyExample()
    ensures Topology(4, 2, 1, 0) == [Shape(4, 4), Shape(3, 4), Shape(2, 3)]
  {
    var t := Topology(4, 2, 1, 0);
    assert t[0] == Shape(4, 4) && t[1] == Shape(3, 4) && t[2] == Shape(2, 3);
  }

  /** Weight vectors of layer W have the lengths that shape s prescribes. */
  predicate HasShape(W: LayerWeights, s: Shape)
  {
    |W| == s.neurons && forall j :: 0 <= j < |W| ==> |W[j]| == s.weights
  }

  /** Layer k's weights have shape t[k], for every k. */
  predicate Shaped(Ws: seq<LayerWeights>, t: seq<Shape>)
  {
    |Ws| == |t| && forall k :: 0 <= k < |Ws| ==> HasShape(Ws[k], t[k])
  }

  // ---------------------------------------------------------------------
  // Initialization
  // ---------------------------------------------------------------------

  /** Which of a layer's draws from the initializer (counted from 0) gives
      weight i of neuron j: neurons are filled in order, each weight in order. */
  function CallIndex(s: Shape, j: nat, i: nat): nat
  {
    j * s.weights + i
  }

  /** The weight vector of m weights drawn from the stream from draw number
      start on. */
  function Row(stream: nat -> real, start: nat, m: nat): (w: seq<real>)
    ensures |w| == m
    decreases m
  {
    if m == 0 then [] else Row(stream, start, m - 1) + [stream(start + m - 1)]
  }

  /** The weights of a layer of shape s whose neurons, one after the other,
      draw their weights from the stream from draw number start on. */
  function Drawn(stream: nat -> real, start: nat, s: Shape): (W: LayerWeights)
    ensures |W| == s.neurons
    decreases s.neurons
  {
    if s.neurons == 0 then []
    else
      var n := s.neurons - 1;
      Drawn(stream, start, Shape(n, s.weights)) + [Row(stream, start + n * s.weights, s.weights)]
  }

  lemma {:induction false} RowAt(stream: nat -> real, start: nat, m: nat, i: nat)
    requires i < m
    ensures Row(stream, start, m)[i] == stream(start + i)
    decreases m
  {
    if i < m - 1 {
      RowAt(stream, start, m - 1, i);
    }
  }

  /** Weight i of neuron j is draw number start + CallIndex(s, j, i), and
      every weight vector has s.weights entries. */
  lemma {:induction false} DrawnAt(stream: nat -> real, start: nat, s: Shape, j: nat, i: nat)
    requires j < s.neurons
    ensures |Drawn(stream, start, s)[j]| == s.weights
    ensures i < s.weights ==> Drawn(stream, start, s)[j][i] == stream(start + CallIndex(s, j, i))
    decreases s.neurons
  {
    var n := s.neurons - 1;
    if j < n {
      DrawnAt(stream, start, Shape(n, s.weights), j, i);
    } else if i < s.weights {
      RowAt(stream, start + n * s.weights, s.weights, i);
    }
  }

  /** A layer drawn with shape s has that shape. */
  lemma DrawnHasShape(stream: nat -> real, start: nat, s: Shape)
    ensures HasShape(Drawn(stream, start, s), s)
  {
    forall j | 0 <= j < s.neurons ensures |Drawn(stream, start, s)[j]| == s.weights {
      DrawnAt(stream, start, s, j, 0);
    }
  }

  /** Every weight of a layer is drawn exactly once: the draw numbers rise
      strictly in (neuron, weight) order and stay below neurons * weights. */
  lemma {:induction false} DrawsInOrder(s: Shape, j: nat, i: nat, j2: nat, i2: nat)
    requires j < s.neurons && j2 < s.neurons && i < s.weights && i2 < s.weights
    requires j < j2 || (j == j2 && i < i2)
    ensures CallIndex(s, j, i) < CallIndex(s, j2, i2) < s.neurons * s.weights
  {
    var m := s.weights;
    if j < j2 {
      assert (j + 1) * m <= j2 * m by { MulMono(j + 1, j2, m); }
    }
    assert (j2 + 1) * m <= s.neurons * m by { MulMono(j2 + 1, s.neurons, m); }
  }

  lemma MulMono(a: nat, b: nat, m: nat)
    requires a <= b
    ensures a * m <= b * m
  {
  }

  /** Number of draws a layer of shape s makes. */
  function Draws(s: Shape): nat
  {
    s.neurons * s.weights
  }

  /** Number of draws the layers before position k make. */
  function Offset(t: seq<Shape>, k: nat): nat
    requires k <= |t|
  {
    if k == 0 then 0 else Offset(t, k - 1) + Draws(t[k - 1])
  }

  /** The weights of the first k layers of topology t, filled one layer after
      the other from the stream from draw number start on. */
  function LayersDrawn(stream: nat -> real, start: nat, t: seq<Shape>, k: nat): (Ws: seq<LayerWeights>)
    requires k <= |t|
    ensures |Ws| == k
    decreases k
  {
    if k == 0 then []
    else LayersDrawn(stream, start, t, k - 1) + [Drawn(stream, start + Offset(t, k - 1), t[k - 1])]
  }

  /** Layer a starts drawing where the layers before it stopped. */
  lemma {:induction false} LayersDrawnAt(stream: nat -> real, start: nat, t: seq<Shape>, k: nat, a: nat)
    requires a < k <= |t|
    ensures LayersDrawn(stream, start, t, k)[a] == Drawn(stream, start + Offset(t, a), t[a])
    decreases k
  {
    if a < k - 1 {
      LayersDrawnAt(stream, start, t, k - 1, a);
    }
  }

  /** Layers each drawn from where the layers before them stopped are the
      layers LayersDrawn describes. */
  lemma {:induction false} LayersDrawnFrom(Ws: seq<LayerWeights>, stream: nat -> real, start: nat, t: seq<Shape>, k: nat)
    requires k <= |t| && |Ws| == k
    requires forall a {:trigger Ws[a]} :: 0 <= a < k ==> Ws[a] == Drawn(stream, start + Offset(t, a), t[a])
    ensures Ws == LayersDrawn(stream, start, t, k)
    decreases k
  {
    if k > 0 {
      var Ps := Ws[..k - 1];
      assert forall a {:trigger Ps[a]} :: 0 <= a < k - 1 ==> Ps[a] == Ws[a];
      LayersDrawnFrom(Ps, stream, start, t, k - 1);
      assert Ws == Ps + [Ws[k - 1]];
    }
  }

  /** Layers drawn for a whole topology have the topology's shapes. */
  lemma LayersDrawnShaped(stream: nat -> real, start: nat, t: seq<Shape>)
    ensures Shaped(LayersDrawn(stream, start, t, |t|), t)
  {
    var Ws := LayersDrawn(stream, start, t, |t|);
    forall a | 0 <= a < |Ws| ensures HasShape(Ws[a], t[a]) {
      LayersDrawnAt(stream, start, t, |t|, a);
      DrawnHasShape(stream, start + Offset(t, a), t[a]);
    }
  }

  /** A constant initializer gives every weight the same value. */
  lemma ConstantInitEqualWeights(stream: nat -> real, c: real, start: nat, s: Shape, j: nat, i: nat)
    requires forall n :: stream(n) == c
    requires j < s.neurons && i < s.weights
    ensures |Drawn(stream, start, s)[j]| == s.weights
    ensures Drawn(stream, start, s)[j][i] == c
  {
    DrawnAt(stream, start, s, j, i);
  }

  // ---------------------------------------------------------------------
  // Forward pass
  // ---------------------------------------------------------------------

  /** The propagation strategy can be applied to x and every weight vector of W. */
  predicate FitsAll(prop: Propagation, x: seq<real>, W: LayerWeights)
  {
    forall j :: 0 <= j < |W| ==> Fits(prop, x, W[j])
  }

  /** What a layer with weights W outputs for input x: one value per neuron,
      the activation of the propagation of x with that neuron's weights. */
  function LayerOutput(act: ActFunction, prop: Propagation, W: LayerWeights, x: seq<real>): (y: seq<real>)
    requires FitsAll(prop, x, W)
    ensures |y| == |W|
  {
    seq(|W|, j requires 0 <= j < |W| => act.Dxdy(Propagate(prop, x, W[j])))
  }

  /** Every weight vector of a layer after the first is as long as the
      previous layer has neurons. */
  ghost predicate Chained(Ws: seq<LayerWeights>)
  {
    forall a, b, j :: 0 <= a < b < |Ws| && b == a + 1 && 0 <= j < |Ws[b]| ==> |Ws[b][j]| == |Ws[a]|
  }

  /** x can be pushed through all the layers. */
  ghost predicate Feedable(prop: Propagation, Ws: seq<LayerWeights>, x: seq<real>)
  {
    Chained(Ws) && (|Ws| > 0 ==> FitsAll(prop, x, Ws[0]))
  }

  /** The vector entering layer k (for k = |Ws|, leaving the last layer) when
      x is fed to the network: each layer's output is the next one's input. */
  function FeedAt(act: ActFunction, prop: Propagation, Ws: seq<LayerWeights>, x: seq<real>, k: nat): (y: seq<real>)
    requires Feedable(prop, Ws, x) && k <= |Ws|
    ensures |y| == if k == 0 then |x| else |Ws[k - 1]|
    decreases k
  {
    if k == 0 then x
    else
      var y := FeedAt(act, prop, Ws, x, k - 1);
      LayerOutput(act, prop, Ws[k - 1], y)
  }

  /** All the vectors of one forward pass: F[k] enters layer k, F[|Ws|] is the result. */
  function Feeds(act: ActFunction, prop: Propagation, Ws: seq<LayerWeights>, x: seq<real>): (F: seq<seq<real>>)
    requires Feedable(prop, Ws, x)
    ensures |F| == |Ws| + 1
  {
    seq(|Ws| + 1, k requires 0 <= k <= |Ws| => FeedAt(act, prop, Ws, x, k))
  }

  /** A network whose layers follow a topology is chained. */
  lemma ShapedChained(Ws: seq<LayerWeights>, t: seq<Shape>)
    requires Shaped(Ws, t)
    requires forall a, b :: 0 <= a < b < |t| && b == a + 1 ==> t[b].weights == t[a].neurons
    ensures Chained(Ws)
  {
    forall a, b, j | 0 <= a < b < |Ws| && b == a + 1 && 0 <= j < |Ws[b]|
      ensures |Ws[b][j]| == |Ws[a]|
    {
      assert HasShape(Ws[b], t[b]) && HasShape(Ws[a], t[a]);
    }
  }

  /** The result of a forward pass has one entry per neuron of the last
      layer, which for a constructed network is the number of outputs. */
  lemma OutputWidth(act: ActFunction, prop: Propagation, Ws: seq<LayerWeights>, x: seq<real>,
                    inputs: nat, outputs: nat, hiddenLayers: nat, hiddenSize: nat)
    requires Shaped(Ws, Topology(inputs, outputs, hiddenLayers, hiddenSize))
    requires Feedable(prop, Ws, x)
    ensures |FeedAt(act, prop, Ws, x, |Ws|)| == outputs
  {
    var t := Topology(inputs, outputs, hiddenLayers, hiddenSize);
    TopologyShape(inputs, outputs, hiddenLayers, hiddenSize);
    assert HasShape(Ws[|Ws| - 1], t[|t| - 1]);
  }

  // ---------------------------------------------------------------------
  // Training by "back propagation"
  // ---------------------------------------------------------------------

  /** The amount one weight is decreased by. */
  function Delta(rate: real, expected: real, input: real, d: real): real
  {
    rate * (expected - input) * d * input
  }

  /** A neuron's weights after one update: weight i loses
      Delta(rate, expected[i], input[i], d), where d is the activation
      derivative at the neuron's output. */
  function UpdateNeuron(w: seq<real>, expected: seq<real>, input: seq<real>, rate: real, d: real): (r: seq<real>)
    requires |w| <= |expected| && |w| <= |input|
    ensures |r| == |w|
  {
    seq(|w|, i requires 0 <= i < |w| => w[i] - Delta(rate, expected[i], input[i], d))
  }

  /** A weight keeps its value when the rate is 0 or the expected value
      equals the input value at its index. */
  lemma UpdateNeuronKeeps(w: seq<real>, expected: seq<real>, input: seq<real>, rate: real, d: real, i: nat)
    requires |w| <= |expected| && |w| <= |input| && i < |w|
    requires rate == 0.0 || expected[i] == input[i]
    ensures UpdateNeuron(w, expected, input, rate, d)[i] == w[i]
  {
  }

  /** The reads the update of a layer makes stay in bounds: the expected and
      input vectors are at least as long as every weight vector, there is
      one cached output per neuron, and the layer can be re-run on its input. */
  predicate StepOk(prop: Propagation, W: LayerWeights, input: seq<real>, output: seq<real>, expectedLen: nat)
  {
    |W| <= |output| &&
    forall j :: 0 <= j < |W| ==> |W[j]| <= expectedLen && |W[j]| <= |input| && Fits(prop, input, W[j])
  }

  /** A layer's weights after every neuron j is updated with the derivative
      at output[j]; expected and input restart at index 0 for each neuron. */
  function UpdateLayer(act: ActFunction, rate: real, W: LayerWeights, expected: seq<real>,
                       input: seq<real>, output: seq<real>): (r: LayerWeights)
    requires |W| <= |output|
    requires forall j :: 0 <= j < |W| ==> |W[j]| <= |expected| && |W[j]| <= |input|
    ensures |r| == |W| && forall j :: 0 <= j < |W| ==> |r[j]| == |W[j]|
  {
    seq(|W|, j requires 0 <= j < |W| => UpdateNeuron(W[j], expected, input, rate, act.Dydx(output[j])))
  }

  /** State of the backward sweep: every layer's weights and output cache,
      and the vector expected of the next layer to be updated. */
  datatype Pass = Pass(weights: seq<LayerWeights>, outputs: seq<seq<real>>, expected: seq<real>)

  /** Layers 0 .. k-1 still to be updated can be updated in bounds; F holds
      the vectors of the forward pass that starts the training. */
  predicate PassOk(prop: Propagation, F: seq<seq<real>>, p: Pass, k: nat)
  {
    k <= |p.weights| && |F| == |p.weights| + 1 && |p.outputs| == |p.weights| &&
    forall l :: 0 <= l < k ==> StepOkAt(prop, F, p, k, l)
  }

  /** Layer l of the sweep over 0 .. k-1 can be updated in bounds: it is
      expected to give the pass's expected vector when it is the first layer
      visited, and otherwise one value per weight of the layer above. */
  predicate StepOkAt(prop: Propagation, F: seq<seq<real>>, p: Pass, k: nat, l: nat)
    requires l < k <= |p.weights| && |F| == |p.weights| + 1
  {
    StepOk(prop, p.weights[l], F[l], F[l + 1], if l + 1 == k then |p.expected| else |p.weights[l + 1]|)
  }

  /** The first layer the sweep visits is updated against the pass's expected
      vector, read at every weight index of each of its neurons: the sweep is
      in bounds only if that vector is as long as the layer's weight vectors. */
  lemma PassOkNeedsExpected(prop: Propagation, F: seq<seq<real>>, p: Pass, l: nat)
    requires PassOk(prop, F, p, l + 1)
    ensures forall j :: 0 <= j < |p.weights[l]| ==> |p.weights[l][j]| <= |p.expected|
  {
    assert StepOkAt(prop, F, p, l + 1, l);
  }

  /** A network of 2 inputs, 1 output and no hidden layer cannot be trained
      on an expected vector of its output width: its output neuron has 2
      weights, so the update would read expected[1], past the end. */
  lemma OutputWidthExpectedOutOfBounds(prop: Propagation, F: seq<seq<real>>, Ws: seq<LayerWeights>,
                                       outputs: seq<seq<real>>, expected: seq<real>)
    requires Shaped(Ws, Topology(2, 1, 0, 0)) && |F| == |Ws| + 1
    requires |expected| == 1
    ensures !PassOk(prop, F, Pass(Ws, outputs, expected), |Ws|)
  {
    var t := Topology(2, 1, 0, 0);
    assert t[1] == Shape(1, 2);
    assert HasShape(Ws[1], t[1]);
    assert |Ws[1][0]| == 2;
    assert !StepOk(prop, Ws[1], F[1], F[2], |expected|);
    assert !StepOkAt(prop, F, Pass(Ws, outputs, expected), 2, 1);
  }

  /** The backward sweep over layers k-1 down to 0: update the layer against
      the expected vector, then re-run it on its cached input; that output
      becomes its output cache and what the layer below is expected to give. */
  function BackPass(act: ActFunction, prop: Propagation, rate: real, F: seq<seq<real>>, p: Pass, k: nat): (r: Pass)
    requires PassOk(prop, F, p, k)
    ensures |r.weights| == |p.weights| && |r.outputs| == |p.outputs|
    decreases k
  {
    if k == 0 then p
    else
      var l := k - 1;
      PassOkStep(act, prop, rate, F, p, l);
      var W := UpdateLayer(act, rate, p.weights[l], p.expected, F[l], F[l + 1]);
      var e := LayerOutput(act, prop, W, F[l]);
      BackPass(act, prop, rate, F, Pass(p.weights[l := W], p.outputs[l := e], e), l)
  }

  /** Layer k, the first one the sweep over 0 .. k visits, can be updated
      against the pass's expected vector and re-run; what is left is a sweep
      over 0 .. k-1 that stays in bounds. */
  lemma PassOkStep(act: ActFunction, prop: Propagation, rate: real, F: seq<seq<real>>, p: Pass, k: nat)
    requires PassOk(prop, F, p, k + 1)
    ensures StepOk(prop, p.weights[k], F[k], F[k + 1], |p.expected|)
    ensures var W := UpdateLayer(act, rate, p.weights[k], p.expected, F[k], F[k + 1]);
      FitsAll(prop, F[k], W) &&
      var e := LayerOutput(act, prop, W, F[k]);
      PassOk(prop, F, Pass(p.weights[k := W], p.outputs[k := e], e), k)
  {
    assert StepOkAt(prop, F, p, k + 1, k);
    var W := UpdateLayer(act, rate, p.weights[k], p.expected, F[k], F[k + 1]);
    var e := LayerOutput(act, prop, W, F[k]);
    var q := Pass(p.weights[k := W], p.outputs[k := e], e);
    forall l | 0 <= l < k ensures StepOkAt(prop, F, q, k, l) {
      assert StepOkAt(prop, F, p, k + 1, l);
    }
  }

  /** One step of the sweep, as the training loop takes it: layer k is
      updated and re-run, and what is left is the sweep over 0 .. k-1. */
  lemma BackPassStep(act: ActFunction, prop: Propagation, rate: real, F: seq<seq<real>>, p: Pass, k: nat)
    requires PassOk(prop, F, p, k + 1)
    ensures StepOk(prop, p.weights[k], F[k], F[k + 1], |p.expected|)
    ensures var W := UpdateLayer(act, rate, p.weights[k], p.expected, F[k], F[k + 1]);
      FitsAll(prop, F[k], W) &&
      var e := LayerOutput(act, prop, W, F[k]);
      var q := Pass(p.weights[k := W], p.outputs[k := e], e);
      PassOk(prop, F, q, k) &&
      BackPass(act, prop, rate, F, p, k + 1) == BackPass(act, prop, rate, F, q, k)
  {
    PassOkStep(act, prop, rate, F, p, k);
  }

  /** The sweep changes weight values only: layer count, neuron counts and
      weight-vector lengths stay as they were. */
  lemma {:induction false} BackPassKeepsShape(act: ActFunction, prop: Propagation, rate: real,
                                              F: seq<seq<real>>, p: Pass, k: nat)
    requires PassOk(prop, F, p, k)
    ensures var r := BackPass(act, prop, rate, F, p, k);
      |r.weights| == |p.weights| && |r.outputs| == |p.outputs| &&
      forall l :: 0 <= l < |p.weights| ==>
        |r.weights[l]| == |p.weights[l]| &&
        forall j :: 0 <= j < |p.weights[l]| ==> |r.weights[l][j]| == |p.weights[l][j]|
    decreases k
  {
    if k > 0 {
      var l := k - 1;
      PassOkStep(act, prop, rate, F, p, l);
      var W := UpdateLayer(act, rate, p.weights[l], p.expected, F[l], F[l + 1]);
      var e := LayerOutput(act, prop, W, F[l]);
      BackPassKeepsShape(act, prop, rate, F, Pass(p.weights[l := W], p.outputs[l := e], e), l);
    }
  }

  /** The sweep keeps every layer in its shape. */
  lemma BackPassShaped(act: ActFunction, prop: Propagation, rate: real,
                       F: seq<seq<real>>, p: Pass, k: nat, t: seq<Shape>)
    requires PassOk(prop, F, p, k) && Shaped(p.weights, t)
    ensures Shaped(BackPass(act, prop, rate, F, p, k).weights, t)
  {
    BackPassKeepsShape(act, prop, rate, F, p, k);
    var r := BackPass(act, prop, rate, F, p, k);
    forall l | 0 <= l < |t| ensures HasShape(r.weights[l], t[l]) {
      assert HasShape(p.weights[l], t[l]);
    }
  }

  /** Layers at position k and above are not touched by the sweep over 0 .. k-1. */
  lemma {:induction false} BackPassFrame(act: ActFunction, prop: Propagation, rate: real,
                                         F: seq<seq<real>>, p: Pass, k: nat)
    requires PassOk(prop, F, p, k)
    ensures var r := BackPass(act, prop, rate, F, p, k);
      |r.weights| == |p.weights| && |r.outputs| == |p.outputs| &&
      forall l :: k <= l < |p.weights| ==> r.weights[l] == p.weights[l] && r.outputs[l] == p.outputs[l]
    decreases k
  {
    if k > 0 {
      var l := k - 1;
      PassOkStep(act, prop, rate, F, p, l);
      var W := UpdateLayer(act, rate, p.weights[l], p.expected, F[l], F[l + 1]);
      var e := LayerOutput(act, prop, W, F[l]);
      BackPassFrame(act, prop, rate, F, Pass(p.weights[l := W], p.outputs[l := e], e), l);
    }
  }

  /** Closed form of the sweep: each layer l below k is updated exactly once,
      against the given expected vector when it is the first layer visited and
      otherwise against the re-run output of layer l+1; its output cache is its
      own re-run output with the updated weights. */
  lemma {:induction false} BackPassLayers(act: ActFunction, prop: Propagation, rate: real,
                                          F: seq<seq<real>>, p: Pass, k: nat, l: nat)
    requires PassOk(prop, F, p, k)
    requires l < k
    ensures |BackPass(act, prop, rate, F, p, k).weights| == |p.weights|
    ensures |BackPass(act, prop, rate, F, p, k).outputs| == |p.outputs|
    ensures var r := BackPass(act, prop, rate, F, p, k);
      var ex := if l + 1 == k then p.expected else r.outputs[l + 1];
      |p.weights[l]| <= |F[l + 1]| &&
      (forall j :: 0 <= j < |p.weights[l]| ==> |p.weights[l][j]| <= |ex| && |p.weights[l][j]| <= |F[l]|) &&
      r.weights[l] == UpdateLayer(act, rate, p.weights[l], ex, F[l], F[l + 1]) &&
      FitsAll(prop, F[l], r.weights[l]) &&
      r.outputs[l] == LayerOutput(act, prop, r.weights[l], F[l])
    decreases k
  {
    var m := k - 1;
    PassOkStep(act, prop, rate, F, p, m);
    var W := UpdateLayer(act, rate, p.weights[m], p.expected, F[m], F[m + 1]);
    var e := LayerOutput(act, prop, W, F[m]);
    var q := Pass(p.weights[m := W], p.outputs[m := e], e);
    assert BackPass(act, prop, rate, F, p, k) == BackPass(act, prop, rate, F, q, m);
    BackPassFrame(act, prop, rate, F, q, m);
    if l < m {
      BackPassLayers(act, prop, rate, F, q, m, l);
    }
  }

  /** With learning rate 0 the sweep leaves every weight as it was. */
  lemma {:induction false} BackPassZeroRate(act: ActFunction, prop: Propagation,
                                            F: seq<seq<real>>, p: Pass, k: nat)
    requires PassOk(prop, F, p, k)
    ensures BackPass(act, prop, 0.0, F, p, k).weights == p.weights
    decreases k
  {
    if k > 0 {
      var l := k - 1;
      PassOkStep(act, prop, 0.0, F, p, l);
      var W := UpdateLayer(act, 0.0, p.weights[l], p.expected, F[l], F[l + 1]);
      forall j | 0 <= j < |W| ensures W[j] == p.weights[l][j] {
        assert forall i :: 0 <= i < |W[j]| ==> W[j][i] == p.weights[l][j][i];
      }
      assert W == p.weights[l];
      assert p.weights[l := W] == p.weights;
      var e := LayerOutput(act, prop, W, F[l]);
      BackPassZeroRate(act, prop, F, Pass(p.weights, p.outputs[l := e], e), l);
    }
  }
}
