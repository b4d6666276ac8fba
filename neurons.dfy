/** Neurons and the topology builder: a `LayerLayout` (input count, hidden
    layer sizes, output count) becomes hidden layers and an output layer of
    neurons whose weight counts form a fan-in chain. */
module Neurons {
  import opened Activation

  /** Input count, one size per hidden layer (input side first), output count. */
  datatype LayerLayout = LayerLayout(qtyInputs: int, qtyHiddenLayers: seq<int>, qtyOutputs: int)

  /** One weight per input from the preceding layer, the last computed
      activation, and a bias. Neurons are stored by value in their layers. */
  datatype Neuron = Neuron(weights: seq<real>, predicted: real, bias: real)

  /** The hidden layers (input side first) and the output layer. */
  datatype NeuronsLayers = NeuronsLayers(hiddenLayers: seq<seq<Neuron>>, outputLayer: seq<Neuron>)

  /** What the builder produces: the layers and two aggregate counts. */
  datatype DeepLayers = DeepLayers(networkLayers: NeuronsLayers, totalLogicLayers: nat, totalNeurons: nat)

  /** What the environment supplies to one call of `initNeuron`: the value
      `std::rand()` returns, the value `std::sqrt(2.0 / k)` returns, and the
      indeterminate bias and prediction of the freshly constructed neuron. */
  datatype InitDraw = InitDraw(rand: int, scale: real, bias: real, predicted: real)

  /** `d` is a possible environment answer for an `initNeuron(k)` call. */
  predicate DrawFor(d: InitDraw, k: int)
  {
    0 <= d.rand <= RAND_MAX && (k > 0 ==> 0.0 <= d.scale && d.scale * d.scale == 2.0 / k as real)
  }

  // ---------------------------------------------------------------------
  // Neuron::predict

  /** The dot product of `inputs` with the first `|inputs|` weights, summed
      from index 0 upwards. */
  function Dot(inputs: seq<real>, weights: seq<real>): (r: real)
    requires |inputs| <= |weights|
    ensures |inputs| == 0 ==> r == 0.0
    decreases |inputs|
  {
    if |inputs| == 0 then 0.0
    else Dot(inputs[..|inputs| - 1], weights) + inputs[|inputs| - 1] * weights[|inputs| - 1]
  }

  /** One more term of the left-to-right sum. */
  lemma DotStep(inputs: seq<real>, weights: seq<real>, i: nat)
    requires i < |inputs| <= |weights|
    ensures Dot(inputs[..i + 1], weights) == Dot(inputs[..i], weights) + inputs[i] * weights[i]
  {
    assert inputs[..i + 1][..i] == inputs[..i];
  }

  /** An all-zero input contributes nothing, whatever the weights. */
  lemma {:induction false} DotZero(inputs: seq<real>, weights: seq<real>)
    requires |inputs| <= |weights|
    requires forall i :: 0 <= i < |inputs| ==> inputs[i] == 0.0
    ensures Dot(inputs, weights) == 0.0
  {
    if |inputs| > 0 {
      DotZero(inputs[..|inputs| - 1], weights);
    }
  }

  /** Weights beyond the input length are never read. */
  lemma {:induction false} DotIgnoresExtraWeights(inputs: seq<real>, weights: seq<real>, other: seq<real>)
    requires |inputs| <= |weights| && |inputs| <= |other|
    requires weights[..|inputs|] == other[..|inputs|]
    ensures Dot(inputs, weights) == Dot(inputs, other)
  {
    if |inputs| > 0 {
      var k := |inputs| - 1;
      assert weights[k] == weights[..|inputs|][k] == other[..|inputs|][k] == other[k];
      assert weights[..k] == weights[..|inputs|][..k];
      assert other[..k] == other[..|inputs|][..k];
      DotIgnoresExtraWeights(inputs[..k], weights, other);
    }
  }

  /** The neuron after `predict(inputs)`: only `predicted` changes. */
  function Activated(n: Neuron, inputs: seq<real>, sigma: Logistic): (m: Neuron)
    requires |inputs| <= |n.weights|
  {
    n.(predicted := Swish(sigma, Dot(inputs, n.weights) + n.bias))
  }

  /** `Neuron::predict`: accumulates the dot product over `inputs.size()`
      elements (so the weights must be at least as many), adds the bias and
      stores the activation. */
  method Predict(n: Neuron, inputs: seq<real>, sigma: Logistic) returns (m: Neuron)
    requires |inputs| <= |n.weights|
    ensures m == Activated(n, inputs, sigma)
    ensures m.weights == n.weights && m.bias == n.bias
  {
    var preprocessed := 0.0;
    var weights := n.weights;
    var i := 0;
    while i < |inputs|
      invariant 0 <= i <= |inputs|
      invariant preprocessed == Dot(inputs[..i], weights)
    {
      DotStep(inputs, weights, i);
      preprocessed := preprocessed + inputs[i] * weights[i];
      i := i + 1;
    }
    assert inputs[..|inputs|] == inputs;
    assert preprocessed == Dot(inputs, n.weights);
    m := n.(predicted := Swish(sigma, preprocessed + n.bias));
  }

  /** With an all-zero input a neuron's activation is that of its bias alone;
      with a zero bias as well it is exactly 0. */
  lemma ActivatedOnZeroInput(n: Neuron, inputs: seq<real>, sigma: Logistic)
    requires |inputs| <= |n.weights|
    requires forall i :: 0 <= i < |inputs| ==> inputs[i] == 0.0
    ensures Activated(n, inputs, sigma).predicted == Swish(sigma, n.bias)
    ensures n.bias == 0.0 ==> Activated(n, inputs, sigma).predicted == 0.0
  {
    DotZero(inputs, n.weights);
  }

  // ---------------------------------------------------------------------
  // DeepLayers::initNeuron and the DeepLayers constructor

  /** The neuron `initNeuron(k)` returns for the environment answer `d`:
      `k` weights, every one the single He value drawn for the call. */
  function Prototype(k: nat, d: InitDraw): (n: Neuron)
    requires DrawFor(d, k)
    ensures |n.weights| == k && n.bias == d.bias && n.predicted == d.predicted
    ensures forall i :: 0 <= i < k ==> n.weights[i] == GenHe(k, d.rand, d.scale)
    ensures k > 0 ==> forall i :: 0 <= i < k ==> -d.scale <= n.weights[i] <= d.scale
  {
    var he := GenHe(k, d.rand, d.scale);
    assert k > 0 ==> -d.scale <= he <= d.scale by {
      if k > 0 { GenHeBound(k, d.rand, d.scale); }
    }
    Neuron(seq(k, _ => he), d.predicted, d.bias)
  }

  /** `DeepLayers::initNeuron`: a neuron with `prevNeurons` zero weights,
      each then overwritten with one He value. */
  method InitNeuron(prevNeurons: int, d: InitDraw) returns (n: Neuron)
    requires 0 <= prevNeurons && DrawFor(d, prevNeurons)
    ensures n == Prototype(prevNeurons, d)
  {
    n := Neuron(seq(prevNeurons, _ => 0.0), d.predicted, d.bias);
    var heCode := GenHe(prevNeurons, d.rand, d.scale);
    for i := 0 to prevNeurons
      invariant |n.weights| == prevNeurons && n.predicted == d.predicted && n.bias == d.bias
      invariant forall j :: 0 <= j < i ==> n.weights[j] == heCode
    {
      n := n.(weights := n.weights[i := heCode]);
    }
  }

  /** `std::vector::resize(count, value)` on an empty vector: `count` copies. */
  function Replicate(count: nat, proto: Neuron): (layer: seq<Neuron>)
    ensures |layer| == count && forall j :: 0 <= j < count ==> layer[j] == proto
  {
    seq(count, _ => proto)
  }

  /** No layer size is negative (a negative size makes `resize` fail). */
  predicate LayoutOk(layout: LayerLayout)
  {
    layout.qtyInputs >= 0 && layout.qtyOutputs >= 0 &&
    forall i :: 0 <= i < |layout.qtyHiddenLayers| ==> layout.qtyHiddenLayers[i] >= 0
  }

  /** Fan-in of hidden layer `i`: the input count, or the previous layer's size. */
  function FanIn(layout: LayerLayout, i: nat): int
    requires i < |layout.qtyHiddenLayers|
  {
    if i == 0 then layout.qtyInputs else layout.qtyHiddenLayers[i - 1]
  }

  /** Fan-in of the output layer: the last hidden size, or the input count. */
  function OutputFanIn(layout: LayerLayout): int
  {
    var h := layout.qtyHiddenLayers;
    if |h| == 0 then layout.qtyInputs else h[|h| - 1]
  }

  /** One draw per `initNeuron` call, in call order: one per hidden layer,
      then one for the output layer. */
  predicate DrawsFor(layout: LayerLayout, draws: seq<InitDraw>)
  {
    var h := layout.qtyHiddenLayers;
    |draws| == |h| + 1 &&
    (forall i :: 0 <= i < |h| ==> DrawFor(draws[i], FanIn(layout, i))) &&
    DrawFor(draws[|h|], OutputFanIn(layout))
  }

  /** The layers the constructor builds: every layer is `size` copies of one
      prototype whose fan-in is the preceding layer's size. */
  function Topology(layout: LayerLayout, draws: seq<InitDraw>): (t: NeuronsLayers)
    requires LayoutOk(layout) && DrawsFor(layout, draws)
  {
    var h := layout.qtyHiddenLayers;
    NeuronsLayers(
      seq(|h|, i requires 0 <= i < |h| => HiddenLayerOf(layout, draws, i)),
      Replicate(layout.qtyOutputs, Prototype(OutputFanIn(layout), draws[|h|])))
  }

  function HiddenLayerOf(layout: LayerLayout, draws: seq<InitDraw>, i: nat): (layer: seq<Neuron>)
    requires LayoutOk(layout) && DrawsFor(layout, draws) && i < |layout.qtyHiddenLayers|
    ensures |layer| == layout.qtyHiddenLayers[i]
  {
    Replicate(layout.qtyHiddenLayers[i], Prototype(FanIn(layout, i), draws[i]))
  }

  /** Sum of the hidden sizes, from the first layer on. */
  function Sum(s: seq<int>): (r: int)
    ensures (forall i :: 0 <= i < |s| ==> s[i] >= 0) ==> r >= 0
    decreases |s|
  {
    if |s| == 0 then 0 else Sum(s[..|s| - 1]) + s[|s| - 1]
  }

  /** The `DeepLayers` constructor. The source does not reject zero sizes; a
      negative size is excluded because `resize` cannot take it. */
  method BuildDeepLayers(layout: LayerLayout, draws: seq<InitDraw>) returns (d: DeepLayers)
    requires LayoutOk(layout) && DrawsFor(layout, draws)
    ensures d.networkLayers == Topology(layout, draws)
    ensures d.totalLogicLayers == |layout.qtyHiddenLayers| + 1
    ensures d.totalNeurons == Sum(layout.qtyHiddenLayers) + layout.qtyOutputs
  {
    var h := layout.qtyHiddenLayers;
    if |h| == 0 {
      var proto := InitNeuron(layout.qtyInputs, draws[0]);
      d := DeepLayers(NeuronsLayers([], Replicate(layout.qtyOutputs, proto)), 1, layout.qtyOutputs);
    } else {
      var totalHiddenNeurons: int := 0;
      var hidden: seq<seq<Neuron>> := seq(|h|, _ => []);
      var first := InitNeuron(layout.qtyInputs, draws[0]);
      hidden := hidden[0 := Replicate(h[0], first)];
      totalHiddenNeurons := totalHiddenNeurons + h[0];
      assert h[..1] == [h[0]];
      for i := 1 to |h|
        invariant |hidden| == |h|
        invariant forall k :: 0 <= k < i ==> hidden[k] == HiddenLayerOf(layout, draws, k)
        invariant totalHiddenNeurons == Sum(h[..i])
      {
        var qtyNeurons := h[i];
        assert h[..i + 1][..i] == h[..i];
        totalHiddenNeurons := totalHiddenNeurons + qtyNeurons;
        var proto := InitNeuron(|hidden[i - 1]|, draws[i]);
        hidden := hidden[i := Replicate(qtyNeurons, proto)];
      }
      var outProto := InitNeuron(|hidden[|h| - 1]|, draws[|h|]);
      var layers := NeuronsLayers(hidden, Replicate(layout.qtyOutputs, outProto));
      assert h[..|h|] == h;
      assert layers == Topology(layout, draws);
      d := DeepLayers(layers, |h| + 1, totalHiddenNeurons + layout.qtyOutputs);
    }
  }

  // ---------------------------------------------------------------------
  // Shape of a network and its fan-in chain

  /** The layer fed by the raw input: the first hidden layer, or the output
      layer when there is no hidden layer. */
  function FirstLayer(s: NeuronsLayers): seq<Neuron>
  {
    if |s.hiddenLayers| == 0 then s.outputLayer else s.hiddenLayers[0]
  }

  /** Every neuron after the first layer has exactly one weight per neuron
      of the layer before it. */
  predicate Chained(s: NeuronsLayers)
  {
    var h := s.hiddenLayers;
    (forall i, j :: 1 <= i < |h| && 0 <= j < |h[i]| ==> |h[i][j].weights| == |h[i - 1]|) &&
    (|h| > 0 ==> forall j :: 0 <= j < |s.outputLayer| ==> |s.outputLayer[j].weights| == |h[|h| - 1]|)
  }

  /** Every neuron of the first layer has exactly `n` weights. */
  predicate FirstLayerTakes(s: NeuronsLayers, n: nat)
  {
    forall j :: 0 <= j < |FirstLayer(s)| ==> |FirstLayer(s)[j].weights| == n
  }

  /** Number of neurons, inputs excluded. */
  function CountNeurons(s: NeuronsLayers): nat
  {
    LayerSizes(s.hiddenLayers) + |s.outputLayer|
  }

  function LayerSizes(h: seq<seq<Neuron>>): nat
    decreases |h|
  {
    if |h| == 0 then 0 else LayerSizes(h[..|h| - 1]) + |h[|h| - 1]|
  }

  /** The shape the constructor builds: one hidden layer per size with that
      many neurons, the fan-in chain (input count, then each previous size,
      the last one for the output layer), and one shared weight value per
      layer. */
  lemma TopologyShape(layout: LayerLayout, draws: seq<InitDraw>)
    requires LayoutOk(layout) && DrawsFor(layout, draws)
    ensures var t := Topology(layout, draws); var h := layout.qtyHiddenLayers;
      |t.hiddenLayers| == |h| &&
      (forall i :: 0 <= i < |h| ==> |t.hiddenLayers[i]| == h[i]) &&
      |t.outputLayer| == layout.qtyOutputs &&
      (forall i, j :: 0 <= i < |h| && 0 <= j < h[i] ==> |t.hiddenLayers[i][j].weights| == if i == 0 then layout.qtyInputs else h[i - 1]) &&
      (forall j :: 0 <= j < layout.qtyOutputs ==> |t.outputLayer[j].weights| == if |h| == 0 then layout.qtyInputs else h[|h| - 1]) &&
      Chained(t) && FirstLayerTakes(t, layout.qtyInputs)
  {
  }

  /** All neurons of one layer are copies of one prototype: their weights
      are identical, and within one neuron all weights are equal. */
  lemma TopologyLayerUniform(layout: LayerLayout, draws: seq<InitDraw>, i: nat, j: nat, j': nat, k: nat)
    requires LayoutOk(layout) && DrawsFor(layout, draws)
    requires i < |layout.qtyHiddenLayers| && j < layout.qtyHiddenLayers[i] && j' < layout.qtyHiddenLayers[i]
    ensures var l := Topology(layout, draws).hiddenLayers[i];
      l[j] == l[j'] && (k < |l[j].weights| ==> l[j].weights[k] == l[j].weights[0])
  {
  }

  /** The same holds for the output layer, which is also filled with copies
      of one prototype. */
  lemma TopologyOutputUniform(layout: LayerLayout, draws: seq<InitDraw>, j: nat, j': nat, k: nat)
    requires LayoutOk(layout) && DrawsFor(layout, draws)
    requires j < layout.qtyOutputs && j' < layout.qtyOutputs
    ensures var l := Topology(layout, draws).outputLayer;
      l[j] == l[j'] && (k < |l[j].weights| ==> l[j].weights[k] == l[j].weights[0])
  {
  }

  /** The built-in count `TotalNeurons` really counts the layers' neurons. */
  lemma {:induction false} TopologyCount(layout: LayerLayout, draws: seq<InitDraw>)
    requires LayoutOk(layout) && DrawsFor(layout, draws)
    ensures CountNeurons(Topology(layout, draws)) == Sum(layout.qtyHiddenLayers) + layout.qtyOutputs
  {
    var t := Topology(layout, draws);
    SizesMatch(t.hiddenLayers, layout.qtyHiddenLayers);
  }

  lemma {:induction false} SizesMatch(h: seq<seq<Neuron>>, sizes: seq<int>)
    requires |h| == |sizes| && forall i :: 0 <= i < |h| ==> |h[i]| == sizes[i]
    ensures LayerSizes(h) == Sum(sizes)
    decreases |h|
  {
    if |h| > 0 {
      SizesMatch(h[..|h| - 1], sizes[..|sizes| - 1]);
    }
  }
}
