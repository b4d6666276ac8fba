/** `DeepNetwork`: the network object whose methods update its layers in
    place. Every method is proved to compute what the functions of module
    NetworkSpec describe. */
module NeuralNet {
  import opened Activation
  import opened Neurons
  import opened NetworkSpec

  class DeepNetwork {
    /** The learning rate; the source never changes it. */
    const learnRate: real := DEFAULT_LEARNRATE
    /** The logistic function `swish` and `dx_swish` are built on. */
    const sigma: Logistic
    /** The layers of the layout, updated by `forward` and `backward`. */
    var hiddenLayers: seq<seq<Neuron>>
    var outputLayer: seq<Neuron>
    /** The builder's counts; nothing updates them. */
    const totalLogicLayers: nat
    const totalNeurons: nat

    function Layers(): NeuronsLayers
      reads this
    {
      NeuronsLayers(hiddenLayers, outputLayer)
    }

    /** `DeepNetwork(layers)`: keeps the built layout. */
    constructor (layers: DeepLayers, sigma: Logistic)
      ensures Layers() == layers.networkLayers && this.sigma == sigma
      ensures totalLogicLayers == layers.totalLogicLayers && totalNeurons == layers.totalNeurons
    {
      this.sigma := sigma;
      hiddenLayers := layers.networkLayers.hiddenLayers;
      outputLayer := layers.networkLayers.outputLayer;
      totalLogicLayers := layers.totalLogicLayers;
      totalNeurons := layers.totalNeurons;
    }

    /** `_get_predicts`: the stored predictions of `layer`, in order. */
    method GetPredicts(layer: seq<Neuron>) returns (predicts: seq<real>)
      ensures |predicts| == |layer| && forall j :: 0 <= j < |layer| ==> predicts[j] == layer[j].predicted
      ensures predicts == Predicts(layer)
    {
      predicts := [];
      for j := 0 to |layer|
        invariant |predicts| == j && forall k :: 0 <= k < j ==> predicts[k] == layer[k].predicted
      {
        predicts := predicts + [layer[j].predicted];
      }
    }

    /** One of the loops of `forward`: `predict(inputs)` on every neuron of
        `layer`, first to last. */
    method PredictAll(layer: seq<Neuron>, inputs: seq<real>) returns (r: seq<Neuron>)
      requires Accepts(layer, |inputs|)
      ensures r == PredictLayer(layer, inputs, sigma)
      ensures LayerParams(r) == LayerParams(layer)
    {
      r := layer;
      for j := 0 to |layer|
        invariant |r| == |layer|
        invariant forall k :: 0 <= k < j ==> r[k] == Activated(layer[k], inputs, sigma)
        invariant forall k :: j <= k < |layer| ==> r[k] == layer[k]
      {
        var m := Predict(r[j], inputs, sigma);
        r := r[j := m];
      }
    }

    /** `forward`: with no hidden layer the output layer predicts from the
        input; otherwise hidden layer 0 predicts from the input, every later
        hidden layer from the predictions just stored in the one before, and
        the output layer from the last hidden layer. */
    method Forward(inputset: seq<real>)
      modifies this
      requires ForwardFits(Layers(), |inputset|)
      ensures Layers() == ForwardPass(old(Layers()), inputset, sigma)
    {
      ghost var s0 := Layers();
      ForwardFitsLayers(s0, |inputset|);
      if |hiddenLayers| == 0 {
        outputLayer := PredictAll(outputLayer, inputset);
      } else {
        var H := |hiddenLayers|;
        ghost var F := ForwardHidden(s0.hiddenLayers, inputset, sigma);
        ForwardHiddenAt(s0.hiddenLayers, inputset, sigma, 0);
        var first := PredictAll(hiddenLayers[0], inputset);
        hiddenLayers := hiddenLayers[0 := first];
        for i := 1 to H
          invariant |hiddenLayers| == H && outputLayer == s0.outputLayer
          invariant forall k :: 0 <= k < i ==> hiddenLayers[k] == F[k]
          invariant forall k :: i <= k < H ==> hiddenLayers[k] == s0.hiddenLayers[k]
        {
          ForwardHiddenAt(s0.hiddenLayers, inputset, sigma, i);
          var prev := GetPredicts(hiddenLayers[i - 1]);
          var layer := PredictAll(hiddenLayers[i], prev);
          hiddenLayers := hiddenLayers[i := layer];
        }
        assert hiddenLayers == F;
        var last := GetPredicts(hiddenLayers[H - 1]);
        outputLayer := PredictAll(outputLayer, last);
      }
    }

    /** `_update_wb`: the learning rate times `delta`, clipped to the
        threshold, is subtracted from the bias and, times the matching entry
        of `prevPredicts`, from every weight. */
    method UpdateWb(n: Neuron, prevPredicts: seq<real>, delta: real) returns (m: Neuron)
      requires |n.weights| <= |prevPredicts|
      ensures m == Stepped(n, prevPredicts, ClippedStep(delta))
      ensures |m.weights| == |n.weights| && m.predicted == n.predicted
      ensures forall j :: 0 <= j < |n.weights| ==> m.weights[j] == n.weights[j] - ClippedStep(delta) * prevPredicts[j]
      ensures m.bias == n.bias - ClippedStep(delta)
    {
      var g := learnRate * delta;
      if Abs(g) > GRADIENT_CLIP_THRESHOLD {
        g := if g > 0.0 then GRADIENT_CLIP_THRESHOLD else -GRADIENT_CLIP_THRESHOLD;
      }
      assert g == ClippedStep(delta);
      ghost var target := Stepped(n, prevPredicts, g);
      var weights := n.weights;
      for j := 0 to |weights|
        invariant |weights| == |n.weights|
        invariant forall k :: 0 <= k < j ==> weights[k] == n.weights[k] - g * prevPredicts[k]
        invariant forall k :: j <= k < |weights| ==> weights[k] == n.weights[k]
      {
        weights := weights[j := weights[j] - g * prevPredicts[j]];
      }
      assert forall k :: 0 <= k < |weights| ==> target.weights[k] == n.weights[k] - g * prevPredicts[k];
      assert weights == target.weights;
      m := n.(weights := weights, bias := n.bias - g);
    }

    /** `_layer_backward`: neuron `i` of `mainlayer` takes the step for the
        loss gradient of its own prediction against `target[i]`. */
    method LayerBackward(mainlayer: seq<Neuron>, prevPredicts: seq<real>, target: seq<real>) returns (r: seq<Neuron>)
      requires Spans(mainlayer, |prevPredicts|) && |mainlayer| <= |target|
      ensures r == BackwardLayer(mainlayer, prevPredicts, target, sigma)
      ensures LayerShape(r) == LayerShape(mainlayer) && Predicts(r) == Predicts(mainlayer)
    {
      r := mainlayer;
      for i := 0 to |mainlayer|
        invariant |r| == |mainlayer|
        invariant forall k :: 0 <= k < i ==>
          r[k] == Stepped(mainlayer[k], prevPredicts, ClippedStep(LossGradient(sigma, mainlayer[k].predicted, target[k])))
        invariant forall k :: i <= k < |mainlayer| ==> r[k] == mainlayer[k]
      {
        var m := UpdateWb(r[i], prevPredicts, LossGradient(sigma, r[i].predicted, target[i]));
        r := r[i := m];
      }
    }

    /** `backward`: the output layer first, then hidden layers `H - 2` down
        to 1, then hidden layer 0; each is updated against the predictions
        of the layer before it (the input for layer 0, and for the output
        layer when there is no hidden layer). */
    method Backward(data: Dataset)
      modifies this
      requires BackwardFits(Layers(), data)
      ensures Layers() == BackwardPass(old(Layers()), data, sigma)
    {
      ghost var s0 := Layers();
      ghost var plan := BackwardPlan(|hiddenLayers|);
      BackwardFirstStep(s0, data, sigma);
      if |hiddenLayers| == 0 {
        outputLayer := LayerBackward(outputLayer, data.input, data.target);
        assert plan[..1] == plan;
      } else {
        var last := GetPredicts(hiddenLayers[|hiddenLayers| - 1]);
        outputLayer := LayerBackward(outputLayer, last, data.target);
        BackwardMiddleLayers(data, s0);
        BackwardLastStep(s0, data, sigma);
        var first := LayerBackward(hiddenLayers[0], data.input, data.target);
        hiddenLayers := hiddenLayers[0 := first];
      }
    }

    /** The loop of `backward` over hidden layers `H - 2` down to 1, from
        the state the output-layer update of `s0` leaves. */
    method BackwardMiddleLayers(data: Dataset, ghost s0: NeuronsLayers)
      modifies this
      requires BackwardFits(s0, data) && |s0.hiddenLayers| > 0
      requires PlanFits(Shape(s0), BackwardPlan(|s0.hiddenLayers|)[..1], |data.input|, |data.target|)
      requires Layers() == RunPlan(s0, BackwardPlan(|s0.hiddenLayers|)[..1], data, sigma)
      ensures var plan := BackwardPlan(|s0.hiddenLayers|);
        PlanFits(Shape(s0), plan[..|plan| - 1], |data.input|, |data.target|) &&
        Layers() == RunPlan(s0, plan[..|plan| - 1], data, sigma)
    {
      ghost var H := |s0.hiddenLayers|;
      ghost var plan := BackwardPlan(H);
      var i: int := |hiddenLayers| - 2;
      ghost var done := 1;
      while i > 0
        invariant -1 <= i <= H - 2
        invariant i >= 0 ==> done == H - 1 - i
        invariant i < 0 ==> H == 1 && done == 1
        invariant PlanFits(Shape(s0), plan[..done], |data.input|, |data.target|)
        invariant Layers() == RunPlan(s0, plan[..done], data, sigma)
      {
        BackwardLoopStep(s0, data, sigma, i, done);
        var prev := GetPredicts(hiddenLayers[i - 1]);
        var layer := LayerBackward(hiddenLayers[i], prev, data.target);
        hiddenLayers := hiddenLayers[i := layer];
        i := i - 1;
        done := done + 1;
      }
    }

    /** `Train`: `epochs` passes over `dataset` (none when `epochs <= 0`),
        each running `forward` and then `backward` on every example in
        order. */
    method Train(dataset: seq<Dataset>, epochs: int)
      modifies this
      requires epochs > 0 ==> AllFit(Shape(Layers()), dataset)
      ensures Layers() == Trained(old(Layers()), dataset, epochs, sigma)
      ensures Shape(Layers()) == Shape(old(Layers()))
    {
      ghost var s0 := Layers();
      var epoch := 0;
      while epoch < epochs
        invariant 0 <= epoch && (epochs >= 0 ==> epoch <= epochs)
        invariant Shape(Layers()) == Shape(s0)
        invariant Trained(Layers(), dataset, epochs - epoch, sigma) == Trained(s0, dataset, epochs, sigma)
      {
        TrainedStep(Layers(), dataset, epochs - epoch, sigma);
        RunEpoch(dataset);
        epoch := epoch + 1;
      }
      TrainedNone(Layers(), dataset, epochs - epoch, sigma);
    }

    /** The body of the epoch loop of `Train`: every example in order. */
    method RunEpoch(dataset: seq<Dataset>)
      modifies this
      requires AllFit(Shape(Layers()), dataset)
      ensures Layers() == Epoch(old(Layers()), dataset, sigma)
    {
      ghost var start := Layers();
      for k := 0 to |dataset|
        invariant AllFit(Shape(start), dataset[..k])
        invariant Layers() == Epoch(start, dataset[..k], sigma)
      {
        EpochExample(start, dataset, k, sigma, Layers());
        var data := dataset[k];
        Forward(data.input);
        Backward(data);
      }
      assert dataset[..|dataset|] == dataset;
    }

    /** `GetOutput`: `forward(inputs)`, then the stored predictions of the
        output layer. */
    method GetOutput(inputs: seq<real>) returns (outs: seq<real>)
      modifies this
      requires ForwardFits(Layers(), |inputs|)
      ensures Layers() == ForwardPass(old(Layers()), inputs, sigma)
      ensures outs == Output(old(Layers()), inputs, sigma)
    {
      Forward(inputs);
      outs := [];
      for i := 0 to |outputLayer|
        invariant |outs| == i && forall k :: 0 <= k < i ==> outs[k] == outputLayer[k].predicted
      {
        outs := outs + [outputLayer[i].predicted];
      }
    }
  }
}
