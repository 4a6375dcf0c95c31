/**
 The network-level reasoner's view of a layered feed-forward network:
 layer sizes, per-neuron activation functions, weights stored flat per
 source layer, biases, and the maps from neurons to the solver variables
 holding their weighted sums and activation results; plus forward
 evaluation of the network on a concrete input.

 The reasoner object becomes the immutable record `Reasoner`; each setter
 returns the updated record.
 */
module NetworkLevelReasoner {

  import opened Common

  /** The only activation function the reasoner evaluates; a neuron with none is linear. */
  datatype ActivationFunction = ReLU

  datatype NeuronIndex = NeuronIndex(layer: nat, neuron: nat)

  /**
   `weights[l]` holds the weights from layer `l` to layer `l + 1`, the weight
   from source neuron `j` to target neuron `i` at index `j * Size(l + 1) + i`.
   */
  datatype Reasoner = Reasoner(
    numberOfLayers: nat,
    layerSizes: map<nat, nat>,
    neuronToActivationFunction: map<NeuronIndex, ActivationFunction>,
    weights: seq<seq<real>>,
    bias: map<NeuronIndex, real>,
    indexToWeightedSumVariable: map<NeuronIndex, nat>,
    indexToActivationResultVariable: map<NeuronIndex, nat>)

  // ------------------------------------------------------------------ topology

  /** A freshly constructed reasoner: no layers, no weights, no mappings. */
  function NewReasoner(): (r: Reasoner)
    ensures r.numberOfLayers == 0 && |r.weights| == 0
    ensures forall l: nat :: Size(r, l) == 0
  {
    Reasoner(0, map[], map[], [], map[], map[], map[])
  }

  /** The size of a layer; a layer whose size was never set has none. */
  function Size(r: Reasoner, layer: nat): nat
  {
    if layer in r.layerSizes then r.layerSizes[layer] else 0
  }

  function SetNumberOfLayers(r: Reasoner, numberOfLayers: nat): (r': Reasoner)
    ensures r'.numberOfLayers == numberOfLayers
    ensures r'.(numberOfLayers := r.numberOfLayers) == r
  {
    r.(numberOfLayers := numberOfLayers)
  }

  function SetLayerSize(r: Reasoner, layer: nat, size: nat): (r': Reasoner)
    ensures Size(r', layer) == size
    ensures forall l :: l != layer ==> Size(r', l) == Size(r, l)
    ensures r'.(layerSizes := r.layerSizes) == r
  {
    r.(layerSizes := r.layerSizes[layer := size])
  }

  /** Every layer has a size. */
  predicate SizesKnown(r: Reasoner)
  {
    forall l :: 0 <= l < r.numberOfLayers ==> l in r.layerSizes
  }

  /** The weight tables have one row per pair of adjacent layers, of the right length. */
  predicate WeightsAllocated(r: Reasoner)
  {
    && |r.weights| == (if r.numberOfLayers == 0 then 0 else r.numberOfLayers - 1)
    && forall l :: 0 <= l < |r.weights| ==> |r.weights[l]| == RowLength(r, l)
  }

  /** The number of weights from layer `l` to layer `l + 1`. */
  function RowLength(r: Reasoner, l: nat): nat
  {
    Size(r, l) * Size(r, l + 1)
  }

  /** A reasoner ready for evaluation: an input and an output layer at least, and allocated weights. */
  predicate WellFormed(r: Reasoner)
  {
    r.numberOfLayers >= 2 && SizesKnown(r) && WeightsAllocated(r)
  }

  /**
   Allocate the weight tables once the layer sizes are known, with every
   weight zero (an edge never given a weight does not contribute).
   */
  function AllocateMemoryByTopology(r: Reasoner): (r': Reasoner)
    requires SizesKnown(r)
    ensures WeightsAllocated(r') && SizesKnown(r')
    ensures r'.numberOfLayers >= 2 ==> WellFormed(r')
    ensures forall l, k :: 0 <= l < |r'.weights| && 0 <= k < |r'.weights[l]| ==> r'.weights[l][k] == 0.0
    ensures r'.(weights := r.weights) == r
  {
    var rows := if r.numberOfLayers == 0 then 0 else r.numberOfLayers - 1;
    r.(weights := seq(rows, l requires 0 <= l < rows => seq(RowLength(r, l), k => 0.0)))
  }

  // ------------------------------------------------------------------- weights

  /** Row-major flattening of a (rows x columns) table stays inside the table. */
  lemma FlatIndexInRange(row: nat, column: nat, rows: nat, columns: nat)
    requires row < rows && column < columns
    ensures row * columns + column < rows * columns
  {
    assert row * columns + column < (row + 1) * columns;
    MultiplyMonotone(row + 1, rows, columns);
  }

  lemma MultiplyMonotone(x: nat, y: nat, z: nat)
    requires x <= y
    ensures x * z <= y * z
  {
  }

  /** Row-major flattening sends distinct cells to distinct indices. */
  lemma {:induction false} FlatIndexInjective(row: nat, column: nat, row': nat, column': nat, columns: nat)
    requires column < columns && column' < columns
    requires row * columns + column == row' * columns + column'
    ensures row == row' && column == column'
  {
    if row < row' {
      assert row * columns + column < (row + 1) * columns;
      MultiplyMonotone(row + 1, row', columns);
      assert false;
    } else if row' < row {
      assert row' * columns + column' < (row' + 1) * columns;
      MultiplyMonotone(row' + 1, row, columns);
      assert false;
    }
  }

  /** The neuron `targetNeuron` of layer `sourceLayer + 1` exists, as does `sourceNeuron` of `sourceLayer`. */
  predicate IsEdge(r: Reasoner, sourceLayer: nat, sourceNeuron: nat, targetNeuron: nat)
  {
    sourceLayer + 1 < r.numberOfLayers
    && sourceNeuron < Size(r, sourceLayer) && targetNeuron < Size(r, sourceLayer + 1)
  }

  /** The weight of the edge from `sourceNeuron` in `sourceLayer` to `targetNeuron` in the next layer. */
  function Weight(r: Reasoner, sourceLayer: nat, sourceNeuron: nat, targetNeuron: nat): real
    requires WellFormed(r) && IsEdge(r, sourceLayer, sourceNeuron, targetNeuron)
  {
    FlatIndexInRange(sourceNeuron, targetNeuron, Size(r, sourceLayer), Size(r, sourceLayer + 1));
    r.weights[sourceLayer][sourceNeuron * Size(r, sourceLayer + 1) + targetNeuron]
  }

  /** Set one edge's weight; no other edge's weight changes. */
  function SetWeight(r: Reasoner, sourceLayer: nat, sourceNeuron: nat, targetNeuron: nat, weight: real): (r': Reasoner)
    requires WellFormed(r) && IsEdge(r, sourceLayer, sourceNeuron, targetNeuron)
    ensures WellFormed(r')
    ensures r'.(weights := r.weights) == r
    ensures Weight(r', sourceLayer, sourceNeuron, targetNeuron) == weight
    ensures forall l: nat, j: nat, i: nat :: IsEdge(r, l, j, i) && (l, j, i) != (sourceLayer, sourceNeuron, targetNeuron) ==>
              Weight(r', l, j, i) == Weight(r, l, j, i)
  {
    var columns := Size(r, sourceLayer + 1);
    FlatIndexInRange(sourceNeuron, targetNeuron, Size(r, sourceLayer), columns);
    var k := sourceNeuron * columns + targetNeuron;
    var r' := r.(weights := r.weights[sourceLayer := r.weights[sourceLayer][k := weight]]);
    forall l | 0 <= l < |r'.weights|
      ensures |r'.weights[l]| == RowLength(r', l)
    {
      assert RowLength(r', l) == RowLength(r, l);
    }
    forall l: nat, j: nat, i: nat | IsEdge(r, l, j, i) && (l, j, i) != (sourceLayer, sourceNeuron, targetNeuron)
      ensures Weight(r', l, j, i) == Weight(r, l, j, i)
    {
      if l == sourceLayer {
        FlatIndexInRange(j, i, Size(r, l), columns);
        if j * columns + i == k {
          FlatIndexInjective(j, i, sourceNeuron, targetNeuron, columns);
        }
      }
    }
    r'
  }

  // ------------------------------------------------------ biases, activations

  /** The bias of a neuron; a neuron never given one has bias zero. */
  function Bias(r: Reasoner, layer: nat, neuron: nat): real
  {
    var index := NeuronIndex(layer, neuron);
    if index in r.bias then r.bias[index] else 0.0
  }

  function SetBias(r: Reasoner, layer: nat, neuron: nat, bias: real): (r': Reasoner)
    ensures Bias(r', layer, neuron) == bias
    ensures forall l: nat, n: nat :: (l, n) != (layer, neuron) ==> Bias(r', l, n) == Bias(r, l, n)
    ensures r'.(bias := r.bias) == r
  {
    r.(bias := r.bias[NeuronIndex(layer, neuron) := bias])
  }

  function SetNeuronActivationFunction(r: Reasoner, layer: nat, neuron: nat, activation: ActivationFunction): (r': Reasoner)
    ensures IsRelu(r', layer, neuron)
    ensures forall l: nat, n: nat :: (l, n) != (layer, neuron) ==> (IsRelu(r', l, n) <==> IsRelu(r, l, n))
    ensures r'.(neuronToActivationFunction := r.neuronToActivationFunction) == r
  {
    r.(neuronToActivationFunction := r.neuronToActivationFunction[NeuronIndex(layer, neuron) := activation])
  }

  predicate IsRelu(r: Reasoner, layer: nat, neuron: nat)
  {
    NeuronIndex(layer, neuron) in r.neuronToActivationFunction
  }

  /**
   The activation result of a neuron with weighted sum `x`: a ReLU neuron
   clips negative sums to 0, a neuron without an activation function passes
   its sum through.
   */
  function Activate(r: Reasoner, layer: nat, neuron: nat, x: real): (y: real)
    ensures y >= x
    ensures IsRelu(r, layer, neuron) ==> y >= 0.0 && (y == x || y == 0.0)
    ensures !IsRelu(r, layer, neuron) ==> y == x
  {
    if NeuronIndex(layer, neuron) in r.neuronToActivationFunction then
      match r.neuronToActivationFunction[NeuronIndex(layer, neuron)]
      case ReLU => Relu(x)
    else x
  }

  /** Activation is monotone in the weighted sum, which lets interval bounds pass through it. */
  lemma ActivateMonotone(r: Reasoner, layer: nat, neuron: nat, x: real, x': real)
    requires x <= x'
    ensures Activate(r, layer, neuron, x) <= Activate(r, layer, neuron, x')
  {
    if IsRelu(r, layer, neuron) {
      ReluMonotone(x, x');
    }
  }

  // ------------------------------------------------------ neuron <-> variable

  function SetWeightedSumVariable(r: Reasoner, layer: nat, neuron: nat, variable: nat): (r': Reasoner)
    ensures GetWeightedSumVariable(r', layer, neuron) == Some(variable)
    ensures forall l: nat, n: nat :: (l, n) != (layer, neuron) ==>
              GetWeightedSumVariable(r', l, n) == GetWeightedSumVariable(r, l, n)
    ensures r'.(indexToWeightedSumVariable := r.indexToWeightedSumVariable) == r
  {
    r.(indexToWeightedSumVariable := r.indexToWeightedSumVariable[NeuronIndex(layer, neuron) := variable])
  }

  /** The variable of a neuron's weighted sum, if one was set. */
  function GetWeightedSumVariable(r: Reasoner, layer: nat, neuron: nat): (v: Option<nat>)
    ensures v.None? <==> NeuronIndex(layer, neuron) !in r.indexToWeightedSumVariable
    ensures v.Some? ==> v.value in r.indexToWeightedSumVariable.Values
  {
    var index := NeuronIndex(layer, neuron);
    if index in r.indexToWeightedSumVariable then Some(r.indexToWeightedSumVariable[index]) else None
  }

  function SetActivationResultVariable(r: Reasoner, layer: nat, neuron: nat, variable: nat): (r': Reasoner)
    ensures GetActivationResultVariable(r', layer, neuron) == Some(variable)
    ensures forall l: nat, n: nat :: (l, n) != (layer, neuron) ==>
              GetActivationResultVariable(r', l, n) == GetActivationResultVariable(r, l, n)
    ensures r'.(indexToActivationResultVariable := r.indexToActivationResultVariable) == r
  {
    r.(indexToActivationResultVariable := r.indexToActivationResultVariable[NeuronIndex(layer, neuron) := variable])
  }

  /** The variable of a neuron's activation result, if one was set. */
  function GetActivationResultVariable(r: Reasoner, layer: nat, neuron: nat): (v: Option<nat>)
    ensures v.None? <==> NeuronIndex(layer, neuron) !in r.indexToActivationResultVariable
    ensures v.Some? ==> v.value in r.indexToActivationResultVariable.Values
  {
    var index := NeuronIndex(layer, neuron);
    if index in r.indexToActivationResultVariable then Some(r.indexToActivationResultVariable[index]) else None
  }

  // ---------------------------------------------------------------- evaluation

  /** sum over k of ws[k] * xs[k], accumulated left to right. */
  function Dot(ws: seq<real>, xs: seq<real>): real
    requires |ws| == |xs|
  {
    if |ws| == 0 then 0.0
    else Dot(ws[..|ws| - 1], xs[..|xs| - 1]) + ws[|ws| - 1] * xs[|xs| - 1]
  }

  /** The weights into `targetNeuron` of layer `layer`, one per neuron of layer `layer - 1`. */
  function IncomingWeights(r: Reasoner, layer: nat, targetNeuron: nat): (ws: seq<real>)
    requires WellFormed(r) && 1 <= layer < r.numberOfLayers && targetNeuron < Size(r, layer)
    ensures |ws| == Size(r, layer - 1)
    ensures forall j :: 0 <= j < |ws| ==> ws[j] == Weight(r, layer - 1, j, targetNeuron)
  {
    seq(Size(r, layer - 1), j requires 0 <= j < Size(r, layer - 1) => Weight(r, layer - 1, j, targetNeuron))
  }

  /** Weighted sums of layer `layer` given the activation results of the layer before it. */
  function WeightedSums(r: Reasoner, previous: seq<real>, layer: nat): (ws: seq<real>)
    requires WellFormed(r) && 1 <= layer < r.numberOfLayers && |previous| == Size(r, layer - 1)
    ensures |ws| == Size(r, layer)
    ensures forall i :: 0 <= i < |ws| ==> ws[i] == Bias(r, layer, i) + Dot(IncomingWeights(r, layer, i), previous)
  {
    seq(Size(r, layer), i requires 0 <= i < Size(r, layer) =>
      Bias(r, layer, i) + Dot(IncomingWeights(r, layer, i), previous))
  }

  /** Activation results of a layer given its weighted sums. */
  function ActivationResults(r: Reasoner, weightedSums: seq<real>, layer: nat): (act: seq<real>)
    ensures |act| == |weightedSums|
    ensures forall i :: 0 <= i < |act| ==> act[i] == Activate(r, layer, i, weightedSums[i])
  {
    seq(|weightedSums|, i requires 0 <= i < |weightedSums| => Activate(r, layer, i, weightedSums[i]))
  }

  /** The activation results of layer `layer`: the input itself for the input layer. */
  function Activations(r: Reasoner, input: seq<real>, layer: nat): (act: seq<real>)
    requires WellFormed(r) && |input| == Size(r, 0) && layer < r.numberOfLayers
    ensures |act| == Size(r, layer)
    decreases layer
  {
    if layer == 0 then input
    else ActivationResults(r, WeightedSums(r, Activations(r, input, layer - 1), layer), layer)
  }

  /** The network's output: the weighted sums of the last layer (no activation is applied there). */
  function Output(r: Reasoner, input: seq<real>): (output: seq<real>)
    requires WellFormed(r) && |input| == Size(r, 0)
    ensures |output| == Size(r, r.numberOfLayers - 1)
  {
    WeightedSums(r, Activations(r, input, r.numberOfLayers - 2), r.numberOfLayers - 1)
  }

  /** The weighted sum of one neuron of a non-input layer on `input`. */
  function NeuronWeightedSum(r: Reasoner, input: seq<real>, layer: nat, neuron: nat): real
    requires WellFormed(r) && |input| == Size(r, 0)
    requires 1 <= layer < r.numberOfLayers && neuron < Size(r, layer)
  {
    WeightedSums(r, Activations(r, input, layer - 1), layer)[neuron]
  }

  /** The activation result of one neuron on `input`. */
  function NeuronActivation(r: Reasoner, input: seq<real>, layer: nat, neuron: nat): real
    requires WellFormed(r) && |input| == Size(r, 0)
    requires layer < r.numberOfLayers && neuron < Size(r, layer)
  {
    Activations(r, input, layer)[neuron]
  }

  /**
   Each neuron of a non-input layer computes bias plus the weighted
   activation results of the layer before, then its activation function;
   input-layer activations are the inputs; the output is the last layer's
   weighted sums.
   */
  lemma EvaluationByNeuron(r: Reasoner, input: seq<real>, layer: nat, neuron: nat)
    requires WellFormed(r) && |input| == Size(r, 0)
    requires layer < r.numberOfLayers && neuron < Size(r, layer)
    ensures layer == 0 ==> NeuronActivation(r, input, layer, neuron) == input[neuron]
    ensures layer >= 1 ==>
              NeuronWeightedSum(r, input, layer, neuron)
              == Bias(r, layer, neuron) + Dot(IncomingWeights(r, layer, neuron), Activations(r, input, layer - 1))
    ensures layer >= 1 ==>
              NeuronActivation(r, input, layer, neuron)
              == (if IsRelu(r, layer, neuron) then Relu(NeuronWeightedSum(r, input, layer, neuron))
                  else NeuronWeightedSum(r, input, layer, neuron))
    ensures layer == r.numberOfLayers - 1 ==>
              Output(r, input)[neuron] == NeuronWeightedSum(r, input, layer, neuron)
  {
    if layer >= 1 {
      var previous := Activations(r, input, layer - 1);
      var ws := WeightedSums(r, previous, layer);
      assert NeuronWeightedSum(r, input, layer, neuron) == ws[neuron];
      assert Activations(r, input, layer) == ActivationResults(r, ws, layer);
      assert NeuronActivation(r, input, layer, neuron) == Activate(r, layer, neuron, ws[neuron]);
    }
  }

  /**
   The weighted sums of one layer, accumulated neuron by neuron in the
   reasoner's work buffer: the products of the previous layer's results
   with the weights first, then the bias.
   */
  method ComputeWeightedSums(r: Reasoner, previous: seq<real>, layer: nat) returns (ws: seq<real>)
    requires WellFormed(r) && 1 <= layer < r.numberOfLayers && |previous| == Size(r, layer - 1)
    ensures ws == WeightedSums(r, previous, layer)
  {
    ws := [];
    var target := 0;
    while target < Size(r, layer)
      invariant 0 <= target <= Size(r, layer)
      invariant |ws| == target
      invariant forall i :: 0 <= i < target ==> ws[i] == WeightedSums(r, previous, layer)[i]
    {
      var incoming := IncomingWeights(r, layer, target);
      var sum := 0.0;
      var source := 0;
      while source < Size(r, layer - 1)
        invariant 0 <= source <= Size(r, layer - 1)
        invariant sum == Dot(incoming[..source], previous[..source])
      {
        assert incoming[..source + 1][..source] == incoming[..source];
        assert previous[..source + 1][..source] == previous[..source];
        sum := sum + Weight(r, layer - 1, source, target) * previous[source];
        source := source + 1;
      }
      assert incoming[..source] == incoming && previous[..source] == previous;
      ws := ws + [sum + Bias(r, layer, target)];
      target := target + 1;
    }
  }

  /** `m` extended with the values of one layer, keyed by neuron. */
  function AddLayer(m: map<NeuronIndex, real>, layer: nat, values: seq<real>): (m': map<NeuronIndex, real>)
    ensures forall index :: index in m' <==> index in m || (index.layer == layer && index.neuron < |values|)
    ensures forall index :: index in m' ==>
              m'[index] == if index.layer == layer && index.neuron < |values| then values[index.neuron] else m[index]
  {
    m + map i | 0 <= i < |values| :: NeuronIndex(layer, i) := values[i]
  }

  /** `m` holds the weighted sum of exactly the neurons of layers 1 .. upTo - 1. */
  ghost predicate RecordsWeightedSums(r: Reasoner, input: seq<real>, m: map<NeuronIndex, real>, upTo: nat)
    requires WellFormed(r) && |input| == Size(r, 0) && upTo <= r.numberOfLayers
  {
    && (forall index :: index in m ==> 1 <= index.layer < upTo && index.neuron < Size(r, index.layer))
    && (forall index: NeuronIndex :: 1 <= index.layer < upTo && index.neuron < Size(r, index.layer) ==>
          index in m && m[index] == NeuronWeightedSum(r, input, index.layer, index.neuron))
  }

  /** `m` holds the activation result of exactly the neurons of layers 0 .. upTo - 1. */
  ghost predicate RecordsActivations(r: Reasoner, input: seq<real>, m: map<NeuronIndex, real>, upTo: nat)
    requires WellFormed(r) && |input| == Size(r, 0) && upTo <= r.numberOfLayers
  {
    && (forall index :: index in m ==> index.layer < upTo && index.neuron < Size(r, index.layer))
    && (forall index: NeuronIndex :: index.layer < upTo && index.neuron < Size(r, index.layer) ==>
          index in m && m[index] == NeuronActivation(r, input, index.layer, index.neuron))
  }

  /** The weighted sums of a layer, computed from the previous layer's activations, are its neurons' weighted sums. */
  lemma WeightedSumsByNeuron(r: Reasoner, input: seq<real>, previous: seq<real>, layer: nat, ws: seq<real>)
    requires WellFormed(r) && |input| == Size(r, 0) && 1 <= layer < r.numberOfLayers
    requires previous == Activations(r, input, layer - 1)
    requires ws == WeightedSums(r, previous, layer)
    ensures |ws| == Size(r, layer)
    ensures forall i :: 0 <= i < |ws| ==> ws[i] == NeuronWeightedSum(r, input, layer, i)
  {
  }

  lemma RecordWeightedSumsStep(r: Reasoner, input: seq<real>, m: map<NeuronIndex, real>, layer: nat, ws: seq<real>)
    requires WellFormed(r) && |input| == Size(r, 0) && 1 <= layer < r.numberOfLayers
    requires RecordsWeightedSums(r, input, m, layer)
    requires |ws| == Size(r, layer)
    requires forall i :: 0 <= i < |ws| ==> ws[i] == NeuronWeightedSum(r, input, layer, i)
    ensures RecordsWeightedSums(r, input, AddLayer(m, layer, ws), layer + 1)
  {
    var m' := AddLayer(m, layer, ws);
    forall index | index in m'
      ensures 1 <= index.layer < layer + 1 && index.neuron < Size(r, index.layer)
    {
      if !(index.layer == layer && index.neuron < |ws|) {
        assert index in m;
      }
    }
    forall index: NeuronIndex | 1 <= index.layer < layer + 1 && index.neuron < Size(r, index.layer)
      ensures index in m' && m'[index] == NeuronWeightedSum(r, input, index.layer, index.neuron)
    {
      if index.layer == layer {
        assert m'[index] == ws[index.neuron];
      } else {
        assert index in m && m'[index] == m[index];
      }
    }
  }

  lemma RecordActivationsStep(r: Reasoner, input: seq<real>, m: map<NeuronIndex, real>, layer: nat, act: seq<real>)
    requires WellFormed(r) && |input| == Size(r, 0) && layer < r.numberOfLayers
    requires RecordsActivations(r, input, m, layer)
    requires act == Activations(r, input, layer)
    ensures RecordsActivations(r, input, AddLayer(m, layer, act), layer + 1)
  {
    var m' := AddLayer(m, layer, act);
    forall index | index in m'
      ensures index.layer < layer + 1 && index.neuron < Size(r, index.layer)
    {
      if !(index.layer == layer && index.neuron < |act|) {
        assert index in m;
      }
    }
    forall index: NeuronIndex | index.layer < layer + 1 && index.neuron < Size(r, index.layer)
      ensures index in m' && m'[index] == NeuronActivation(r, input, index.layer, index.neuron)
    {
      if index.layer == layer {
        assert m'[index] == act[index.neuron];
        assert act[index.neuron] == NeuronActivation(r, input, layer, index.neuron);
      } else {
        assert index in m && m'[index] == m[index];
      }
    }
  }

  /**
   Forward evaluation. Besides the output, it records the assignment of
   every weighted sum (non-input layers) and every activation result
   (all layers but the output layer), indexed by neuron.
   */
  method Evaluate(r: Reasoner, input: seq<real>)
    returns (output: seq<real>, weightedSumAssignment: map<NeuronIndex, real>,
             activationResultAssignment: map<NeuronIndex, real>)
    requires WellFormed(r) && |input| == Size(r, 0)
    ensures output == Output(r, input)
    ensures RecordsWeightedSums(r, input, weightedSumAssignment, r.numberOfLayers)
    ensures RecordsActivations(r, input, activationResultAssignment, r.numberOfLayers - 1)
  {
    var current := input;
    output := [];
    weightedSumAssignment := map[];
    activationResultAssignment := AddLayer(map[], 0, input);
    RecordActivationsStep(r, input, map[], 0, input);
    var layer := 1;
    while layer < r.numberOfLayers
      invariant 1 <= layer <= r.numberOfLayers
      invariant layer < r.numberOfLayers ==> current == Activations(r, input, layer - 1)
      invariant RecordsWeightedSums(r, input, weightedSumAssignment, layer)
      invariant layer < r.numberOfLayers ==> RecordsActivations(r, input, activationResultAssignment, layer)
      invariant layer == r.numberOfLayers ==>
                  RecordsActivations(r, input, activationResultAssignment, r.numberOfLayers - 1)
      invariant layer == r.numberOfLayers ==> output == Output(r, input)
    {
      var ws;
      ws, current, weightedSumAssignment, activationResultAssignment :=
        EvaluateLayer(r, input, layer, current, weightedSumAssignment, activationResultAssignment);
      if layer == r.numberOfLayers - 1 {
        output := ws;
      }
      layer := layer + 1;
    }
  }

  /**
   One step of forward evaluation: the weighted sums of `layer` from the
   previous layer's activations, recorded in the weighted-sum assignment,
   and (below the output layer) the activation results, recorded in theirs.
   */
  method EvaluateLayer(r: Reasoner, input: seq<real>, layer: nat, previous: seq<real>,
                       weightedSumAssignment: map<NeuronIndex, real>,
                       activationResultAssignment: map<NeuronIndex, real>)
    returns (ws: seq<real>, next: seq<real>, weightedSumAssignment': map<NeuronIndex, real>,
             activationResultAssignment': map<NeuronIndex, real>)
    requires WellFormed(r) && |input| == Size(r, 0) && 1 <= layer < r.numberOfLayers
    requires previous == Activations(r, input, layer - 1)
    requires RecordsWeightedSums(r, input, weightedSumAssignment, layer)
    requires RecordsActivations(r, input, activationResultAssignment, layer)
    ensures RecordsWeightedSums(r, input, weightedSumAssignment', layer + 1)
    ensures layer < r.numberOfLayers - 1 ==>
              && next == Activations(r, input, layer)
              && RecordsActivations(r, input, activationResultAssignment', layer + 1)
    ensures layer == r.numberOfLayers - 1 ==>
              && ws == Output(r, input)
              && activationResultAssignment' == activationResultAssignment
  {
    ws, weightedSumAssignment' := EvaluateWeightedSums(r, input, layer, previous, weightedSumAssignment);
    if layer < r.numberOfLayers - 1 {
      next, activationResultAssignment' := EvaluateActivations(r, input, layer, ws, activationResultAssignment);
    } else {
      next := ws;
      activationResultAssignment' := activationResultAssignment;
      OutputIsLastLayer(r, input, layer);
    }
  }

  /** The output is the last layer's weighted sums, computed from the layer before. */
  lemma OutputIsLastLayer(r: Reasoner, input: seq<real>, layer: nat)
    requires WellFormed(r) && |input| == Size(r, 0) && layer == r.numberOfLayers - 1
    ensures Output(r, input) == WeightedSums(r, Activations(r, input, layer - 1), layer)
  {
  }

  /** The weighted sums of `layer`, added to the weighted-sum assignment. */
  method EvaluateWeightedSums(r: Reasoner, input: seq<real>, layer: nat, previous: seq<real>,
                              weightedSumAssignment: map<NeuronIndex, real>)
    returns (ws: seq<real>, weightedSumAssignment': map<NeuronIndex, real>)
    requires WellFormed(r) && |input| == Size(r, 0) && 1 <= layer < r.numberOfLayers
    requires previous == Activations(r, input, layer - 1)
    requires RecordsWeightedSums(r, input, weightedSumAssignment, layer)
    ensures ws == WeightedSums(r, previous, layer)
    ensures RecordsWeightedSums(r, input, weightedSumAssignment', layer + 1)
  {
    ws := ComputeWeightedSums(r, previous, layer);
    WeightedSumsByNeuron(r, input, previous, layer, ws);
    RecordWeightedSumsStep(r, input, weightedSumAssignment, layer, ws);
    weightedSumAssignment' := AddLayer(weightedSumAssignment, layer, ws);
  }

  /** The activation results of hidden layer `layer`, added to the activation-result assignment. */
  method EvaluateActivations(r: Reasoner, input: seq<real>, layer: nat, ws: seq<real>,
                             activationResultAssignment: map<NeuronIndex, real>)
    returns (next: seq<real>, activationResultAssignment': map<NeuronIndex, real>)
    requires WellFormed(r) && |input| == Size(r, 0) && 1 <= layer < r.numberOfLayers - 1
    requires ws == WeightedSums(r, Activations(r, input, layer - 1), layer)
    requires RecordsActivations(r, input, activationResultAssignment, layer)
    ensures next == Activations(r, input, layer)
    ensures RecordsActivations(r, input, activationResultAssignment', layer + 1)
  {
    next := ActivationResults(r, ws, layer);
    RecordActivationsStep(r, input, activationResultAssignment, layer, next);
    activationResultAssignment' := AddLayer(activationResultAssignment, layer, next);
  }

  // ----------------------------------------------------------------- duplication

  /**
   Duplicate the reasoner into `other`: whatever `other` held before is
   replaced, and the copy equals the original, so it behaves like it on
   every query.
   */
  function StoreIntoOther(r: Reasoner, other: Reasoner): (copy: Reasoner)
    ensures copy == r
    ensures copy.numberOfLayers == r.numberOfLayers
    ensures forall l: nat :: Size(copy, l) == Size(r, l)
    ensures WellFormed(r) ==> WellFormed(copy)
    ensures WellFormed(r) ==> forall input :: |input| == Size(r, 0) ==> Output(copy, input) == Output(r, input)
    ensures forall l: nat, n: nat :: GetWeightedSumVariable(copy, l, n) == GetWeightedSumVariable(r, l, n)
    ensures forall l: nat, n: nat :: GetActivationResultVariable(copy, l, n) == GetActivationResultVariable(r, l, n)
  {
    other.(numberOfLayers := r.numberOfLayers,
           layerSizes := r.layerSizes,
           neuronToActivationFunction := r.neuronToActivationFunction,
           weights := r.weights,
           bias := r.bias,
           indexToWeightedSumVariable := r.indexToWeightedSumVariable,
           indexToActivationResultVariable := r.indexToActivationResultVariable)
  }
}
