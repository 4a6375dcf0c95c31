/**
 Interval-arithmetic bound propagation over the layered network, and the
 list of bound tightenings the reasoner reports afterwards.

 The input layer's bounds are read from the tableau (`ObtainCurrentBounds`);
 each later layer's weighted-sum bounds are the bias plus, for every
 incoming edge, the positive part of the weight times the previous upper
 (resp. lower) bound plus the negative part times the previous lower
 (resp. upper) bound; a ReLU neuron's activation bounds are the ReLU of its
 weighted-sum bounds. The main theorem: every concrete evaluation from an
 input inside the input bounds stays inside every propagated interval, so
 every reported tightening holds of it.
 */
module BoundPropagation {

  import opened Common
  import opened CaseSplit
  import opened NetworkLevelReasoner

  /** One interval per neuron of a layer. */
  datatype Box = Box(lb: seq<real>, ub: seq<real>)

  predicate Shaped(box: Box, size: nat)
  {
    |box.lb| == size && |box.ub| == size
  }

  /** Every value lies in its interval. */
  predicate Contains(box: Box, xs: seq<real>)
  {
    && Shaped(box, |xs|)
    && forall k :: 0 <= k < |xs| ==> box.lb[k] <= xs[k] <= box.ub[k]
  }

  // -------------------------------------------------------- interval dot products

  /** The least value of sum w[k] * x[k] over x[k] in [lb[k], ub[k]]. */
  function LowerDot(ws: seq<real>, lb: seq<real>, ub: seq<real>): real
    requires |ws| == |lb| == |ub|
  {
    if |ws| == 0 then 0.0
    else
      var n := |ws| - 1;
      LowerDot(ws[..n], lb[..n], ub[..n]) + (PositivePart(ws[n]) * lb[n] + NegativePart(ws[n]) * ub[n])
  }

  /** The greatest value of sum w[k] * x[k] over x[k] in [lb[k], ub[k]]. */
  function UpperDot(ws: seq<real>, lb: seq<real>, ub: seq<real>): real
    requires |ws| == |lb| == |ub|
  {
    if |ws| == 0 then 0.0
    else
      var n := |ws| - 1;
      UpperDot(ws[..n], lb[..n], ub[..n]) + (PositivePart(ws[n]) * ub[n] + NegativePart(ws[n]) * lb[n])
  }

  lemma TermWithinBounds(w: real, x: real, lb: real, ub: real)
    requires lb <= x <= ub
    ensures PositivePart(w) * lb + NegativePart(w) * ub <= w * x
    ensures w * x <= PositivePart(w) * ub + NegativePart(w) * lb
  {
    if w > 0.0 {
      assert PositivePart(w) == w && NegativePart(w) == 0.0;
      assert w * (x - lb) >= 0.0 && w * (ub - x) >= 0.0;
    } else if w < 0.0 {
      assert PositivePart(w) == 0.0 && NegativePart(w) == w;
      assert w * (x - ub) >= 0.0 && w * (lb - x) >= 0.0;
    } else {
      assert PositivePart(w) == 0.0 && NegativePart(w) == 0.0 && w * x == 0.0;
    }
  }

  /** A weighted sum of values inside their intervals lies between the interval dot products. */
  lemma {:induction false} DotWithinBounds(ws: seq<real>, xs: seq<real>, lb: seq<real>, ub: seq<real>)
    requires |ws| == |xs| == |lb| == |ub|
    requires forall k :: 0 <= k < |xs| ==> lb[k] <= xs[k] <= ub[k]
    ensures LowerDot(ws, lb, ub) <= Dot(ws, xs) <= UpperDot(ws, lb, ub)
  {
    DotAboveLower(ws, xs, lb, ub);
    DotBelowUpper(ws, xs, lb, ub);
  }

  lemma {:induction false} DotAboveLower(ws: seq<real>, xs: seq<real>, lb: seq<real>, ub: seq<real>)
    requires |ws| == |xs| == |lb| == |ub|
    requires forall k :: 0 <= k < |xs| ==> lb[k] <= xs[k] <= ub[k]
    ensures LowerDot(ws, lb, ub) <= Dot(ws, xs)
  {
    if |ws| > 0 {
      var n := |ws| - 1;
      assert forall k :: 0 <= k < n ==> lb[..n][k] <= xs[..n][k] <= ub[..n][k];
      DotAboveLower(ws[..n], xs[..n], lb[..n], ub[..n]);
      TermWithinBounds(ws[n], xs[n], lb[n], ub[n]);
      AddAtLeast(LowerDot(ws[..n], lb[..n], ub[..n]), Dot(ws[..n], xs[..n]),
                 PositivePart(ws[n]) * lb[n] + NegativePart(ws[n]) * ub[n], ws[n] * xs[n]);
    }
  }

  lemma {:induction false} DotBelowUpper(ws: seq<real>, xs: seq<real>, lb: seq<real>, ub: seq<real>)
    requires |ws| == |xs| == |lb| == |ub|
    requires forall k :: 0 <= k < |xs| ==> lb[k] <= xs[k] <= ub[k]
    ensures Dot(ws, xs) <= UpperDot(ws, lb, ub)
  {
    if |ws| > 0 {
      var n := |ws| - 1;
      assert forall k :: 0 <= k < n ==> lb[..n][k] <= xs[..n][k] <= ub[..n][k];
      DotBelowUpper(ws[..n], xs[..n], lb[..n], ub[..n]);
      TermWithinBounds(ws[n], xs[n], lb[n], ub[n]);
      AddAtLeast(Dot(ws[..n], xs[..n]), UpperDot(ws[..n], lb[..n], ub[..n]),
                 ws[n] * xs[n], PositivePart(ws[n]) * ub[n] + NegativePart(ws[n]) * lb[n]);
    }
  }

  /** Adding two inequalities side by side. */
  lemma AddAtLeast(lo: real, x: real, lo': real, y: real)
    requires lo <= x && lo' <= y
    ensures lo + lo' <= x + y
  {
  }



  /** The corner of the box where sum w[k] * x[k] is least: lower ends under positive weights. */
  function LowCorner(ws: seq<real>, lb: seq<real>, ub: seq<real>): (xs: seq<real>)
    requires |ws| == |lb| == |ub|
    ensures |xs| == |ws|
  {
    seq(|ws|, k requires 0 <= k < |ws| => if ws[k] > 0.0 then lb[k] else ub[k])
  }

  /** The corner of the box where sum w[k] * x[k] is greatest: upper ends under positive weights. */
  function HighCorner(ws: seq<real>, lb: seq<real>, ub: seq<real>): (xs: seq<real>)
    requires |ws| == |lb| == |ub|
    ensures |xs| == |ws|
  {
    seq(|ws|, k requires 0 <= k < |ws| => if ws[k] > 0.0 then ub[k] else lb[k])
  }

  /** One weight's share of the lower dot product, taken at the matching end of its interval. */
  lemma LowerTermAttained(w: real, lb: real, ub: real)
    ensures PositivePart(w) * lb + NegativePart(w) * ub == w * (if w > 0.0 then lb else ub)
  {
    if w > 0.0 {
      assert PositivePart(w) == w && NegativePart(w) == 0.0;
    } else if w < 0.0 {
      assert PositivePart(w) == 0.0 && NegativePart(w) == w;
    } else {
      assert PositivePart(w) == 0.0 && NegativePart(w) == 0.0;
    }
  }

  /** One weight's share of the upper dot product, taken at the matching end of its interval. */
  lemma UpperTermAttained(w: real, lb: real, ub: real)
    ensures PositivePart(w) * ub + NegativePart(w) * lb == w * (if w > 0.0 then ub else lb)
  {
    if w > 0.0 {
      assert PositivePart(w) == w && NegativePart(w) == 0.0;
    } else if w < 0.0 {
      assert PositivePart(w) == 0.0 && NegativePart(w) == w;
    } else {
      assert PositivePart(w) == 0.0 && NegativePart(w) == 0.0;
    }
  }

  lemma AddEqual(x: real, x': real, y: real, y': real)
    requires x == x' && y == y'
    ensures x + y == x' + y'
  {}

  /** The lower interval dot product is attained at the low corner. */
  lemma {:induction false} LowerDotAttained(ws: seq<real>, lb: seq<real>, ub: seq<real>)
    requires |ws| == |lb| == |ub|
    ensures LowerDot(ws, lb, ub) == Dot(ws, LowCorner(ws, lb, ub))
  {
    if |ws| > 0 {
      var n := |ws| - 1;
      LowerDotAttained(ws[..n], lb[..n], ub[..n]);
      var low := LowCorner(ws, lb, ub);
      assert low[..n] == LowCorner(ws[..n], lb[..n], ub[..n]);
      assert low[n] == if ws[n] > 0.0 then lb[n] else ub[n];
      LowerTermAttained(ws[n], lb[n], ub[n]);
      AddEqual(LowerDot(ws[..n], lb[..n], ub[..n]), Dot(ws[..n], low[..n]),
               PositivePart(ws[n]) * lb[n] + NegativePart(ws[n]) * ub[n], ws[n] * low[n]);
    }
  }


  /** The upper interval dot product is attained at the high corner. */
  lemma {:induction false} UpperDotAttained(ws: seq<real>, lb: seq<real>, ub: seq<real>)
    requires |ws| == |lb| == |ub|
    ensures UpperDot(ws, lb, ub) == Dot(ws, HighCorner(ws, lb, ub))
  {
    if |ws| > 0 {
      var n := |ws| - 1;
      UpperDotAttained(ws[..n], lb[..n], ub[..n]);
      var high := HighCorner(ws, lb, ub);
      assert high[..n] == HighCorner(ws[..n], lb[..n], ub[..n]);
      assert high[n] == if ws[n] > 0.0 then ub[n] else lb[n];
      UpperTermAttained(ws[n], lb[n], ub[n]);
      AddEqual(UpperDot(ws[..n], lb[..n], ub[..n]), Dot(ws[..n], high[..n]),
               PositivePart(ws[n]) * ub[n] + NegativePart(ws[n]) * lb[n], ws[n] * high[n]);
    }
  }


  /** Both corners lie in a box whose intervals are non-empty. */
  lemma CornersInBox(ws: seq<real>, box: Box)
    requires Shaped(box, |ws|)
    requires forall k :: 0 <= k < |ws| ==> box.lb[k] <= box.ub[k]
    ensures Contains(box, LowCorner(ws, box.lb, box.ub))
    ensures Contains(box, HighCorner(ws, box.lb, box.ub))
  {
  }

  // -------------------------------------------------------------- propagation

  /** Weighted-sum bounds of layer `layer` from the activation bounds of the layer before. */
  function WeightedSumBounds(r: Reasoner, previous: Box, layer: nat): (box: Box)
    requires WellFormed(r) && 1 <= layer < r.numberOfLayers && Shaped(previous, Size(r, layer - 1))
    ensures Shaped(box, Size(r, layer))
  {
    Box(
      seq(Size(r, layer), i requires 0 <= i < Size(r, layer) =>
        Bias(r, layer, i) + LowerDot(IncomingWeights(r, layer, i), previous.lb, previous.ub)),
      seq(Size(r, layer), i requires 0 <= i < Size(r, layer) =>
        Bias(r, layer, i) + UpperDot(IncomingWeights(r, layer, i), previous.lb, previous.ub)))
  }

  /** Activation bounds of a layer from its weighted-sum bounds: [max(0, lb), max(0, ub)] for a ReLU. */
  function ActivationBounds(r: Reasoner, weightedSums: Box, layer: nat): (box: Box)
    requires Shaped(weightedSums, |weightedSums.lb|)
    ensures Shaped(box, |weightedSums.lb|)
  {
    Box(
      seq(|weightedSums.lb|, i requires 0 <= i < |weightedSums.lb| => Activate(r, layer, i, weightedSums.lb[i])),
      seq(|weightedSums.ub|, i requires 0 <= i < |weightedSums.ub| => Activate(r, layer, i, weightedSums.ub[i])))
  }

  /** The activation bounds of layer `layer`, the input box for the input layer. */
  function ActivationBox(r: Reasoner, inputBox: Box, layer: nat): (box: Box)
    requires WellFormed(r) && Shaped(inputBox, Size(r, 0)) && layer < r.numberOfLayers
    ensures Shaped(box, Size(r, layer))
    decreases layer
  {
    if layer == 0 then inputBox
    else ActivationBounds(r, WeightedSumBounds(r, ActivationBox(r, inputBox, layer - 1), layer), layer)
  }

  /** The weighted-sum and activation bounds of one layer. */
  datatype LayerBounds = LayerBounds(weightedSums: Box, activations: Box)

  /** One entry per layer, every box as wide as its layer. */
  predicate BoundsShaped(r: Reasoner, bounds: seq<LayerBounds>)
  {
    && |bounds| == r.numberOfLayers
    && forall l :: 0 <= l < |bounds| ==>
         Shaped(bounds[l].weightedSums, Size(r, l)) && Shaped(bounds[l].activations, Size(r, l))
  }

  /**
   The bounds of one layer. The input layer has no weighted sums and the
   output layer no activation, so those two slots repeat the layer's other box.
   */
  function LayerBoundsAt(r: Reasoner, inputBox: Box, layer: nat): (bounds: LayerBounds)
    requires WellFormed(r) && Shaped(inputBox, Size(r, 0)) && layer < r.numberOfLayers
    ensures Shaped(bounds.weightedSums, Size(r, layer)) && Shaped(bounds.activations, Size(r, layer))
  {
    if layer == 0 then LayerBounds(inputBox, inputBox)
    else
      var ws := WeightedSumBounds(r, ActivationBox(r, inputBox, layer - 1), layer);
      if layer < r.numberOfLayers - 1 then LayerBounds(ws, ActivationBounds(r, ws, layer))
      else LayerBounds(ws, ws)
  }

  /** The bounds of every layer, from the input box forward. */
  function IntervalArithmeticBoundPropagation(r: Reasoner, inputBox: Box): (bounds: seq<LayerBounds>)
    requires WellFormed(r) && Shaped(inputBox, Size(r, 0))
    ensures BoundsShaped(r, bounds)
    ensures forall l :: 0 <= l < |bounds| ==> bounds[l] == LayerBoundsAt(r, inputBox, l)
    ensures bounds[0].activations == inputBox
    ensures forall l, i :: 1 <= l < r.numberOfLayers - 1 && 0 <= i < Size(r, l) ==>
              && bounds[l].weightedSums.lb[i] <= bounds[l].activations.lb[i]
              && (IsRelu(r, l, i) ==> bounds[l].activations.lb[i] >= 0.0)
  {
    var bounds := seq(r.numberOfLayers, l requires 0 <= l < r.numberOfLayers => LayerBoundsAt(r, inputBox, l));
    assert forall l, i :: 1 <= l < r.numberOfLayers - 1 && 0 <= i < Size(r, l) ==>
             && bounds[l].weightedSums.lb[i] <= bounds[l].activations.lb[i]
             && (IsRelu(r, l, i) ==> bounds[l].activations.lb[i] >= 0.0) by {
      forall l, i | 1 <= l < r.numberOfLayers - 1 && 0 <= i < Size(r, l) {
        HiddenLayerClips(r, inputBox, l, i);
      }
    }
    bounds
  }

  /** A hidden neuron's activation bounds start no lower than its weighted-sum bounds, and at 0 for a ReLU. */
  lemma HiddenLayerClips(r: Reasoner, inputBox: Box, layer: nat, i: nat)
    requires WellFormed(r) && Shaped(inputBox, Size(r, 0))
    requires 1 <= layer < r.numberOfLayers - 1 && i < Size(r, layer)
    ensures var bounds := LayerBoundsAt(r, inputBox, layer);
            && bounds.weightedSums.lb[i] <= bounds.activations.lb[i]
            && (IsRelu(r, layer, i) ==> bounds.activations.lb[i] >= 0.0)
  {
    var ws := WeightedSumBounds(r, ActivationBox(r, inputBox, layer - 1), layer);
    assert LayerBoundsAt(r, inputBox, layer) == LayerBounds(ws, ActivationBounds(r, ws, layer));
    assert ActivationBounds(r, ws, layer).lb[i] == Activate(r, layer, i, ws.lb[i]);
  }

  /**
   `bounds` enclose the evaluation on `input`: every weighted sum and
   every activation result of every non-input neuron lies in its interval.
   */
  ghost predicate Encloses(r: Reasoner, bounds: seq<LayerBounds>, input: seq<real>)
    requires WellFormed(r) && BoundsShaped(r, bounds) && |input| == Size(r, 0)
  {
    forall l, i :: 1 <= l < r.numberOfLayers && 0 <= i < Size(r, l) ==>
      && bounds[l].weightedSums.lb[i] <= NeuronWeightedSum(r, input, l, i) <= bounds[l].weightedSums.ub[i]
      && (l < r.numberOfLayers - 1 ==>
            bounds[l].activations.lb[i] <= NeuronActivation(r, input, l, i) <= bounds[l].activations.ub[i])
  }

  /** Evaluation from inside the input box stays inside every layer's activation box. */
  lemma {:induction false} ActivationBoxSound(r: Reasoner, inputBox: Box, input: seq<real>, layer: nat)
    requires WellFormed(r) && Shaped(inputBox, Size(r, 0)) && |input| == Size(r, 0)
    requires Contains(inputBox, input)
    requires layer < r.numberOfLayers
    ensures Contains(ActivationBox(r, inputBox, layer), Activations(r, input, layer))
    decreases layer
  {
    if layer > 0 {
      ActivationBoxSound(r, inputBox, input, layer - 1);
      WeightedSumBoxSound(r, ActivationBox(r, inputBox, layer - 1), Activations(r, input, layer - 1), layer);
      var wsBox := WeightedSumBounds(r, ActivationBox(r, inputBox, layer - 1), layer);
      var ws := WeightedSums(r, Activations(r, input, layer - 1), layer);
      forall i | 0 <= i < Size(r, layer)
        ensures Activate(r, layer, i, wsBox.lb[i]) <= Activate(r, layer, i, ws[i]) <= Activate(r, layer, i, wsBox.ub[i])
      {
        ActivateMonotone(r, layer, i, wsBox.lb[i], ws[i]);
        ActivateMonotone(r, layer, i, ws[i], wsBox.ub[i]);
      }
    }
  }

  /** A layer's weighted sums lie in their propagated intervals when the previous layer's results do. */
  lemma WeightedSumBoxSound(r: Reasoner, previousBox: Box, previous: seq<real>, layer: nat)
    requires WellFormed(r) && 1 <= layer < r.numberOfLayers && |previous| == Size(r, layer - 1)
    requires Contains(previousBox, previous)
    ensures Contains(WeightedSumBounds(r, previousBox, layer), WeightedSums(r, previous, layer))
  {
    forall i | 0 <= i < Size(r, layer) {
      DotWithinBounds(IncomingWeights(r, layer, i), previous, previousBox.lb, previousBox.ub);
    }
  }

  /**
   The weighted-sum bounds are exact for one layer: each neuron's lower
   and upper bound is the weighted sum of some choice of previous-layer
   results inside their intervals.
   */
  lemma WeightedSumBoundsAttained(r: Reasoner, previousBox: Box, layer: nat, neuron: nat)
    requires WellFormed(r) && 1 <= layer < r.numberOfLayers && neuron < Size(r, layer)
    requires Shaped(previousBox, Size(r, layer - 1))
    requires forall k :: 0 <= k < Size(r, layer - 1) ==> previousBox.lb[k] <= previousBox.ub[k]
    ensures var low := LowCorner(IncomingWeights(r, layer, neuron), previousBox.lb, previousBox.ub);
            && Contains(previousBox, low)
            && WeightedSums(r, low, layer)[neuron] == WeightedSumBounds(r, previousBox, layer).lb[neuron]
    ensures var high := HighCorner(IncomingWeights(r, layer, neuron), previousBox.lb, previousBox.ub);
            && Contains(previousBox, high)
            && WeightedSums(r, high, layer)[neuron] == WeightedSumBounds(r, previousBox, layer).ub[neuron]
  {
    var ws := IncomingWeights(r, layer, neuron);
    LowerDotAttained(ws, previousBox.lb, previousBox.ub);
    UpperDotAttained(ws, previousBox.lb, previousBox.ub);
    CornersInBox(ws, previousBox);
  }

  /** One non-input layer's propagated bounds enclose its evaluation. */
  lemma LayerBoundsSound(r: Reasoner, inputBox: Box, input: seq<real>, layer: nat)
    requires WellFormed(r) && Shaped(inputBox, Size(r, 0)) && |input| == Size(r, 0)
    requires Contains(inputBox, input)
    requires 1 <= layer < r.numberOfLayers
    ensures Contains(LayerBoundsAt(r, inputBox, layer).weightedSums, WeightedSums(r, Activations(r, input, layer - 1), layer))
    ensures layer < r.numberOfLayers - 1 ==>
              Contains(LayerBoundsAt(r, inputBox, layer).activations, Activations(r, input, layer))
  {
    ActivationBoxSound(r, inputBox, input, layer - 1);
    WeightedSumBoxSound(r, ActivationBox(r, inputBox, layer - 1), Activations(r, input, layer - 1), layer);
    if layer < r.numberOfLayers - 1 {
      ActivationBoxSound(r, inputBox, input, layer);
    }
  }

  /**
   Soundness of interval propagation: for every input inside the input
   box, every weighted sum and every activation result computed by
   evaluation lies inside its propagated interval.
   */
  lemma IntervalArithmeticSound(r: Reasoner, inputBox: Box, input: seq<real>)
    requires WellFormed(r) && Shaped(inputBox, Size(r, 0)) && |input| == Size(r, 0)
    requires Contains(inputBox, input)
    ensures Encloses(r, IntervalArithmeticBoundPropagation(r, inputBox), input)
  {
    var bounds := IntervalArithmeticBoundPropagation(r, inputBox);
    forall l, i | 1 <= l < r.numberOfLayers && 0 <= i < Size(r, l)
      ensures bounds[l].weightedSums.lb[i] <= NeuronWeightedSum(r, input, l, i) <= bounds[l].weightedSums.ub[i]
      ensures l < r.numberOfLayers - 1 ==>
                bounds[l].activations.lb[i] <= NeuronActivation(r, input, l, i) <= bounds[l].activations.ub[i]
    {
      LayerBoundsSound(r, inputBox, input, l);
      var lb := LayerBoundsAt(r, inputBox, l);
      assert bounds[l] == lb;
      var ws := WeightedSums(r, Activations(r, input, l - 1), l);
      assert NeuronWeightedSum(r, input, l, i) == ws[i];
      assert lb.weightedSums.lb[i] <= ws[i] <= lb.weightedSums.ub[i];
    }
  }

  // ------------------------------------------------------------ tableau bounds

  /** Every input neuron has an activation-result variable with a tableau bound. */
  predicate InputVariablesBounded(r: Reasoner, lower: seq<real>, upper: seq<real>)
  {
    forall i :: 0 <= i < Size(r, 0) ==>
      && NeuronIndex(0, i) in r.indexToActivationResultVariable
      && r.indexToActivationResultVariable[NeuronIndex(0, i)] < |lower|
      && r.indexToActivationResultVariable[NeuronIndex(0, i)] < |upper|
  }

  /**
   The input box: the tableau's current bounds (`lower[v]`, `upper[v]` for
   variable `v`) on the input neurons' variables.
   */
  function ObtainCurrentBounds(r: Reasoner, lower: seq<real>, upper: seq<real>): (box: Box)
    requires InputVariablesBounded(r, lower, upper)
    ensures Shaped(box, Size(r, 0))
  {
    Box(
      seq(Size(r, 0), i requires 0 <= i < Size(r, 0) => lower[r.indexToActivationResultVariable[NeuronIndex(0, i)]]),
      seq(Size(r, 0), i requires 0 <= i < Size(r, 0) => upper[r.indexToActivationResultVariable[NeuronIndex(0, i)]]))
  }

  /** An input lies in the input box exactly when each input neuron's value lies within its variable's tableau bounds. */
  lemma InputBoxMeaning(r: Reasoner, lower: seq<real>, upper: seq<real>, input: seq<real>)
    requires InputVariablesBounded(r, lower, upper) && |input| == Size(r, 0)
    ensures Contains(ObtainCurrentBounds(r, lower, upper), input) <==>
              forall i :: 0 <= i < Size(r, 0) ==>
                var v := r.indexToActivationResultVariable[NeuronIndex(0, i)];
                lower[v] <= input[i] <= upper[v]
  {
  }

  // --------------------------------------------------------------- tightenings

  /** Every non-input neuron has a weighted-sum variable, every hidden neuron an activation-result variable. */
  predicate VariablesMapped(r: Reasoner)
  {
    forall l, i :: 0 <= l < r.numberOfLayers && 0 <= i < Size(r, l) ==>
      && (l >= 1 ==> NeuronIndex(l, i) in r.indexToWeightedSumVariable)
      && (l < r.numberOfLayers - 1 ==> NeuronIndex(l, i) in r.indexToActivationResultVariable)
  }

  /** On a network whose neurons are all mapped, the variable getters never come back empty. */
  lemma MappedNeuronsHaveVariables(r: Reasoner, layer: nat, neuron: nat)
    requires VariablesMapped(r) && layer < r.numberOfLayers && neuron < Size(r, layer)
    ensures 1 <= layer ==> GetWeightedSumVariable(r, layer, neuron).Some?
    ensures layer < r.numberOfLayers - 1 ==> GetActivationResultVariable(r, layer, neuron).Some?
  {
    assert 0 <= layer < r.numberOfLayers && 0 <= neuron < Size(r, layer);
  }

  /** Weighted-sum LB and UB, then (hidden layers only) activation LB and UB of one neuron. */
  function NeuronTightenings(r: Reasoner, bounds: seq<LayerBounds>, layer: nat, neuron: nat): seq<Tightening>
    requires VariablesMapped(r) && BoundsShaped(r, bounds)
    requires 1 <= layer < r.numberOfLayers && neuron < Size(r, layer)
  {
    var index := NeuronIndex(layer, neuron);
    var ws := r.indexToWeightedSumVariable[index];
    var wsBounds := [Tightening(ws, bounds[layer].weightedSums.lb[neuron], LB),
                     Tightening(ws, bounds[layer].weightedSums.ub[neuron], UB)];
    if layer < r.numberOfLayers - 1 then
      var act := r.indexToActivationResultVariable[index];
      wsBounds + [Tightening(act, bounds[layer].activations.lb[neuron], LB),
                  Tightening(act, bounds[layer].activations.ub[neuron], UB)]
    else wsBounds
  }

  /** The tightenings of the first `count` neurons of a layer, in neuron order. */
  function LayerTightenings(r: Reasoner, bounds: seq<LayerBounds>, layer: nat, count: nat): seq<Tightening>
    requires VariablesMapped(r) && BoundsShaped(r, bounds)
    requires 1 <= layer < r.numberOfLayers && count <= Size(r, layer)
  {
    if count == 0 then []
    else LayerTightenings(r, bounds, layer, count - 1) + NeuronTightenings(r, bounds, layer, count - 1)
  }

  /** The tightenings of layers `layer` .. last, layer by layer. */
  function TighteningsFrom(r: Reasoner, bounds: seq<LayerBounds>, layer: nat): seq<Tightening>
    requires VariablesMapped(r) && BoundsShaped(r, bounds) && 1 <= layer
    decreases r.numberOfLayers - layer
  {
    if layer >= r.numberOfLayers then []
    else LayerTightenings(r, bounds, layer, Size(r, layer)) + TighteningsFrom(r, bounds, layer + 1)
  }

  /**
   The bounds of every non-input neuron as a list of tightenings. Only the
   variables of non-input neurons are reported; the input neurons' own
   variables never are, as long as no non-input neuron shares one of them
   (see `TighteningsAvoidInputVariables`).
   */
  function GetConstraintTightenings(r: Reasoner, bounds: seq<LayerBounds>): (ts: seq<Tightening>)
    requires VariablesMapped(r) && BoundsShaped(r, bounds)
    ensures forall k :: 0 <= k < |ts| ==> IsNonInputVariable(r, ts[k].variable)
  {
    TighteningsFromNamed(r, bounds, 1);
    TighteningsFrom(r, bounds, 1)
  }

  /** `v` is the weighted-sum variable of a non-input neuron or the activation variable of a hidden one. */
  ghost predicate IsNonInputVariable(r: Reasoner, v: nat)
  {
    exists index: NeuronIndex ::
      && 1 <= index.layer < r.numberOfLayers && index.neuron < Size(r, index.layer)
      && ((index in r.indexToWeightedSumVariable && r.indexToWeightedSumVariable[index] == v)
          || (index.layer < r.numberOfLayers - 1
              && index in r.indexToActivationResultVariable && r.indexToActivationResultVariable[index] == v))
  }

  /** `a` assigns every non-input neuron's variables the values evaluation computes on `input`. */
  ghost predicate AgreesWithEvaluation(r: Reasoner, input: seq<real>, a: Assignment)
    requires WellFormed(r) && VariablesMapped(r) && |input| == Size(r, 0)
  {
    forall index: NeuronIndex :: 1 <= index.layer < r.numberOfLayers && index.neuron < Size(r, index.layer) ==>
      && r.indexToWeightedSumVariable[index] in a
      && a[r.indexToWeightedSumVariable[index]] == NeuronWeightedSum(r, input, index.layer, index.neuron)
      && (index.layer < r.numberOfLayers - 1 ==>
            && r.indexToActivationResultVariable[index] in a
            && a[r.indexToActivationResultVariable[index]] == NeuronActivation(r, input, index.layer, index.neuron))
  }

  /** Every tightening in `ts` holds of `a`. */
  ghost predicate AllHold(ts: seq<Tightening>, a: Assignment)
  {
    forall k :: 0 <= k < |ts| ==> TighteningHolds(ts[k], a)
  }

  /** Every tightening in `ts` names a non-input variable. */
  ghost predicate AllNamed(r: Reasoner, ts: seq<Tightening>)
  {
    forall k :: 0 <= k < |ts| ==> IsNonInputVariable(r, ts[k].variable)
  }

  /** The variables a non-input neuron is mapped to are non-input variables. */
  lemma NeuronVariablesNonInput(r: Reasoner, layer: nat, neuron: nat)
    requires VariablesMapped(r) && 1 <= layer < r.numberOfLayers && neuron < Size(r, layer)
    ensures IsNonInputVariable(r, r.indexToWeightedSumVariable[NeuronIndex(layer, neuron)])
    ensures layer < r.numberOfLayers - 1 ==>
              IsNonInputVariable(r, r.indexToActivationResultVariable[NeuronIndex(layer, neuron)])
  {
    var index := NeuronIndex(layer, neuron);
    assert 1 <= index.layer < r.numberOfLayers && index.neuron < Size(r, index.layer);
  }

  /** A neuron's tightenings hold as soon as its variables lie within its propagated bounds. */
  lemma NeuronTighteningsHold(r: Reasoner, bounds: seq<LayerBounds>, a: Assignment, layer: nat, neuron: nat)
    requires VariablesMapped(r) && BoundsShaped(r, bounds)
    requires 1 <= layer < r.numberOfLayers && neuron < Size(r, layer)
    requires var ws := r.indexToWeightedSumVariable[NeuronIndex(layer, neuron)];
             && ws in a
             && bounds[layer].weightedSums.lb[neuron] <= a[ws] <= bounds[layer].weightedSums.ub[neuron]
    requires layer < r.numberOfLayers - 1 ==>
               var act := r.indexToActivationResultVariable[NeuronIndex(layer, neuron)];
               && act in a
               && bounds[layer].activations.lb[neuron] <= a[act] <= bounds[layer].activations.ub[neuron]
    ensures AllHold(NeuronTightenings(r, bounds, layer, neuron), a)
  {
    var index := NeuronIndex(layer, neuron);
    var ws := r.indexToWeightedSumVariable[index];
    var lbs := bounds[layer];
    var wsLower := Tightening(ws, lbs.weightedSums.lb[neuron], LB);
    var wsUpper := Tightening(ws, lbs.weightedSums.ub[neuron], UB);
    var ts := NeuronTightenings(r, bounds, layer, neuron);
    if layer < r.numberOfLayers - 1 {
      var act := r.indexToActivationResultVariable[index];
      var actLower := Tightening(act, lbs.activations.lb[neuron], LB);
      var actUpper := Tightening(act, lbs.activations.ub[neuron], UB);
      assert ts == [wsLower, wsUpper, actLower, actUpper];
    } else {
      assert ts == [wsLower, wsUpper];
    }
  }

  /** Each neuron's own tightenings hold of its computed values, and name only its own variables. */
  lemma NeuronTighteningsSound(r: Reasoner, bounds: seq<LayerBounds>, input: seq<real>, a: Assignment, layer: nat, neuron: nat)
    requires WellFormed(r) && VariablesMapped(r) && BoundsShaped(r, bounds) && |input| == Size(r, 0)
    requires Encloses(r, bounds, input) && AgreesWithEvaluation(r, input, a)
    requires 1 <= layer < r.numberOfLayers && neuron < Size(r, layer)
    ensures AllHold(NeuronTightenings(r, bounds, layer, neuron), a)
  {
    var index := NeuronIndex(layer, neuron);
    assert 1 <= index.layer < r.numberOfLayers && index.neuron < Size(r, index.layer);
    assert a[r.indexToWeightedSumVariable[index]] == NeuronWeightedSum(r, input, layer, neuron);
    if layer < r.numberOfLayers - 1 {
      assert a[r.indexToActivationResultVariable[index]] == NeuronActivation(r, input, layer, neuron);
    }
    NeuronTighteningsHold(r, bounds, a, layer, neuron);
  }

  /** The tightenings of every single non-input neuron hold. */
  ghost predicate EveryNeuronHolds(r: Reasoner, bounds: seq<LayerBounds>, a: Assignment)
    requires VariablesMapped(r) && BoundsShaped(r, bounds)
  {
    forall l: nat, n: nat :: 1 <= l < r.numberOfLayers && n < Size(r, l) ==>
      AllHold(NeuronTightenings(r, bounds, l, n), a)
  }

  lemma AllHoldAppend(xs: seq<Tightening>, ys: seq<Tightening>, a: Assignment)
    requires AllHold(xs, a) && AllHold(ys, a)
    ensures AllHold(xs + ys, a)
  {
    forall k | 0 <= k < |xs + ys|
      ensures TighteningHolds((xs + ys)[k], a)
    {
      if k >= |xs| {
        assert (xs + ys)[k] == ys[k - |xs|];
      }
    }
  }

  lemma AllHoldMembers(r: Reasoner, ts: seq<Tightening>, a: Assignment)
    requires AllHold(ts, a) && AllNamed(r, ts)
    ensures forall t :: t in ts ==> TighteningHolds(t, a) && IsNonInputVariable(r, t.variable)
  {
    forall t | t in ts
      ensures TighteningHolds(t, a) && IsNonInputVariable(r, t.variable)
    {
      var k :| 0 <= k < |ts| && ts[k] == t;
    }
  }

  lemma {:induction false} LayerTighteningsSound(r: Reasoner, bounds: seq<LayerBounds>, a: Assignment, layer: nat, count: nat)
    requires VariablesMapped(r) && BoundsShaped(r, bounds) && EveryNeuronHolds(r, bounds, a)
    requires 1 <= layer < r.numberOfLayers && count <= Size(r, layer)
    ensures AllHold(LayerTightenings(r, bounds, layer, count), a)
  {
    if count > 0 {
      LayerTighteningsSound(r, bounds, a, layer, count - 1);
      var earlier := LayerTightenings(r, bounds, layer, count - 1);
      var last := NeuronTightenings(r, bounds, layer, count - 1);
      assert AllHold(last, a);
      AllHoldAppend(earlier, last, a);
      assert LayerTightenings(r, bounds, layer, count) == earlier + last;
    }
  }

  lemma {:induction false} TighteningsFromSound(r: Reasoner, bounds: seq<LayerBounds>, a: Assignment, layer: nat)
    requires VariablesMapped(r) && BoundsShaped(r, bounds) && EveryNeuronHolds(r, bounds, a)
    requires 1 <= layer
    ensures AllHold(TighteningsFrom(r, bounds, layer), a)
    decreases r.numberOfLayers - layer
  {
    if layer < r.numberOfLayers {
      LayerTighteningsSound(r, bounds, a, layer, Size(r, layer));
      TighteningsFromSound(r, bounds, a, layer + 1);
      AllHoldAppend(LayerTightenings(r, bounds, layer, Size(r, layer)), TighteningsFrom(r, bounds, layer + 1), a);
      assert TighteningsFrom(r, bounds, layer)
             == LayerTightenings(r, bounds, layer, Size(r, layer)) + TighteningsFrom(r, bounds, layer + 1);
    }
  }

  /**
   Every tightening reported after propagating the tableau's input bounds
   holds of every assignment that agrees with an evaluation of the network
   on an input within those bounds, and names only non-input variables.
   */
  lemma ConstraintTighteningsSound(r: Reasoner, lower: seq<real>, upper: seq<real>, input: seq<real>, a: Assignment)
    requires WellFormed(r) && VariablesMapped(r) && InputVariablesBounded(r, lower, upper)
    requires |input| == Size(r, 0)
    requires forall i :: 0 <= i < Size(r, 0) ==>
               var v := r.indexToActivationResultVariable[NeuronIndex(0, i)];
               lower[v] <= input[i] <= upper[v]
    requires AgreesWithEvaluation(r, input, a)
    ensures var ts := GetConstraintTightenings(r,
                        IntervalArithmeticBoundPropagation(r, ObtainCurrentBounds(r, lower, upper)));
            forall t :: t in ts ==> TighteningHolds(t, a) && IsNonInputVariable(r, t.variable)
  {
    var inputBox := ObtainCurrentBounds(r, lower, upper);
    var bounds := IntervalArithmeticBoundPropagation(r, inputBox);
    InputBoxMeaning(r, lower, upper, input);
    IntervalArithmeticSound(r, inputBox, input);
    forall l: nat, n: nat | 1 <= l < r.numberOfLayers && n < Size(r, l)
      ensures AllHold(NeuronTightenings(r, bounds, l, n), a)
    {
      NeuronTighteningsSound(r, bounds, input, a, l, n);
    }
    TighteningsFromSound(r, bounds, a, 1);
    AllHoldMembers(r, GetConstraintTightenings(r, bounds), a);
  }

  // ------------------------------------------------- which variables are named

  /** A neuron's tightenings name only its own variables, which are non-input ones. */
  lemma NeuronTighteningsNamed(r: Reasoner, bounds: seq<LayerBounds>, layer: nat, neuron: nat)
    requires VariablesMapped(r) && BoundsShaped(r, bounds)
    requires 1 <= layer < r.numberOfLayers && neuron < Size(r, layer)
    ensures AllNamed(r, NeuronTightenings(r, bounds, layer, neuron))
  {
    NeuronVariablesNonInput(r, layer, neuron);
    var index := NeuronIndex(layer, neuron);
    var ws := r.indexToWeightedSumVariable[index];
    var ts := NeuronTightenings(r, bounds, layer, neuron);
    if layer < r.numberOfLayers - 1 {
      var act := r.indexToActivationResultVariable[index];
      assert forall k :: 0 <= k < |ts| ==> ts[k].variable == (if k < 2 then ws else act);
    } else {
      assert forall k :: 0 <= k < |ts| ==> ts[k].variable == ws;
    }
  }

  lemma AllNamedAppend(r: Reasoner, xs: seq<Tightening>, ys: seq<Tightening>)
    requires AllNamed(r, xs) && AllNamed(r, ys)
    ensures AllNamed(r, xs + ys)
  {
    forall k | 0 <= k < |xs + ys|
      ensures IsNonInputVariable(r, (xs + ys)[k].variable)
    {
      if k >= |xs| {
        assert (xs + ys)[k] == ys[k - |xs|];
      }
    }
  }

  lemma {:induction false} LayerTighteningsNamed(r: Reasoner, bounds: seq<LayerBounds>, layer: nat, count: nat)
    requires VariablesMapped(r) && BoundsShaped(r, bounds)
    requires 1 <= layer < r.numberOfLayers && count <= Size(r, layer)
    ensures AllNamed(r, LayerTightenings(r, bounds, layer, count))
  {
    if count > 0 {
      LayerTighteningsNamed(r, bounds, layer, count - 1);
      NeuronTighteningsNamed(r, bounds, layer, count - 1);
      var earlier := LayerTightenings(r, bounds, layer, count - 1);
      var last := NeuronTightenings(r, bounds, layer, count - 1);
      AllNamedAppend(r, earlier, last);
      assert LayerTightenings(r, bounds, layer, count) == earlier + last;
    }
  }

  lemma {:induction false} TighteningsFromNamed(r: Reasoner, bounds: seq<LayerBounds>, layer: nat)
    requires VariablesMapped(r) && BoundsShaped(r, bounds) && 1 <= layer
    ensures AllNamed(r, TighteningsFrom(r, bounds, layer))
    decreases r.numberOfLayers - layer
  {
    if layer < r.numberOfLayers {
      LayerTighteningsNamed(r, bounds, layer, Size(r, layer));
      TighteningsFromNamed(r, bounds, layer + 1);
      AllNamedAppend(r, LayerTightenings(r, bounds, layer, Size(r, layer)), TighteningsFrom(r, bounds, layer + 1));
      assert TighteningsFrom(r, bounds, layer)
             == LayerTightenings(r, bounds, layer, Size(r, layer)) + TighteningsFrom(r, bounds, layer + 1);
    }
  }

  /**
   No input neuron's variable is also the weighted-sum variable of a
   non-input neuron or the activation-result variable of a hidden neuron.
   */
  ghost predicate InputVariablesSeparate(r: Reasoner)
  {
    forall i, index: NeuronIndex ::
      && 0 <= i < Size(r, 0) && NeuronIndex(0, i) in r.indexToActivationResultVariable
      && 1 <= index.layer < r.numberOfLayers && index.neuron < Size(r, index.layer)
      ==>
      && (index in r.indexToWeightedSumVariable ==>
            r.indexToWeightedSumVariable[index] != r.indexToActivationResultVariable[NeuronIndex(0, i)])
      && (index.layer < r.numberOfLayers - 1 && index in r.indexToActivationResultVariable ==>
            r.indexToActivationResultVariable[index] != r.indexToActivationResultVariable[NeuronIndex(0, i)])
  }

  /**
   When the input neurons' variables are kept apart from the other neurons'
   variables, no reported tightening names an input variable. This follows
   in one step from the contract of `GetConstraintTightenings`; the
   induction behind that contract is `TighteningsFromNamed`.
   */
  lemma TighteningsAvoidInputVariables(r: Reasoner, bounds: seq<LayerBounds>)
    requires VariablesMapped(r) && BoundsShaped(r, bounds) && InputVariablesSeparate(r)
    ensures var ts := GetConstraintTightenings(r, bounds);
            forall t, i :: t in ts && 0 <= i < Size(r, 0) && NeuronIndex(0, i) in r.indexToActivationResultVariable ==>
              t.variable != r.indexToActivationResultVariable[NeuronIndex(0, i)]
  {
    var ts := GetConstraintTightenings(r, bounds);
    forall t, i | t in ts && 0 <= i < Size(r, 0) && NeuronIndex(0, i) in r.indexToActivationResultVariable
      ensures t.variable != r.indexToActivationResultVariable[NeuronIndex(0, i)]
    {
      var k :| 0 <= k < |ts| && ts[k] == t;
      assert IsNonInputVariable(r, t.variable);
      var index: NeuronIndex :| && 1 <= index.layer < r.numberOfLayers && index.neuron < Size(r, index.layer)
        && ((index in r.indexToWeightedSumVariable && r.indexToWeightedSumVariable[index] == t.variable)
            || (index.layer < r.numberOfLayers - 1
                && index in r.indexToActivationResultVariable && r.indexToActivationResultVariable[index] == t.variable));
    }
  }
}
