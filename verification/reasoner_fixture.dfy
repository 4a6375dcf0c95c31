/**
 The four-layer network of the reasoner's unit tests, built through the
 setters, and what the model says about it: its outputs on the unit tests'
 inputs, its copy, and the tightenings interval propagation reports for
 the two input boxes the unit tests use.

        a
  x           d    f
        b
  y           e    g
        c

 Variables: x = 0, y = 1; a, b, c have weighted sums 2, 4, 6 and results
 3, 5, 7; d, e have weighted sums 8, 10 and results 9, 11; f, g have
 weighted sums 12, 13. Every hidden neuron is a ReLU.
 */
module ReasonerFixture {

  import opened Common
  import opened CaseSplit
  import opened NetworkLevelReasoner
  import opened BoundPropagation

  const Sizes: map<nat, nat> := map[0 := 2, 1 := 3, 2 := 2, 3 := 2]

  /** The network after its topology and the given weights are set, before anything else. */
  function Unwired(weights: seq<seq<real>>): Reasoner
  {
    Reasoner(4, Sizes, map[], weights, map[], map[], map[])
  }

  /** The network of the unit tests, as the setters leave it. */
  const Fixture: Reasoner := Reasoner(
    4,
    Sizes,
    map[NeuronIndex(1, 0) := ReLU, NeuronIndex(1, 1) := ReLU, NeuronIndex(1, 2) := ReLU,
        NeuronIndex(2, 0) := ReLU, NeuronIndex(2, 1) := ReLU],
    [[1.0, 2.0, 0.0, 0.0, -3.0, 1.0], [1.0, -1.0, 1.0, 1.0, -1.0, -1.0], [1.0, 1.0, 0.0, 3.0]],
    map[NeuronIndex(1, 0) := 1.0, NeuronIndex(2, 1) := 2.0],
    map[NeuronIndex(1, 0) := 2, NeuronIndex(1, 1) := 4, NeuronIndex(1, 2) := 6,
        NeuronIndex(2, 0) := 8, NeuronIndex(2, 1) := 10, NeuronIndex(3, 0) := 12, NeuronIndex(3, 1) := 13],
    map[NeuronIndex(0, 0) := 0, NeuronIndex(0, 1) := 1, NeuronIndex(1, 0) := 3, NeuronIndex(1, 1) := 5,
        NeuronIndex(1, 2) := 7, NeuronIndex(2, 0) := 9, NeuronIndex(2, 1) := 11])

  /** Four layers of sizes 2, 3, 2, 2, with every weight allocated and zero. */
  method AllocateTopology() returns (r: Reasoner)
    ensures r == Unwired([[0.0, 0.0, 0.0, 0.0, 0.0, 0.0], [0.0, 0.0, 0.0, 0.0, 0.0, 0.0], [0.0, 0.0, 0.0, 0.0]])
  {
    r := SetNumberOfLayers(NewReasoner(), 4);
    r := SetLayerSize(r, 0, 2);
    r := SetLayerSize(r, 1, 3);
    r := SetLayerSize(r, 2, 2);
    r := SetLayerSize(r, 3, 2);
    assert SizesKnown(r);
    r := AllocateMemoryByTopology(r);
    assert RowLength(r, 0) == 6 && RowLength(r, 1) == 6 && RowLength(r, 2) == 4;
    assert |r.weights| == 3 && |r.weights[0]| == 6 && |r.weights[1]| == 6 && |r.weights[2]| == 4;
    assert r.weights[0] == [0.0, 0.0, 0.0, 0.0, 0.0, 0.0];
    assert r.weights[1] == [0.0, 0.0, 0.0, 0.0, 0.0, 0.0];
    assert r.weights[2] == [0.0, 0.0, 0.0, 0.0];
  }

  /** The weights on the edges out of x, as the tests set them. */
  method WireX(r0: Reasoner) returns (r: Reasoner)
    requires r0 == Unwired([[0.0, 0.0, 0.0, 0.0, 0.0, 0.0], [0.0, 0.0, 0.0, 0.0, 0.0, 0.0], [0.0, 0.0, 0.0, 0.0]])
    ensures r == Unwired([[1.0, 2.0, 0.0, 0.0, 0.0, 0.0], [0.0, 0.0, 0.0, 0.0, 0.0, 0.0], [0.0, 0.0, 0.0, 0.0]])
  {
    r := r0;
    ghost var w := r.weights;
    r := SetWeight(r, 0, 0, 0, 1.0);
    assert r.weights == w[0 := w[0][0 := 1.0]];
    assert r.weights[0] == [1.0, 0.0, 0.0, 0.0, 0.0, 0.0];
    w := r.weights;
    r := SetWeight(r, 0, 0, 1, 2.0);
    assert r.weights == w[0 := w[0][1 := 2.0]];
    assert r.weights[0] == [1.0, 2.0, 0.0, 0.0, 0.0, 0.0];
  }

  /** The weights on the edges out of y, as the tests set them. */
  method WireY(r0: Reasoner) returns (r: Reasoner)
    requires r0 == Unwired([[1.0, 2.0, 0.0, 0.0, 0.0, 0.0], [0.0, 0.0, 0.0, 0.0, 0.0, 0.0], [0.0, 0.0, 0.0, 0.0]])
    ensures r == Unwired([[1.0, 2.0, 0.0, 0.0, -3.0, 1.0], [0.0, 0.0, 0.0, 0.0, 0.0, 0.0], [0.0, 0.0, 0.0, 0.0]])
  {
    r := r0;
    ghost var w := r.weights;
    r := SetWeight(r, 0, 1, 1, -3.0);
    assert r.weights == w[0 := w[0][4 := -3.0]];
    assert r.weights[0] == [1.0, 2.0, 0.0, 0.0, -3.0, 0.0];
    w := r.weights;
    r := SetWeight(r, 0, 1, 2, 1.0);
    assert r.weights == w[0 := w[0][5 := 1.0]];
    assert r.weights[0] == [1.0, 2.0, 0.0, 0.0, -3.0, 1.0];
  }

  /** The weights on the edges out of a, as the tests set them. */
  method WireA(r0: Reasoner) returns (r: Reasoner)
    requires r0 == Unwired([[1.0, 2.0, 0.0, 0.0, -3.0, 1.0], [0.0, 0.0, 0.0, 0.0, 0.0, 0.0], [0.0, 0.0, 0.0, 0.0]])
    ensures r == Unwired([[1.0, 2.0, 0.0, 0.0, -3.0, 1.0], [1.0, -1.0, 0.0, 0.0, 0.0, 0.0], [0.0, 0.0, 0.0, 0.0]])
  {
    r := r0;
    ghost var w := r.weights;
    r := SetWeight(r, 1, 0, 0, 1.0);
    assert r.weights == w[1 := w[1][0 := 1.0]];
    assert r.weights[1] == [1.0, 0.0, 0.0, 0.0, 0.0, 0.0];
    w := r.weights;
    r := SetWeight(r, 1, 0, 1, -1.0);
    assert r.weights == w[1 := w[1][1 := -1.0]];
    assert r.weights[1] == [1.0, -1.0, 0.0, 0.0, 0.0, 0.0];
  }

  /** The weights on the edges out of b, as the tests set them. */
  method WireB(r0: Reasoner) returns (r: Reasoner)
    requires r0 == Unwired([[1.0, 2.0, 0.0, 0.0, -3.0, 1.0], [1.0, -1.0, 0.0, 0.0, 0.0, 0.0], [0.0, 0.0, 0.0, 0.0]])
    ensures r == Unwired([[1.0, 2.0, 0.0, 0.0, -3.0, 1.0], [1.0, -1.0, 1.0, 1.0, 0.0, 0.0], [0.0, 0.0, 0.0, 0.0]])
  {
    r := r0;
    ghost var w := r.weights;
    r := SetWeight(r, 1, 1, 0, 1.0);
    assert r.weights == w[1 := w[1][2 := 1.0]];
    assert r.weights[1] == [1.0, -1.0, 1.0, 0.0, 0.0, 0.0];
    w := r.weights;
    r := SetWeight(r, 1, 1, 1, 1.0);
    assert r.weights == w[1 := w[1][3 := 1.0]];
    assert r.weights[1] == [1.0, -1.0, 1.0, 1.0, 0.0, 0.0];
  }

  /** The weights on the edges out of c, as the tests set them. */
  method WireC(r0: Reasoner) returns (r: Reasoner)
    requires r0 == Unwired([[1.0, 2.0, 0.0, 0.0, -3.0, 1.0], [1.0, -1.0, 1.0, 1.0, 0.0, 0.0], [0.0, 0.0, 0.0, 0.0]])
    ensures r == Unwired([[1.0, 2.0, 0.0, 0.0, -3.0, 1.0], [1.0, -1.0, 1.0, 1.0, -1.0, -1.0], [0.0, 0.0, 0.0, 0.0]])
  {
    r := r0;
    ghost var w := r.weights;
    r := SetWeight(r, 1, 2, 0, -1.0);
    assert r.weights == w[1 := w[1][4 := -1.0]];
    assert r.weights[1] == [1.0, -1.0, 1.0, 1.0, -1.0, 0.0];
    w := r.weights;
    r := SetWeight(r, 1, 2, 1, -1.0);
    assert r.weights == w[1 := w[1][5 := -1.0]];
    assert r.weights[1] == [1.0, -1.0, 1.0, 1.0, -1.0, -1.0];
  }

  /** The weights on the edges out of d and e, as the tests set them. */
  method WireDE(r0: Reasoner) returns (r: Reasoner)
    requires r0 == Unwired([[1.0, 2.0, 0.0, 0.0, -3.0, 1.0], [1.0, -1.0, 1.0, 1.0, -1.0, -1.0], [0.0, 0.0, 0.0, 0.0]])
    ensures r == Unwired([[1.0, 2.0, 0.0, 0.0, -3.0, 1.0], [1.0, -1.0, 1.0, 1.0, -1.0, -1.0], [1.0, 1.0, 0.0, 3.0]])
  {
    r := r0;
    ghost var w := r.weights;
    r := SetWeight(r, 2, 0, 0, 1.0);
    assert r.weights == w[2 := w[2][0 := 1.0]];
    assert r.weights[2] == [1.0, 0.0, 0.0, 0.0];
    w := r.weights;
    r := SetWeight(r, 2, 0, 1, 1.0);
    assert r.weights == w[2 := w[2][1 := 1.0]];
    assert r.weights[2] == [1.0, 1.0, 0.0, 0.0];
    w := r.weights;
    r := SetWeight(r, 2, 1, 1, 3.0);
    assert r.weights == w[2 := w[2][3 := 3.0]];
    assert r.weights[2] == [1.0, 1.0, 0.0, 3.0];
  }

  /** Build the test network through the setters, call by call as the tests do. */
  method PopulateNetwork() returns (r: Reasoner)
    ensures r == Fixture
  {
    r := AllocateTopology();
    r := WireX(r);
    r := WireY(r);
    r := WireA(r);
    r := WireB(r);
    r := WireC(r);
    r := WireDE(r);

    r := SetBias(r, 1, 0, 1.0);
    r := SetBias(r, 2, 1, 2.0);

    r := SetActivationResultVariable(r, 0, 0, 0);
    r := SetActivationResultVariable(r, 0, 1, 1);
    r := SetWeightedSumVariable(r, 1, 0, 2);
    r := SetActivationResultVariable(r, 1, 0, 3);
    r := SetWeightedSumVariable(r, 1, 1, 4);
    r := SetActivationResultVariable(r, 1, 1, 5);
    r := SetWeightedSumVariable(r, 1, 2, 6);
    r := SetActivationResultVariable(r, 1, 2, 7);
    r := SetWeightedSumVariable(r, 2, 0, 8);
    r := SetActivationResultVariable(r, 2, 0, 9);
    r := SetWeightedSumVariable(r, 2, 1, 10);
    r := SetActivationResultVariable(r, 2, 1, 11);
    r := SetWeightedSumVariable(r, 3, 0, 12);
    r := SetWeightedSumVariable(r, 3, 1, 13);

    r := SetNeuronActivationFunction(r, 1, 0, ReLU);
    r := SetNeuronActivationFunction(r, 1, 1, ReLU);
    r := SetNeuronActivationFunction(r, 1, 2, ReLU);
    r := SetNeuronActivationFunction(r, 2, 0, ReLU);
    r := SetNeuronActivationFunction(r, 2, 1, ReLU);
  }

  // ---------------------------------------------------------------- evaluation

  lemma FixtureWellFormed()
    ensures WellFormed(Fixture)
    ensures Size(Fixture, 0) == 2 && Size(Fixture, 1) == 3 && Size(Fixture, 2) == 2 && Size(Fixture, 3) == 2
  {
    assert SizesKnown(Fixture);
    assert RowLength(Fixture, 0) == 6 && RowLength(Fixture, 1) == 6 && RowLength(Fixture, 2) == 4;
  }

  lemma Dot2(w0: real, w1: real, x0: real, x1: real)
    ensures Dot([w0, w1], [x0, x1]) == w0 * x0 + w1 * x1
  {
    assert [w0, w1][..1] == [w0] && [x0, x1][..1] == [x0];
    assert [w0][..0] == [] && [x0][..0] == [];
    assert Dot([w0], [x0]) == Dot([], []) + w0 * x0;
    assert Dot([w0, w1], [x0, x1]) == Dot([w0], [x0]) + w1 * x1;
  }

  lemma Dot3(w0: real, w1: real, w2: real, x0: real, x1: real, x2: real)
    ensures Dot([w0, w1, w2], [x0, x1, x2]) == w0 * x0 + w1 * x1 + w2 * x2
  {
    assert [w0, w1, w2][..2] == [w0, w1] && [x0, x1, x2][..2] == [x0, x1];
    assert Dot([w0, w1, w2], [x0, x1, x2]) == Dot([w0, w1], [x0, x1]) + w2 * x2;
    Dot2(w0, w1, x0, x1);
  }

  /** The incoming weights of every non-input neuron, as the flat tables give them. */
  lemma FixtureIncomingWeights()
    requires WellFormed(Fixture) && Size(Fixture, 0) == 2 && Size(Fixture, 1) == 3 && Size(Fixture, 2) == 2 && Size(Fixture, 3) == 2
    ensures IncomingWeights(Fixture, 1, 0) == [1.0, 0.0]
    ensures IncomingWeights(Fixture, 1, 1) == [2.0, -3.0]
    ensures IncomingWeights(Fixture, 1, 2) == [0.0, 1.0]
    ensures IncomingWeights(Fixture, 2, 0) == [1.0, 1.0, -1.0]
    ensures IncomingWeights(Fixture, 2, 1) == [-1.0, 1.0, -1.0]
    ensures IncomingWeights(Fixture, 3, 0) == [1.0, 0.0]
    ensures IncomingWeights(Fixture, 3, 1) == [1.0, 3.0]
  {
  }

  /** The hidden layer a, b, c on input (x, y). */
  lemma FixtureFirstLayer(x: real, y: real)
    requires WellFormed(Fixture) && Size(Fixture, 0) == 2
    ensures Activations(Fixture, [x, y], 1) == [Relu(x + 1.0), Relu(2.0 * x - 3.0 * y), Relu(y)]
  {
    FixtureWellFormed();
    FixtureIncomingWeights();
    Dot2(1.0, 0.0, x, y);
    Dot2(2.0, -3.0, x, y);
    Dot2(0.0, 1.0, x, y);
    var ws := WeightedSums(Fixture, [x, y], 1);
    assert ws == [x + 1.0, 2.0 * x - 3.0 * y, y];
  }

  /** The weighted sums of d and e from the results of a, b and c. */
  lemma FixtureSecondLayerSums(a: real, b: real, c: real)
    requires WellFormed(Fixture) && Size(Fixture, 1) == 3
    ensures WeightedSums(Fixture, [a, b, c], 2) == [a + b - c, -a + b - c + 2.0]
  {
    FixtureWellFormed();
    FixtureIncomingWeights();
    Dot3(1.0, 1.0, -1.0, a, b, c);
    Dot3(-1.0, 1.0, -1.0, a, b, c);
  }

  /** The weighted sums of f and g from the results of d and e. */
  lemma FixtureOutputSums(d: real, e: real)
    requires WellFormed(Fixture) && Size(Fixture, 2) == 2
    ensures WeightedSums(Fixture, [d, e], 3) == [d, d + 3.0 * e]
  {
    FixtureWellFormed();
    FixtureIncomingWeights();
    Dot2(1.0, 0.0, d, e);
    Dot2(1.0, 3.0, d, e);
  }

  /** One layer's activation results from the previous layer's. */
  lemma ActivationsFrom(r: Reasoner, input: seq<real>, layer: nat, previous: seq<real>)
    requires WellFormed(r) && |input| == Size(r, 0) && 1 <= layer < r.numberOfLayers
    requires Activations(r, input, layer - 1) == previous
    ensures Activations(r, input, layer) == ActivationResults(r, WeightedSums(r, previous, layer), layer)
  {
  }

  /**
   On every input (x, y) the network computes a = relu(x + 1),
   b = relu(2x - 3y), c = relu(y), d = relu(a + b - c),
   e = relu(-a + b - c + 2) and outputs (d, d + 3e).
   */
  lemma FixtureOutput(x: real, y: real)
    ensures WellFormed(Fixture) && Size(Fixture, 0) == 2
    ensures var a := Relu(x + 1.0);
            var b := Relu(2.0 * x - 3.0 * y);
            var c := Relu(y);
            var d := Relu(a + b - c);
            var e := Relu(-a + b - c + 2.0);
            Output(Fixture, [x, y]) == [d, d + 3.0 * e]
  {
    FixtureWellFormed();
    var a, b, c := Relu(x + 1.0), Relu(2.0 * x - 3.0 * y), Relu(y);
    FixtureFirstLayer(x, y);
    FixtureSecondLayerSums(a, b, c);
    var ws := [a + b - c, -a + b - c + 2.0];
    ActivationsFrom(Fixture, [x, y], 2, [a, b, c]);
    assert IsRelu(Fixture, 2, 0) && IsRelu(Fixture, 2, 1);
    var d, e := Relu(ws[0]), Relu(ws[1]);
    assert Activations(Fixture, [x, y], 2) == [d, e];
    FixtureOutputSums(d, e);
  }

  /** The three evaluations of the unit tests. */
  lemma FixtureEvaluations()
    ensures WellFormed(Fixture) && Size(Fixture, 0) == 2
    ensures Output(Fixture, [0.0, 0.0]) == [1.0, 4.0]
    ensures Output(Fixture, [1.0, 1.0]) == [1.0, 1.0]
    ensures Output(Fixture, [1.0, 2.0]) == [0.0, 0.0]
  {
    FixtureOutput(0.0, 0.0);
    FixtureOutput(1.0, 1.0);
    FixtureOutput(1.0, 2.0);
  }

  // --------------------------------------------------------------- duplication

  /** The copy the tests make into a fresh reasoner evaluates like the original. */
  lemma FixtureStoreIntoOther()
    ensures WellFormed(Fixture) && Size(Fixture, 0) == 2
    ensures var copy := StoreIntoOther(Fixture, NewReasoner());
            && WellFormed(copy)
            && Output(copy, [0.0, 0.0]) == [1.0, 4.0]
            && Output(copy, [1.0, 1.0]) == [1.0, 1.0]
  {
    FixtureEvaluations();
  }

  /**
   Marking a hidden neuron as a ReLU a second time, as the copy test does
   before copying again, leaves the network as it was.
   */
  lemma FixtureMarkAgain(l: nat, n: nat)
    requires 1 <= l <= 2 && n < Size(Fixture, l)
    ensures SetNeuronActivationFunction(Fixture, l, n, ReLU) == Fixture
  {
    var m := Fixture.neuronToActivationFunction;
    assert NeuronIndex(l, n) in m && m[NeuronIndex(l, n)] == ReLU;
    assert m[NeuronIndex(l, n) := ReLU] == m;
  }

  // ------------------------------------------------------------- propagation

  lemma LowerDot2(w0: real, w1: real, l0: real, l1: real, u0: real, u1: real)
    ensures LowerDot([w0, w1], [l0, l1], [u0, u1])
            == (PositivePart(w0) * l0 + NegativePart(w0) * u0) + (PositivePart(w1) * l1 + NegativePart(w1) * u1)
    ensures UpperDot([w0, w1], [l0, l1], [u0, u1])
            == (PositivePart(w0) * u0 + NegativePart(w0) * l0) + (PositivePart(w1) * u1 + NegativePart(w1) * l1)
  {
    assert [w0, w1][..1] == [w0] && [l0, l1][..1] == [l0] && [u0, u1][..1] == [u0];
    assert [w0][..0] == [] && [l0][..0] == [] && [u0][..0] == [];
    assert LowerDot([w0], [l0], [u0]) == LowerDot([], [], []) + (PositivePart(w0) * l0 + NegativePart(w0) * u0);
    assert UpperDot([w0], [l0], [u0]) == UpperDot([], [], []) + (PositivePart(w0) * u0 + NegativePart(w0) * l0);
  }

  lemma LowerDot3(w0: real, w1: real, w2: real, l0: real, l1: real, l2: real, u0: real, u1: real, u2: real)
    ensures LowerDot([w0, w1, w2], [l0, l1, l2], [u0, u1, u2])
            == LowerDot([w0, w1], [l0, l1], [u0, u1]) + (PositivePart(w2) * l2 + NegativePart(w2) * u2)
    ensures UpperDot([w0, w1, w2], [l0, l1, l2], [u0, u1, u2])
            == UpperDot([w0, w1], [l0, l1], [u0, u1]) + (PositivePart(w2) * u2 + NegativePart(w2) * l2)
  {
    assert [w0, w1, w2][..2] == [w0, w1] && [l0, l1, l2][..2] == [l0, l1] && [u0, u1, u2][..2] == [u0, u1];
  }

  /** Bounds on a, b, c from an input box [xl, xu] x [yl, yu]. */
  lemma FixtureFirstLayerBounds(xl: real, xu: real, yl: real, yu: real)
    requires WellFormed(Fixture) && Size(Fixture, 0) == 2 && Size(Fixture, 1) == 3
    ensures WeightedSumBounds(Fixture, Box([xl, yl], [xu, yu]), 1)
            == Box([xl + 1.0, 2.0 * xl - 3.0 * yu, yl], [xu + 1.0, 2.0 * xu - 3.0 * yl, yu])
  {
    FixtureWellFormed();
    FixtureIncomingWeights();
    LowerDot2(1.0, 0.0, xl, yl, xu, yu);
    LowerDot2(2.0, -3.0, xl, yl, xu, yu);
    LowerDot2(0.0, 1.0, xl, yl, xu, yu);
    var box := WeightedSumBounds(Fixture, Box([xl, yl], [xu, yu]), 1);
    assert box.lb[0] == xl + 1.0 && box.lb[1] == 2.0 * xl - 3.0 * yu && box.lb[2] == yl;
    assert box.ub[0] == xu + 1.0 && box.ub[1] == 2.0 * xu - 3.0 * yl && box.ub[2] == yu;
  }

  /** Every neuron of the first hidden layer is a ReLU, so its activation bounds are the ReLU of its weighted-sum bounds. */
  lemma FixtureFirstLayerActivationBounds(l0: real, l1: real, l2: real, u0: real, u1: real, u2: real)
    ensures ActivationBounds(Fixture, Box([l0, l1, l2], [u0, u1, u2]), 1)
            == Box([Relu(l0), Relu(l1), Relu(l2)], [Relu(u0), Relu(u1), Relu(u2)])
  {
    assert IsRelu(Fixture, 1, 0) && IsRelu(Fixture, 1, 1) && IsRelu(Fixture, 1, 2);
    var box := ActivationBounds(Fixture, Box([l0, l1, l2], [u0, u1, u2]), 1);
    assert box.lb[0] == Relu(l0) && box.lb[1] == Relu(l1) && box.lb[2] == Relu(l2);
    assert box.ub[0] == Relu(u0) && box.ub[1] == Relu(u1) && box.ub[2] == Relu(u2);
  }

  /** Likewise for the second hidden layer. */
  lemma FixtureSecondLayerActivationBounds(l0: real, l1: real, u0: real, u1: real)
    ensures ActivationBounds(Fixture, Box([l0, l1], [u0, u1]), 2) == Box([Relu(l0), Relu(l1)], [Relu(u0), Relu(u1)])
  {
    assert IsRelu(Fixture, 2, 0) && IsRelu(Fixture, 2, 1);
    var box := ActivationBounds(Fixture, Box([l0, l1], [u0, u1]), 2);
    assert box.lb[0] == Relu(l0) && box.lb[1] == Relu(l1);
    assert box.ub[0] == Relu(u0) && box.ub[1] == Relu(u1);
  }

  /** Bounds on d and e from bounds on the results of a, b and c. */
  lemma FixtureSecondLayerBounds(al: real, bl: real, cl: real, au: real, bu: real, cu: real)
    requires WellFormed(Fixture) && Size(Fixture, 1) == 3 && Size(Fixture, 2) == 2
    ensures WeightedSumBounds(Fixture, Box([al, bl, cl], [au, bu, cu]), 2)
            == Box([al + bl - cu, -au + bl - cu + 2.0], [au + bu - cl, -al + bu - cl + 2.0])
  {
    FixtureWellFormed();
    FixtureIncomingWeights();
    LowerDot2(1.0, 1.0, al, bl, au, bu);
    LowerDot3(1.0, 1.0, -1.0, al, bl, cl, au, bu, cu);
    LowerDot2(-1.0, 1.0, al, bl, au, bu);
    LowerDot3(-1.0, 1.0, -1.0, al, bl, cl, au, bu, cu);
    var box := WeightedSumBounds(Fixture, Box([al, bl, cl], [au, bu, cu]), 2);
    assert box.lb[0] == al + bl - cu && box.lb[1] == -au + bl - cu + 2.0;
    assert box.ub[0] == au + bu - cl && box.ub[1] == -al + bu - cl + 2.0;
  }

  /** Bounds on f and g from bounds on the results of d and e. */
  lemma FixtureOutputBounds(dl: real, el: real, du: real, eu: real)
    requires WellFormed(Fixture) && Size(Fixture, 2) == 2 && Size(Fixture, 3) == 2
    ensures WeightedSumBounds(Fixture, Box([dl, el], [du, eu]), 3)
            == Box([dl, dl + 3.0 * el], [du, du + 3.0 * eu])
  {
    FixtureWellFormed();
    FixtureIncomingWeights();
    LowerDot2(1.0, 0.0, dl, el, du, eu);
    LowerDot2(1.0, 3.0, dl, el, du, eu);
    var box := WeightedSumBounds(Fixture, Box([dl, el], [du, eu]), 3);
    assert box.lb[0] == dl && box.lb[1] == dl + 3.0 * el;
    assert box.ub[0] == du && box.ub[1] == du + 3.0 * eu;
  }

  // -------------------------------------------------------------- tightenings

  lemma FixtureVariablesMapped()
    ensures VariablesMapped(Fixture)
  {
  }

  /** Each neuron's tightenings in the test network. */
  lemma FixtureNeuronTightenings(bounds: seq<LayerBounds>)
    requires VariablesMapped(Fixture) && BoundsShaped(Fixture, bounds)
    requires Size(Fixture, 1) == 3 && Size(Fixture, 2) == 2 && Size(Fixture, 3) == 2
    ensures NeuronTightenings(Fixture, bounds, 1, 0) == [Tightening(2, bounds[1].weightedSums.lb[0], LB), Tightening(2, bounds[1].weightedSums.ub[0], UB), Tightening(3, bounds[1].activations.lb[0], LB), Tightening(3, bounds[1].activations.ub[0], UB)]
    ensures NeuronTightenings(Fixture, bounds, 1, 1) == [Tightening(4, bounds[1].weightedSums.lb[1], LB), Tightening(4, bounds[1].weightedSums.ub[1], UB), Tightening(5, bounds[1].activations.lb[1], LB), Tightening(5, bounds[1].activations.ub[1], UB)]
    ensures NeuronTightenings(Fixture, bounds, 1, 2) == [Tightening(6, bounds[1].weightedSums.lb[2], LB), Tightening(6, bounds[1].weightedSums.ub[2], UB), Tightening(7, bounds[1].activations.lb[2], LB), Tightening(7, bounds[1].activations.ub[2], UB)]
    ensures NeuronTightenings(Fixture, bounds, 2, 0) == [Tightening(8, bounds[2].weightedSums.lb[0], LB), Tightening(8, bounds[2].weightedSums.ub[0], UB), Tightening(9, bounds[2].activations.lb[0], LB), Tightening(9, bounds[2].activations.ub[0], UB)]
    ensures NeuronTightenings(Fixture, bounds, 2, 1) == [Tightening(10, bounds[2].weightedSums.lb[1], LB), Tightening(10, bounds[2].weightedSums.ub[1], UB), Tightening(11, bounds[2].activations.lb[1], LB), Tightening(11, bounds[2].activations.ub[1], UB)]
    ensures NeuronTightenings(Fixture, bounds, 3, 0) == [Tightening(12, bounds[3].weightedSums.lb[0], LB), Tightening(12, bounds[3].weightedSums.ub[0], UB)]
    ensures NeuronTightenings(Fixture, bounds, 3, 1) == [Tightening(13, bounds[3].weightedSums.lb[1], LB), Tightening(13, bounds[3].weightedSums.ub[1], UB)]
  {
  }

  /** The reported list is the three non-input layers' lists, in layer order. */
  lemma FixtureLayerOrder(bounds: seq<LayerBounds>)
    requires VariablesMapped(Fixture) && BoundsShaped(Fixture, bounds)
    requires Size(Fixture, 1) == 3 && Size(Fixture, 2) == 2 && Size(Fixture, 3) == 2
    ensures GetConstraintTightenings(Fixture, bounds)
            == LayerTightenings(Fixture, bounds, 1, 3) + LayerTightenings(Fixture, bounds, 2, 2)
               + LayerTightenings(Fixture, bounds, 3, 2)
  {
    assert TighteningsFrom(Fixture, bounds, 4) == [];
    assert TighteningsFrom(Fixture, bounds, 3) == LayerTightenings(Fixture, bounds, 3, 2);
  }

  lemma FixtureFirstLayerTightenings(bounds: seq<LayerBounds>)
    requires VariablesMapped(Fixture) && BoundsShaped(Fixture, bounds)
    requires Size(Fixture, 1) == 3 && Size(Fixture, 2) == 2 && Size(Fixture, 3) == 2
    ensures LayerTightenings(Fixture, bounds, 1, 3)
            == [Tightening(2, bounds[1].weightedSums.lb[0], LB), Tightening(2, bounds[1].weightedSums.ub[0], UB),
               Tightening(3, bounds[1].activations.lb[0], LB), Tightening(3, bounds[1].activations.ub[0], UB),
               Tightening(4, bounds[1].weightedSums.lb[1], LB), Tightening(4, bounds[1].weightedSums.ub[1], UB),
               Tightening(5, bounds[1].activations.lb[1], LB), Tightening(5, bounds[1].activations.ub[1], UB),
               Tightening(6, bounds[1].weightedSums.lb[2], LB), Tightening(6, bounds[1].weightedSums.ub[2], UB),
               Tightening(7, bounds[1].activations.lb[2], LB), Tightening(7, bounds[1].activations.ub[2], UB)]
  {
    FixtureNeuronTightenings(bounds);
    assert LayerTightenings(Fixture, bounds, 1, 0) == [];
    assert LayerTightenings(Fixture, bounds, 1, 1) == NeuronTightenings(Fixture, bounds, 1, 0);
    assert LayerTightenings(Fixture, bounds, 1, 2)
           == NeuronTightenings(Fixture, bounds, 1, 0) + NeuronTightenings(Fixture, bounds, 1, 1);
  }

  lemma FixtureSecondLayerTightenings(bounds: seq<LayerBounds>)
    requires VariablesMapped(Fixture) && BoundsShaped(Fixture, bounds)
    requires Size(Fixture, 1) == 3 && Size(Fixture, 2) == 2 && Size(Fixture, 3) == 2
    ensures LayerTightenings(Fixture, bounds, 2, 2)
            == [Tightening(8, bounds[2].weightedSums.lb[0], LB), Tightening(8, bounds[2].weightedSums.ub[0], UB),
               Tightening(9, bounds[2].activations.lb[0], LB), Tightening(9, bounds[2].activations.ub[0], UB),
               Tightening(10, bounds[2].weightedSums.lb[1], LB), Tightening(10, bounds[2].weightedSums.ub[1], UB),
               Tightening(11, bounds[2].activations.lb[1], LB), Tightening(11, bounds[2].activations.ub[1], UB)]
  {
    FixtureNeuronTightenings(bounds);
    assert LayerTightenings(Fixture, bounds, 2, 0) == [];
    assert LayerTightenings(Fixture, bounds, 2, 1) == NeuronTightenings(Fixture, bounds, 2, 0);
  }

  lemma FixtureOutputLayerTightenings(bounds: seq<LayerBounds>)
    requires VariablesMapped(Fixture) && BoundsShaped(Fixture, bounds)
    requires Size(Fixture, 1) == 3 && Size(Fixture, 2) == 2 && Size(Fixture, 3) == 2
    ensures LayerTightenings(Fixture, bounds, 3, 2)
            == [Tightening(12, bounds[3].weightedSums.lb[0], LB), Tightening(12, bounds[3].weightedSums.ub[0], UB),
               Tightening(13, bounds[3].weightedSums.lb[1], LB), Tightening(13, bounds[3].weightedSums.ub[1], UB)]
  {
    FixtureNeuronTightenings(bounds);
    assert LayerTightenings(Fixture, bounds, 3, 0) == [];
    assert LayerTightenings(Fixture, bounds, 3, 1) == NeuronTightenings(Fixture, bounds, 3, 0);
  }

  /**
   The order in which the tightenings of the test network are reported:
   neuron by neuron and layer by layer, each neuron's weighted-sum lower and
   upper bound, then its activation-result lower and upper bound.
   */
  lemma FixtureTighteningOrder(bounds: seq<LayerBounds>)
    requires VariablesMapped(Fixture) && BoundsShaped(Fixture, bounds)
    requires Size(Fixture, 1) == 3 && Size(Fixture, 2) == 2 && Size(Fixture, 3) == 2
    ensures GetConstraintTightenings(Fixture, bounds)
            == [Tightening(2, bounds[1].weightedSums.lb[0], LB), Tightening(2, bounds[1].weightedSums.ub[0], UB),
               Tightening(3, bounds[1].activations.lb[0], LB), Tightening(3, bounds[1].activations.ub[0], UB),
               Tightening(4, bounds[1].weightedSums.lb[1], LB), Tightening(4, bounds[1].weightedSums.ub[1], UB),
               Tightening(5, bounds[1].activations.lb[1], LB), Tightening(5, bounds[1].activations.ub[1], UB),
               Tightening(6, bounds[1].weightedSums.lb[2], LB), Tightening(6, bounds[1].weightedSums.ub[2], UB),
               Tightening(7, bounds[1].activations.lb[2], LB), Tightening(7, bounds[1].activations.ub[2], UB)]
               + [Tightening(8, bounds[2].weightedSums.lb[0], LB), Tightening(8, bounds[2].weightedSums.ub[0], UB),
               Tightening(9, bounds[2].activations.lb[0], LB), Tightening(9, bounds[2].activations.ub[0], UB),
               Tightening(10, bounds[2].weightedSums.lb[1], LB), Tightening(10, bounds[2].weightedSums.ub[1], UB),
               Tightening(11, bounds[2].activations.lb[1], LB), Tightening(11, bounds[2].activations.ub[1], UB)]
               + [Tightening(12, bounds[3].weightedSums.lb[0], LB), Tightening(12, bounds[3].weightedSums.ub[0], UB),
               Tightening(13, bounds[3].weightedSums.lb[1], LB), Tightening(13, bounds[3].weightedSums.ub[1], UB)]
  {
    FixtureLayerOrder(bounds);
    FixtureFirstLayerTightenings(bounds);
    FixtureSecondLayerTightenings(bounds);
    FixtureOutputLayerTightenings(bounds);
  }

  /**
   Tableau bounds for the test network's fourteen variables: the two input
   variables get the given bounds, every other variable `wide`.
   */
  function TableauBounds(x: real, y: real, wide: real): (bounds: seq<real>)
    ensures |bounds| == 14 && bounds[0] == x && bounds[1] == y
  {
    [x, y] + seq(12, _ => wide)
  }

  /** The input box read from the tableau is the input variables' bounds. */
  lemma FixtureInputBox(xl: real, yl: real, xu: real, yu: real)
    ensures InputVariablesBounded(Fixture, TableauBounds(xl, yl, -1000.0), TableauBounds(xu, yu, 1000.0))
    ensures ObtainCurrentBounds(Fixture, TableauBounds(xl, yl, -1000.0), TableauBounds(xu, yu, 1000.0))
            == Box([xl, yl], [xu, yu])
  {
    assert Size(Fixture, 0) == 2;
    assert Fixture.indexToActivationResultVariable[NeuronIndex(0, 0)] == 0;
    assert Fixture.indexToActivationResultVariable[NeuronIndex(0, 1)] == 1;
    var box := ObtainCurrentBounds(Fixture, TableauBounds(xl, yl, -1000.0), TableauBounds(xu, yu, 1000.0));
    assert |box.lb| == 2 && |box.ub| == 2;
    assert box.lb[0] == xl && box.lb[1] == yl && box.ub[0] == xu && box.ub[1] == yu;
  }

  /** Propagation through the test network's four layers, given each step's result. */
  lemma FixturePropagationSteps(inputBox: Box, ws1: Box, act1: Box, ws2: Box, act2: Box, ws3: Box)
    requires WellFormed(Fixture) && Shaped(inputBox, Size(Fixture, 0))
    requires Size(Fixture, 1) == 3 && Size(Fixture, 2) == 2
    requires WeightedSumBounds(Fixture, inputBox, 1) == ws1 && ActivationBounds(Fixture, ws1, 1) == act1
    requires Shaped(act1, 3) && WeightedSumBounds(Fixture, act1, 2) == ws2 && ActivationBounds(Fixture, ws2, 2) == act2
    requires Shaped(act2, 2) && WeightedSumBounds(Fixture, act2, 3) == ws3
    ensures IntervalArithmeticBoundPropagation(Fixture, inputBox)
            == [LayerBounds(inputBox, inputBox), LayerBounds(ws1, act1), LayerBounds(ws2, act2), LayerBounds(ws3, ws3)]
  {
    assert ActivationBox(Fixture, inputBox, 1) == act1;
    assert ActivationBox(Fixture, inputBox, 2) == act2;
    var bounds := IntervalArithmeticBoundPropagation(Fixture, inputBox);
    assert bounds[0] == LayerBounds(inputBox, inputBox);
    assert bounds[1] == LayerBounds(ws1, act1);
    assert bounds[2] == LayerBounds(ws2, act2);
    assert bounds[3] == LayerBounds(ws3, ws3);
  }

  /** Interval propagation in the first propagation test: both inputs in [-1, 1]. */
  lemma FixturePropagationUnitBox()
    ensures var lower := TableauBounds(-1.0, -1.0, -1000.0);
            var upper := TableauBounds(1.0, 1.0, 1000.0);
            && WellFormed(Fixture) && InputVariablesBounded(Fixture, lower, upper)
            && IntervalArithmeticBoundPropagation(Fixture, ObtainCurrentBounds(Fixture, lower, upper))
               == [LayerBounds(Box([-1.0, -1.0], [1.0, 1.0]), Box([-1.0, -1.0], [1.0, 1.0])),
               LayerBounds(Box([0.0, -5.0, -1.0], [2.0, 5.0, 1.0]), Box([0.0, 0.0, 0.0], [2.0, 5.0, 1.0])),
               LayerBounds(Box([-1.0, -1.0], [7.0, 7.0]), Box([0.0, 0.0], [7.0, 7.0])),
               LayerBounds(Box([0.0, 0.0], [7.0, 28.0]), Box([0.0, 0.0], [7.0, 28.0]))]
  {
    FixtureWellFormed();
    FixtureInputBox(-1.0, -1.0, 1.0, 1.0);
    var inputBox := Box([-1.0, -1.0], [1.0, 1.0]);
    FixtureFirstLayerBounds(-1.0, 1.0, -1.0, 1.0);
    var ws1 := Box([0.0, -5.0, -1.0], [2.0, 5.0, 1.0]);
    var act1 := Box([0.0, 0.0, 0.0], [2.0, 5.0, 1.0]);
    FixtureFirstLayerActivationBounds(ws1.lb[0], ws1.lb[1], ws1.lb[2], ws1.ub[0], ws1.ub[1], ws1.ub[2]);
    FixtureSecondLayerBounds(0.0, 0.0, 0.0, 2.0, 5.0, 1.0);
    var ws2 := Box([-1.0, -1.0], [7.0, 7.0]);
    var act2 := Box([0.0, 0.0], [7.0, 7.0]);
    FixtureSecondLayerActivationBounds(ws2.lb[0], ws2.lb[1], ws2.ub[0], ws2.ub[1]);
    FixtureOutputBounds(0.0, 0.0, 7.0, 7.0);
    var ws3 := Box([0.0, 0.0], [7.0, 28.0]);
    FixturePropagationSteps(inputBox, ws1, act1, ws2, act2, ws3);
  }

  /** The first propagation test: both inputs in [-1, 1]. */
  lemma FixtureTighteningsUnitBox()
    ensures var lower := TableauBounds(-1.0, -1.0, -1000.0);
            var upper := TableauBounds(1.0, 1.0, 1000.0);
            && WellFormed(Fixture) && VariablesMapped(Fixture)
            && InputVariablesBounded(Fixture, lower, upper)
            && GetConstraintTightenings(Fixture, IntervalArithmeticBoundPropagation(Fixture, ObtainCurrentBounds(Fixture, lower, upper)))
               == [Tightening(2, 0.0, LB), Tightening(2, 2.0, UB), Tightening(3, 0.0, LB), Tightening(3, 2.0, UB),
               Tightening(4, -5.0, LB), Tightening(4, 5.0, UB), Tightening(5, 0.0, LB), Tightening(5, 5.0, UB),
               Tightening(6, -1.0, LB), Tightening(6, 1.0, UB), Tightening(7, 0.0, LB), Tightening(7, 1.0, UB)]
               + [Tightening(8, -1.0, LB), Tightening(8, 7.0, UB), Tightening(9, 0.0, LB), Tightening(9, 7.0, UB),
               Tightening(10, -1.0, LB), Tightening(10, 7.0, UB), Tightening(11, 0.0, LB), Tightening(11, 7.0, UB)]
               + [Tightening(12, 0.0, LB), Tightening(12, 7.0, UB), Tightening(13, 0.0, LB), Tightening(13, 28.0, UB)]
  {
    FixtureWellFormed();
    FixtureVariablesMapped();
    FixturePropagationUnitBox();
    var lower := TableauBounds(-1.0, -1.0, -1000.0);
    var upper := TableauBounds(1.0, 1.0, 1000.0);
    FixtureTighteningOrder(IntervalArithmeticBoundPropagation(Fixture, ObtainCurrentBounds(Fixture, lower, upper)));
  }

  /** Interval propagation in the second propagation test: x in [-3, 1], y in [-1, 2]. */
  lemma FixturePropagationSkewedBox()
    ensures var lower := TableauBounds(-3.0, -1.0, -1000.0);
            var upper := TableauBounds(1.0, 2.0, 1000.0);
            && WellFormed(Fixture) && InputVariablesBounded(Fixture, lower, upper)
            && IntervalArithmeticBoundPropagation(Fixture, ObtainCurrentBounds(Fixture, lower, upper))
               == [LayerBounds(Box([-3.0, -1.0], [1.0, 2.0]), Box([-3.0, -1.0], [1.0, 2.0])),
               LayerBounds(Box([-2.0, -12.0, -1.0], [2.0, 5.0, 2.0]), Box([0.0, 0.0, 0.0], [2.0, 5.0, 2.0])),
               LayerBounds(Box([-2.0, -2.0], [7.0, 7.0]), Box([0.0, 0.0], [7.0, 7.0])),
               LayerBounds(Box([0.0, 0.0], [7.0, 28.0]), Box([0.0, 0.0], [7.0, 28.0]))]
  {
    FixtureWellFormed();
    FixtureInputBox(-3.0, -1.0, 1.0, 2.0);
    var inputBox := Box([-3.0, -1.0], [1.0, 2.0]);
    FixtureFirstLayerBounds(-3.0, 1.0, -1.0, 2.0);
    var ws1 := Box([-2.0, -12.0, -1.0], [2.0, 5.0, 2.0]);
    var act1 := Box([0.0, 0.0, 0.0], [2.0, 5.0, 2.0]);
    FixtureFirstLayerActivationBounds(ws1.lb[0], ws1.lb[1], ws1.lb[2], ws1.ub[0], ws1.ub[1], ws1.ub[2]);
    FixtureSecondLayerBounds(0.0, 0.0, 0.0, 2.0, 5.0, 2.0);
    var ws2 := Box([-2.0, -2.0], [7.0, 7.0]);
    var act2 := Box([0.0, 0.0], [7.0, 7.0]);
    FixtureSecondLayerActivationBounds(ws2.lb[0], ws2.lb[1], ws2.ub[0], ws2.ub[1]);
    FixtureOutputBounds(0.0, 0.0, 7.0, 7.0);
    var ws3 := Box([0.0, 0.0], [7.0, 28.0]);
    FixturePropagationSteps(inputBox, ws1, act1, ws2, act2, ws3);
  }

  /** The second propagation test: x in [-3, 1], y in [-1, 2]. */
  lemma FixtureTighteningsSkewedBox()
    ensures var lower := TableauBounds(-3.0, -1.0, -1000.0);
            var upper := TableauBounds(1.0, 2.0, 1000.0);
            && WellFormed(Fixture) && VariablesMapped(Fixture)
            && InputVariablesBounded(Fixture, lower, upper)
            && GetConstraintTightenings(Fixture, IntervalArithmeticBoundPropagation(Fixture, ObtainCurrentBounds(Fixture, lower, upper)))
               == [Tightening(2, -2.0, LB), Tightening(2, 2.0, UB), Tightening(3, 0.0, LB), Tightening(3, 2.0, UB),
               Tightening(4, -12.0, LB), Tightening(4, 5.0, UB), Tightening(5, 0.0, LB), Tightening(5, 5.0, UB),
               Tightening(6, -1.0, LB), Tightening(6, 2.0, UB), Tightening(7, 0.0, LB), Tightening(7, 2.0, UB)]
               + [Tightening(8, -2.0, LB), Tightening(8, 7.0, UB), Tightening(9, 0.0, LB), Tightening(9, 7.0, UB),
               Tightening(10, -2.0, LB), Tightening(10, 7.0, UB), Tightening(11, 0.0, LB), Tightening(11, 7.0, UB)]
               + [Tightening(12, 0.0, LB), Tightening(12, 7.0, UB), Tightening(13, 0.0, LB), Tightening(13, 28.0, UB)]
  {
    FixtureWellFormed();
    FixtureVariablesMapped();
    FixturePropagationSkewedBox();
    var lower := TableauBounds(-3.0, -1.0, -1000.0);
    var upper := TableauBounds(1.0, 2.0, 1000.0);
    FixtureTighteningOrder(IntervalArithmeticBoundPropagation(Fixture, ObtainCurrentBounds(Fixture, lower, upper)));
  }
}
