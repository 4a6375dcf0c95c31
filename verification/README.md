# Marabou: the ReLU constraint and the network-level reasoner, in Dafny

This project models two self-contained pieces of the Marabou neural-network
verifier and proves properties of them.

**The ReLU piecewise-linear constraint** (`ReluConstraint` module). The
constraint `f = max(0, b)` is a small state machine over:

- the input variable `b` and the output variable `f`;
- an "active" flag;
- a phase (not fixed / active / inactive);
- the assignment reported by the tableau;
- the queue of case splits.

Tableau notifications drive its phase. It decides satisfaction, proposes
fixes, and emits two case splits. Each split is a list of bound tightenings
plus one linear equation over an auxiliary variable. The splits describe
exactly the ReLU relation and are complementary, as the constraint interface
(`PiecewiseLinearConstraint` module) demands. The valid split, once the phase
is fixed, is sound. Storing and restoring the state undoes every change in
between.

Case splits, tightenings and equations, and what it means for an assignment
to satisfy them, are in the `CaseSplit` module.

**The network-level reasoner** (`NetworkLevelReasoner` and `BoundPropagation`
modules). A layered feed-forward network is described by:

- the number of layers and their sizes;
- the weights, stored flat per source layer at `j * targetLayerSize + i`;
- the biases;
- which neurons are ReLUs;
- the maps from neurons to the solver variables holding their weighted sums
  and activation results.

Operations:

- **Setters.** Each setter changes exactly what it names.
- **Evaluation.** A method computes the output and records every neuron's
  values. It is proved equal to a layer-by-layer reference definition.
- **Copy.** `StoreIntoOther` gives a copy that evaluates identically on every
  input.
- **Interval propagation.** Starting from the tableau bounds of the input
  variables, it computes interval bounds for every layer. The main theorem is
  soundness: every evaluation from an input inside the input bounds stays
  inside every propagated interval. Each weighted-sum bound is also attained
  by a point of the previous layer's box. So, layer by layer, the computed
  interval is the tightest one.
- **Tightenings.** `GetConstraintTightenings` reports the propagated bounds as
  a list. Every entry holds of every such evaluation and names a variable of
  a non-input neuron. When no input neuron shares its variable with another
  neuron, no entry names an input variable.

The `ReasonerFixture` module builds the unit tests' four-layer network
through the setters. For it, the model proves:

- the outputs the unit tests expect;
- that the copy behaves like the original;
- the exact tightening lists the two propagation tests expect.

Numbers are `real` and comparisons are exact: `isPositive` is `> 0`,
`isNegative` is `< 0`, `areEqual` is `==`. The fresh-variable counter that
supplies the case splits' auxiliary variable becomes an `aux` parameter. The
tableau's current bounds become two sequences `lower` and `upper`, indexed by
variable.

## Model

| member | source | states |
|---|---|---|
| ReluConstraint.Create | src/reluplex/ReluConstraint.cpp:21-27 | A new constraint watches the given `b` and `f`. It is active and its phase is not fixed. It holds no values and no splits. |
| ReluConstraint.SetActiveConstraint | src/reluplex/ReluConstraint.cpp:41-49 | `IsActive` afterwards returns exactly the flag given; nothing else in the constraint changes. |
| ReluConstraint.NotifyVariableValue | src/reluplex/ReluConstraint.cpp:51-54 | The reported variable now has the reported value. Every other recorded value is kept. No other part of the constraint changes. |
| ReluConstraint.NotifyLowerBound | src/reluplex/ReluConstraint.cpp:56-62 | A lower-bound notification can only change the phase, and only to active. |
| ReluConstraint.NotifyLowerBoundIsExact | src/reluplex/ReluConstraint.cpp:56-62 | The phase becomes active exactly when the bound forces `b >= 0` on every point of the ReLU graph (when `f > 0` or `b >= 0` is given). Otherwise the earlier phase is kept, and a ReLU point meeting the bound with `b < 0` exists. |
| ReluConstraint.NotifyUpperBound | src/reluplex/ReluConstraint.cpp:64-68 | An upper-bound notification can only change the phase, and only to inactive. |
| ReluConstraint.NotifyUpperBoundIsExact | src/reluplex/ReluConstraint.cpp:64-68 | The phase becomes inactive exactly when the bound forces `b <= 0` on every point of the ReLU graph (`b` or `f` at most 0). Otherwise the phase is unchanged. |
| ReluConstraint.ParticipatingVariablesAgree | src/reluplex/ReluConstraint.cpp:70-78 | A variable participates iff it is in the participating list, and that list is exactly `[b, f]`. |
| ReluConstraint.Satisfied | src/reluplex/ReluConstraint.cpp:80-94 | Fails, with the participating-variables-absent error, iff `b` or `f` has no value. Otherwise, for `f >= 0`, the answer is true iff `f = max(0, b)`. |
| ReluConstraint.SatisfiedAfterNotify | src/reluplex/ReluConstraint.cpp:80-94 | After the tableau reports a value for `b` and then one with `f >= 0` for `f`, satisfaction is exactly the ReLU relation on those two values. |
| ReluConstraint.GetPossibleFixes | src/reluplex/ReluConstraint.cpp:96-133 | On a violated assignment with `f >= 0` there are exactly two fixes. The first changes `b` and the second changes `f`. Applying either one alone makes `f = max(0, b)` hold with `f >= 0`, so the constraint is satisfied. |
| ReluConstraint.GetCaseSplits | src/reluplex/ReluConstraint.cpp:135-148 | Fails with the requested-case-splits-from-fixed-constraint error iff the phase is fixed. Otherwise it returns two splits. |
| ReluConstraint.ActiveSplitMeaning | src/reluplex/ReluConstraint.cpp:191-209 | An assignment satisfies the active split iff `b >= 0`, `f = b` and `aux = 0`. |
| ReluConstraint.InactiveSplitMeaning | src/reluplex/ReluConstraint.cpp:172-189 | An assignment satisfies the inactive split iff `b <= 0`, `f = 0` and `aux = 0`. |
| ReluConstraint.CaseSplitsDescribeRelu | src/reluplex/ReluConstraint.cpp:135-148 | An assignment satisfies one of the two case splits iff `f = max(0, b)` and `aux = 0`. |
| ReluConstraint.CaseSplitsComplementary | src/reluplex/PiecewiseLinearConstraint.h:118-124 | The two case splits are complementary: on every ReLU point, with `aux` at 0, violating the first split implies the second. |
| ReluConstraint.GetValidCaseSplit | src/reluplex/ReluConstraint.cpp:216-226 | It is only asked for once the phase is fixed. It returns the first of the two case splits (active) for an active phase and the second (inactive) for an inactive phase. |
| ReluConstraint.ValidCaseSplitSound | src/reluplex/ReluConstraint.cpp:216-226 | Every ReLU point on the side of the fixed phase satisfies the valid split once `aux` is 0. |
| ReluConstraint.StoreState | src/reluplex/ReluConstraint.cpp:150-159 | The saved state holds the constraint's split queue and carries constraint-specific data. |
| ReluConstraint.RestoreState | src/reluplex/ReluConstraint.cpp:161-170 | Restoring keeps the participating variables. Storing the restored constraint gives back the very state that was restored. |
| ReluConstraint.RestoreUndoesChanges | src/reluplex/PiecewiseLinearConstraint.h:136-142 | Restoring a stored state undoes every later change to the active flag, assignment, phase and split queue. |
| PiecewiseLinearConstraint.ApplyFix | src/reluplex/PiecewiseLinearConstraint.h:63-74 | Applying a fix gives its variable exactly its value and leaves every other variable's value alone. |
| PiecewiseLinearConstraint.NewConstraintState | src/reluplex/PiecewiseLinearConstraint.h:38-41 | A fresh saved state has no constraint-specific data and no splits. |
| NetworkLevelReasoner.NewReasoner | src/engine/NetworkLevelReasoner.h:43 | A new reasoner has no layers, no weights, and every layer size is 0. |
| NetworkLevelReasoner.SetNumberOfLayers | src/engine/NetworkLevelReasoner.h:48 | Sets the layer count and nothing else. |
| NetworkLevelReasoner.SetLayerSize | src/engine/NetworkLevelReasoner.h:49 | The given layer gets the given size; every other layer keeps its size; nothing else changes. |
| NetworkLevelReasoner.SetNeuronActivationFunction | src/engine/NetworkLevelReasoner.h:50 | The given neuron becomes a ReLU and no other neuron's activation changes. |
| NetworkLevelReasoner.SetWeight | src/engine/NetworkLevelReasoner.h:51 | The given edge gets the given weight. Every other edge keeps its weight. The network stays well formed. |
| NetworkLevelReasoner.FlatIndexInjective | src/engine/AbstractDomainBoundTightener.h:198 | Distinct edges occupy distinct slots of the flat weight table `j * targetLayerSize + i`. |
| NetworkLevelReasoner.SetBias | src/engine/NetworkLevelReasoner.h:52 | The given neuron gets the given bias and no other neuron's bias changes. |
| NetworkLevelReasoner.AllocateMemoryByTopology | src/engine/NetworkLevelReasoner.h:54-59 | Once the sizes are known, there is one weight table per pair of adjacent layers, each of the right length and all zero. Nothing else changes. |
| NetworkLevelReasoner.SetWeightedSumVariable | src/engine/NetworkLevelReasoner.h:65-66 | The getter then returns the given variable for that neuron, and no other neuron's mapping changes. |
| NetworkLevelReasoner.SetActivationResultVariable | src/engine/NetworkLevelReasoner.h:67-68 | The getter then returns the given variable for that neuron, and no other neuron's mapping changes. |
| NetworkLevelReasoner.GetWeightedSumVariable | src/engine/NetworkLevelReasoner.h:66 | Comes back empty exactly when no variable was set for the neuron, and otherwise returns one of the mapped variables. Together with `SetWeightedSumVariable`'s contract, reading a neuron back after setting it gives the variable that was set. |
| NetworkLevelReasoner.GetActivationResultVariable | src/engine/NetworkLevelReasoner.h:68 | Comes back empty exactly when no variable was set for the neuron, and otherwise returns one of the mapped variables. |
| BoundPropagation.MappedNeuronsHaveVariables | src/engine/NetworkLevelReasoner.h:65-68 | On a network where every non-input neuron has a weighted-sum variable and every non-output neuron an activation variable, neither getter comes back empty for such a neuron. |
| NetworkLevelReasoner.Activate | src/engine/NetworkLevelReasoner.h:50 | An activation result is never below its weighted sum. For a ReLU neuron it is also non-negative and equal to either the sum or 0, which together make it `max(0, x)`. A neuron with no activation function passes its sum through. |
| NetworkLevelReasoner.ActivateMonotone | src/engine/NetworkLevelReasoner.h:104-105 | A larger weighted sum never gives a smaller activation result, so interval ends can be pushed through the activation. |
| NetworkLevelReasoner.EvaluationByNeuron | src/engine/NetworkLevelReasoner.h:82 | Input-layer results are the inputs. Each later neuron's weighted sum is its bias plus the weighted previous-layer results. Its result is that sum, passed through ReLU for ReLU neurons. The output is the last layer's weighted sums. |
| NetworkLevelReasoner.ComputeWeightedSums | src/engine/NetworkLevelReasoner.h:82 | The neuron-by-neuron accumulation loop computes exactly the layer's weighted sums. |
| NetworkLevelReasoner.Evaluate | src/engine/NetworkLevelReasoner.h:72-82 | Returns the network's output. It records the weighted sum of exactly the non-input neurons and the result of exactly the non-output neurons, each equal to the value evaluation defines. |
| NetworkLevelReasoner.EvaluateLayer | src/engine/NetworkLevelReasoner.h:72-82 | One layer of evaluation extends the recorded weighted sums by that layer's, and below the output layer also the recorded activation results. On the output layer its weighted sums are the network's output and the activation record is left as it was. |
| NetworkLevelReasoner.StoreIntoOther | src/engine/NetworkLevelReasoner.h:84-87 | Whatever `other` held, the copy equals the original: the same topology, weights, biases, activation functions and variable maps. So it is well formed when the original is, and gives the same output on every input. |
| BoundPropagation.ObtainCurrentBounds | src/engine/NetworkLevelReasoner.h:101-102 | The input box has one interval per input neuron. Only the input neurons' bounds are read; see "Left out". |
| BoundPropagation.InputBoxMeaning | src/engine/NetworkLevelReasoner.h:101-102 | An input lies in the input box iff each input neuron's value lies within its variable's current tableau bounds. |
| BoundPropagation.DotWithinBounds | src/engine/NetworkLevelReasoner.h:104-105 | A weighted sum of values inside their intervals lies between the interval lower and upper dot products. These use positive weights on the lower (upper) ends and negative weights on the upper (lower) ends. |
| BoundPropagation.LowerDotAttained | src/engine/NetworkLevelReasoner.h:104-105 | The interval lower dot product equals the weighted sum at the box corner that takes lower ends under positive weights. |
| BoundPropagation.UpperDotAttained | src/engine/NetworkLevelReasoner.h:104-105 | The interval upper dot product equals the weighted sum at the box corner that takes upper ends under positive weights. |
| BoundPropagation.WeightedSumBoxSound | src/engine/NetworkLevelReasoner.h:104-105 | If the previous layer's results lie in their box, the layer's weighted sums lie in the propagated weighted-sum box. |
| BoundPropagation.WeightedSumBoundsAttained | src/engine/NetworkLevelReasoner.h:104-105 | Each propagated weighted-sum lower and upper bound is reached by some choice of previous-layer results inside their box, so no narrower interval is sound for that layer. |
| BoundPropagation.ActivationBoxSound | src/engine/NetworkLevelReasoner.h:104-105 | Evaluation from an input inside the input box keeps every layer's activation results inside that layer's propagated activation box. |
| BoundPropagation.IntervalArithmeticBoundPropagation | src/engine/NetworkLevelReasoner.h:104-105 | One weighted-sum box and one activation box per layer, each as wide as its layer. The input layer's activation box is the input box itself. Each later layer is computed from the previous layer's activation box. A hidden neuron's activation lower bound is never below its weighted-sum lower bound, and is at least 0 for a ReLU. |
| BoundPropagation.IntervalArithmeticSound | src/engine/NetworkLevelReasoner.h:104-105 | Soundness: for every input inside the input box, every weighted sum and every hidden activation result of evaluation lies inside its propagated interval. |
| BoundPropagation.NeuronTighteningsHold | src/engine/NetworkLevelReasoner.h:124 | A neuron's reported tightenings hold as soon as its variables' values lie in its propagated intervals. |
| BoundPropagation.GetConstraintTightenings | src/engine/NetworkLevelReasoner.h:124 | Every reported tightening names either the weighted-sum variable of a non-input neuron or the activation variable of a hidden neuron. |
| BoundPropagation.TighteningsAvoidInputVariables | src/engine/NetworkLevelReasoner.h:124 | When no input neuron shares its variable with a non-input neuron, no reported tightening names an input neuron's variable. |
| BoundPropagation.TighteningsFromSound | src/engine/NetworkLevelReasoner.h:124 | If every neuron's own tightenings hold, so does the whole layer-by-layer list. |
| BoundPropagation.ConstraintTighteningsSound | src/engine/NetworkLevelReasoner.h:124 | Take any assignment that agrees with an evaluation on an input inside the current input-variable bounds. Every tightening reported after propagation holds of it and names a variable of a non-input neuron. |
| ReasonerFixture.PopulateNetwork | src/engine/tests/Test_NetworkLevelReasoner.h:43-109 | Setting the test network up through the setters, call by call, yields the four-layer network of sizes 2, 3, 2, 2 with the tests' weights, biases, variable maps and ReLUs. |
| ReasonerFixture.FixtureOutput | src/engine/tests/Test_NetworkLevelReasoner.h:43-109 | On every input `(x, y)` the test network outputs `(d, d + 3e)`. Here `a = relu(x+1)`, `b = relu(2x-3y)`, `c = relu(y)`, `d = relu(a+b-c)` and `e = relu(-a+b-c+2)`. |
| ReasonerFixture.FixtureEvaluations | src/engine/tests/Test_NetworkLevelReasoner.h:111-146 | The test network maps (0,0) to (1,4), (1,1) to (1,1) and (1,2) to (0,0). |
| ReasonerFixture.FixtureStoreIntoOther | src/engine/tests/Test_NetworkLevelReasoner.h:148-170 | The copy into a fresh reasoner is well formed and gives (1,4) on (0,0) and (1,1) on (1,1), as the original does. |
| ReasonerFixture.FixtureMarkAgain | src/engine/tests/Test_NetworkLevelReasoner.h:172-180 | Marking a hidden neuron as a ReLU again leaves the network unchanged, so copying again gives the same copy. |
| ReasonerFixture.FixtureTighteningOrder | src/engine/tests/Test_NetworkLevelReasoner.h:238-268 | The test network's tightenings come neuron by neuron and layer by layer. For each neuron: weighted-sum LB then UB, then activation LB then UB (hidden neurons only). Variables 2 to 13, never 0 or 1. |
| ReasonerFixture.FixturePropagationUnitBox | src/engine/tests/Test_NetworkLevelReasoner.h:203-236 | With both inputs in [-1, 1], propagation gives these intervals: a [0,2], b [-5,5], c [-1,1]; their results [0,2], [0,5], [0,1]; d and e [-1,7], results [0,7]; f [0,7] and g [0,28]. |
| ReasonerFixture.FixtureTighteningsUnitBox | src/engine/tests/Test_NetworkLevelReasoner.h:238-272 | With both inputs in [-1, 1], the reported tightenings are exactly the first expected list of the test. |
| ReasonerFixture.FixturePropagationSkewedBox | src/engine/tests/Test_NetworkLevelReasoner.h:274-297 | With x in [-3, 1] and y in [-1, 2], propagation gives these intervals: a [-2,2], b [-12,5], c [-1,2]; d and e [-2,7]; f [0,7] and g [0,28]. |
| ReasonerFixture.FixtureTighteningsSkewedBox | src/engine/tests/Test_NetworkLevelReasoner.h:299-332 | With x in [-3, 1] and y in [-1, 2], the reported tightenings are exactly the second expected list of the test. |

## Left out

- The default no-op notification callbacks of the abstract constraint are not modelled. The ReLU constraint overrides all three, and Dafny here has no base class for them to live in.
- Registering and unregistering a constraint as a tableau watcher, and `setTableau`, are left out: they only wire up callbacks. The tableau's bounds are passed in as `lower` and `upper` instead.
- The fresh-variable counter is left out: it is global mutable state. The auxiliary variable is a parameter, and the lemmas ask of it only that it differs from `b` and `f`.
- FloatUtils' epsilon tolerance is left out; all comparisons are exact on reals.
- Unsigned variable indices are `nat`. No arithmetic is done on them, so 32-bit wrap-around never arises.
- `functionTypeSupported` and activation functions other than ReLU are left out. The source also handles absolute-value neurons in symbolic propagation (`src/engine/NetworkLevelReasoner.h:196`), which is not part of this model.
- A neuron with no activation function passes its weighted sum through unchanged (`NetworkLevelReasoner.Activate`). The header shows no body for evaluation, so this is the model's own convention. It agrees with the test network, whose output neurons carry no activation function and output their weighted sums.
- Which neurons `NetworkLevelReasoner.Evaluate` records is also the model's convention: weighted sums of every non-input neuron, and activation results of every neuron outside the output layer. The header only says that the assignment is stored when evaluation runs (`src/engine/NetworkLevelReasoner.h:158-162`).
- `eliminateVariable`, `updateVariableIndices` and symbolic bound propagation are left out: their bodies are not part of this model.
- The reverse maps from variables to neurons are left out: they are only read by those operations.
- `getIndexToWeightedSumAssignment` / `getIndexToActivationResultAssignment` are returned by `Evaluate` as maps instead of being kept as state.
- Freeing memory, the work buffers, `dumpTopology` and logging are left out: they have no observable effect on the results.
- The Apron-based abstract-domain bound tightener and `dummy` are left out: they wrap an external library. Only its weight-indexing convention is used.
- The CEGAR solver loop and the graph translator are left out: they drive external components whose sources are not part of this model.
- BoundPropagation.ObtainCurrentBounds: reads only the input neurons' current bounds, whereas the header says the bounds of all variables are obtained. The hidden and output neurons' tableau bounds are neither read nor intersected with the propagated intervals, because the code that would do so is not part of this model.
- BoundPropagation.GetConstraintTightenings: reports the propagated interval of every non-input neuron. It does not intersect them with the tableau's other current bounds or drop bounds that are not tighter. When a bound counts as a tightening relative to the tableau is decided in code not part of this model. The test fixture, whose other tableau bounds are ±1000, is unaffected.
- ReluConstraint.Satisfied: the iff with the ReLU relation is stated only for `f >= 0`. The source merely asserts that `f` is non-negative. For `f < 0` the model returns what the code's branches return.
- ReluConstraint.GetPossibleFixes: its assertions become preconditions. Both values are present, `f >= 0`, and the constraint is violated.
- NetworkLevelReasoner.Evaluate: requires at least an input and an output layer, and allocated weight tables. The behaviour on a network with fewer layers is not defined here.
- NetworkLevelReasoner.GetWeightedSumVariable: the header declares only the signature (`src/engine/NetworkLevelReasoner.h:66`), so what the source does for a neuron that was never mapped is not shown. The model returns `None` for it.
- NetworkLevelReasoner.GetActivationResultVariable: likewise only declared (`src/engine/NetworkLevelReasoner.h:68`). The model returns `None` for a neuron that was never mapped.
