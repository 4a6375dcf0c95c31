/**
 The linear building blocks a piecewise-linear case split is made of: bound
 tightenings (`Tightening`), linear equations (`Equation`) and the case split
 that bundles them (`PiecewiseLinearCaseSplit`), together with what it means
 for an assignment of reals to variables to satisfy each of them.
 */
module CaseSplit {

  import opened Common

  /** An assignment of values to (some) variables. */
  type Assignment = map<nat, real>

  datatype BoundType = LB | UB

  /** `variable >= value` (LB) or `variable <= value` (UB). */
  datatype Tightening = Tightening(variable: nat, value: real, kind: BoundType)

  datatype Addend = Addend(coefficient: real, variable: nat)

  /** sum of coefficient * variable over the addends, equal to `scalar`. */
  datatype Equation = Equation(addends: seq<Addend>, scalar: real, auxVariable: Option<nat>)

  datatype PiecewiseLinearCaseSplit =
    PiecewiseLinearCaseSplit(bounds: seq<Tightening>, equations: seq<Equation>)

  predicate TighteningHolds(t: Tightening, a: Assignment)
  {
    && t.variable in a
    && match t.kind
       case LB => a[t.variable] >= t.value
       case UB => a[t.variable] <= t.value
  }

  predicate Mentions(addends: seq<Addend>, a: Assignment)
  {
    forall k :: 0 <= k < |addends| ==> addends[k].variable in a
  }

  /** The left-hand side of an equation under an assignment, summed left to right. */
  function Evaluate(addends: seq<Addend>, a: Assignment): real
    requires Mentions(addends, a)
  {
    if |addends| == 0 then 0.0
    else
      var last := addends[|addends| - 1];
      Evaluate(addends[..|addends| - 1], a) + last.coefficient * a[last.variable]
  }

  lemma EvaluatePair(x: Addend, y: Addend, a: Assignment)
    requires x.variable in a && y.variable in a
    ensures Mentions([x, y], a)
    ensures Evaluate([x, y], a) == x.coefficient * a[x.variable] + y.coefficient * a[y.variable]
  {
    assert [x, y][..1] == [x];
    assert [x][..0] == [];
    assert Evaluate([x], a) == Evaluate([], a) + x.coefficient * a[x.variable];
    assert Evaluate([x, y], a) == Evaluate([x], a) + y.coefficient * a[y.variable];
  }

  lemma EvaluateTriple(x: Addend, y: Addend, z: Addend, a: Assignment)
    requires x.variable in a && y.variable in a && z.variable in a
    ensures Mentions([x, y, z], a)
    ensures Evaluate([x, y, z], a)
            == x.coefficient * a[x.variable] + y.coefficient * a[y.variable] + z.coefficient * a[z.variable]
  {
    assert [x, y, z][..2] == [x, y];
    EvaluatePair(x, y, a);
  }

  predicate EquationHolds(e: Equation, a: Assignment)
  {
    Mentions(e.addends, a) && Evaluate(e.addends, a) == e.scalar
  }

  predicate SplitHolds(s: PiecewiseLinearCaseSplit, a: Assignment)
  {
    && (forall k :: 0 <= k < |s.bounds| ==> TighteningHolds(s.bounds[k], a))
    && (forall k :: 0 <= k < |s.equations| ==> EquationHolds(s.equations[k], a))
  }
}
