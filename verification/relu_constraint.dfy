/**
 The ReLU piecewise-linear constraint f = max(0, b) between an input
 variable `b` and an output variable `f`, as a small immutable state machine:
 every operation of the engine's constraint object becomes a function from
 the old state to a new state (or to the value it returns).

 The engine's global fresh-variable counter is replaced by an explicit
 `aux` argument: the caller supplies the auxiliary variable of the case
 splits, and the lemmas ask of it only what freshness guarantees (it is
 neither `b` nor `f`).
 */
module ReluConstraint {

  import opened Common
  import opened CaseSplit
  import opened PiecewiseLinearConstraint

  datatype PhaseStatus = PhaseNotFixed | PhaseActive | PhaseInactive

  datatype ReluplexError =
    | ParticipatingVariablesAbsent
    | RequestedCaseSplitsFromFixedConstraint

  /** The constraint-specific part of a saved state. */
  datatype ReluStateData = ReluStateData(constraintActive: bool, assignment: Assignment, phaseStatus: PhaseStatus)

  datatype Constraint = Constraint(
    b: nat,
    f: nat,
    constraintActive: bool,
    phaseStatus: PhaseStatus,
    assignment: Assignment,
    splits: seq<PiecewiseLinearCaseSplit>)

  /** An assignment of `b` and `f` that lies on the ReLU graph. */
  ghost predicate ReluPoint(c: Constraint, a: Assignment)
  {
    c.b in a && c.f in a && a[c.f] == Relu(a[c.b])
  }

  // ---------------------------------------------------------------- lifecycle

  /** A new constraint is switched on, has no fixed phase, and knows no values yet. */
  function Create(b: nat, f: nat): (r: Constraint)
    ensures r.b == b && r.f == f
    ensures IsActive(r) && !PhaseFixed(r)
    ensures |r.assignment| == 0 && |r.splits| == 0
  {
    Constraint(b, f, true, PhaseNotFixed, map[], [])
  }

  function SetActiveConstraint(c: Constraint, active: bool): (r: Constraint)
    ensures IsActive(r) == active
    ensures r.(constraintActive := c.constraintActive) == c
  {
    c.(constraintActive := active)
  }

  predicate IsActive(c: Constraint)
  {
    c.constraintActive
  }

  // ---------------------------------------------------- watcher notifications

  /** The tableau reports the current value of a watched variable. */
  function NotifyVariableValue(c: Constraint, variable: nat, value: real): (r: Constraint)
    ensures variable in r.assignment && r.assignment[variable] == value
    ensures r.assignment.Keys == c.assignment.Keys + {variable}
    ensures forall v :: v in c.assignment && v != variable ==> r.assignment[v] == c.assignment[v]
    ensures r.(assignment := c.assignment) == c
  {
    c.(assignment := c.assignment[variable := value])
  }

  /** The tableau reports a new lower bound; it may fix the phase to active. */
  function NotifyLowerBound(c: Constraint, variable: nat, bound: real): (r: Constraint)
    ensures r.(phaseStatus := c.phaseStatus) == c
    ensures r.phaseStatus == c.phaseStatus || r.phaseStatus == PhaseActive
  {
    if variable == c.f && bound > 0.0 then c.(phaseStatus := PhaseActive)
    else if variable == c.b && !(bound < 0.0) then c.(phaseStatus := PhaseActive)
    else c
  }

  /** The tableau reports a new upper bound; it may fix the phase to inactive. */
  function NotifyUpperBound(c: Constraint, variable: nat, bound: real): (r: Constraint)
    ensures r.(phaseStatus := c.phaseStatus) == c
    ensures r.phaseStatus == c.phaseStatus || r.phaseStatus == PhaseInactive
  {
    if (variable == c.f || variable == c.b) && !(bound > 0.0) then c.(phaseStatus := PhaseInactive)
    else c
  }

  /** Every ReLU point whose `variable` is at least `bound` is in the active phase (b >= 0). */
  ghost predicate LowerBoundForcesActive(c: Constraint, variable: nat, bound: real)
  {
    forall a :: ReluPoint(c, a) && variable in a && a[variable] >= bound ==> a[c.b] >= 0.0
  }

  /** Every ReLU point whose `variable` is at most `bound` is in the inactive phase (b <= 0). */
  ghost predicate UpperBoundForcesInactive(c: Constraint, variable: nat, bound: real)
  {
    forall a :: ReluPoint(c, a) && variable in a && a[variable] <= bound ==> a[c.b] <= 0.0
  }

  /**
   A lower-bound notification fixes the phase to active exactly when the
   bound rules out the inactive side of the ReLU: it never fixes a phase
   the bound does not force, and never misses one it does.
   */
  lemma NotifyLowerBoundIsExact(c: Constraint, variable: nat, bound: real)
    requires c.b != c.f
    ensures NotifyLowerBound(c, variable, bound).phaseStatus
            == if LowerBoundForcesActive(c, variable, bound) then PhaseActive else c.phaseStatus
  {
    if (variable == c.f && bound > 0.0) || (variable == c.b && bound >= 0.0) {
      forall a | ReluPoint(c, a) && variable in a && a[variable] >= bound
        ensures a[c.b] >= 0.0
      {
      }
    } else {
      var a: Assignment;
      if variable == c.f {
        a := map[c.b := -1.0, c.f := 0.0];
      } else if variable == c.b {
        a := map[c.b := bound, c.f := 0.0];
      } else {
        a := map[c.b := -1.0, c.f := 0.0, variable := bound];
      }
      assert ReluPoint(c, a) && variable in a && a[variable] >= bound && a[c.b] < 0.0;
    }
  }

  /**
   An upper-bound notification fixes the phase to inactive exactly when the
   bound rules out the active side of the ReLU.
   */
  lemma NotifyUpperBoundIsExact(c: Constraint, variable: nat, bound: real)
    requires c.b != c.f
    ensures NotifyUpperBound(c, variable, bound).phaseStatus
            == if UpperBoundForcesInactive(c, variable, bound) then PhaseInactive else c.phaseStatus
  {
    if (variable == c.f || variable == c.b) && bound <= 0.0 {
      forall a | ReluPoint(c, a) && variable in a && a[variable] <= bound
        ensures a[c.b] <= 0.0
      {
      }
    } else {
      var a: Assignment;
      if variable == c.f || variable == c.b {
        a := map[c.b := bound, c.f := bound];
      } else {
        a := map[c.b := 1.0, c.f := 1.0, variable := bound];
      }
      assert ReluPoint(c, a) && variable in a && a[variable] <= bound && a[c.b] > 0.0;
    }
  }

  // ------------------------------------------------------------- participation

  predicate ParticipatingVariable(c: Constraint, variable: nat)
  {
    variable == c.b || variable == c.f
  }

  function GetParticipatingVariables(c: Constraint): seq<nat>
  {
    [c.b, c.f]
  }

  /** The participation test and the participating list agree, and the list is `b` then `f`. */
  lemma ParticipatingVariablesAgree(c: Constraint, variable: nat)
    ensures ParticipatingVariable(c, variable) <==> variable in GetParticipatingVariables(c)
    ensures |GetParticipatingVariables(c)| == 2
    ensures GetParticipatingVariables(c)[0] == c.b && GetParticipatingVariables(c)[1] == c.f
  {
  }

  // -------------------------------------------------------- satisfaction, fixes

  /**
   Whether the current assignment satisfies f = max(0, b). Fails when
   either participating variable has no value. The engine only ever asks
   with f non-negative; for such assignments the answer is exactly the ReLU
   relation.
   */
  function Satisfied(c: Constraint): (r: Result<bool, ReluplexError>)
    ensures r.Failure? <==> !(c.b in c.assignment && c.f in c.assignment)
    ensures r.Failure? ==> r.error == ParticipatingVariablesAbsent
    ensures r.Success? && c.assignment[c.f] >= 0.0 ==>
              (r.value <==> c.assignment[c.f] == Relu(c.assignment[c.b]))
  {
    if !(c.b in c.assignment && c.f in c.assignment) then Failure(ParticipatingVariablesAbsent)
    else
      var bValue := c.assignment[c.b];
      var fValue := c.assignment[c.f];
      if fValue > 0.0 then Success(bValue == fValue)
      else Success(!(bValue > 0.0))
  }

  /** Reporting values for `b` and then `f` makes `Satisfied` decide the ReLU relation on them. */
  lemma SatisfiedAfterNotify(c: Constraint, bValue: real, fValue: real)
    requires c.b != c.f
    requires fValue >= 0.0
    ensures Satisfied(NotifyVariableValue(NotifyVariableValue(c, c.b, bValue), c.f, fValue))
            == Success(fValue == Relu(bValue))
  {
  }

  /**
   The two repairs of a violated constraint: one changes `b`, the other
   changes `f`, and either one alone makes f = max(0, b) hold, so the
   constraint is satisfied.
   */
  function GetPossibleFixes(c: Constraint): (r: seq<Fix>)
    requires c.b in c.assignment && c.f in c.assignment
    requires c.assignment[c.f] >= 0.0
    requires Satisfied(c) == Success(false)
    ensures |r| == 2
    ensures r[0].variable == c.b && r[1].variable == c.f
    ensures forall k :: 0 <= k < |r| ==>
              Satisfied(c.(assignment := ApplyFix(c.assignment, r[k]))) == Success(true)
    ensures forall k :: 0 <= k < |r| ==>
              var a := ApplyFix(c.assignment, r[k]);
              a[c.f] >= 0.0 && a[c.f] == Relu(a[c.b])
  {
    var bValue := c.assignment[c.b];
    var fValue := c.assignment[c.f];
    if fValue > 0.0 then
      if bValue > 0.0 then [Fix(c.b, fValue), Fix(c.f, bValue)]
      else [Fix(c.b, fValue), Fix(c.f, 0.0)]
    else [Fix(c.b, 0.0), Fix(c.f, bValue)]
  }

  // ---------------------------------------------------------------- case splits

  /** Active phase: b >= 0 and b - f + aux = 0 with aux pinned to 0. */
  function GetActiveSplit(c: Constraint, aux: nat): PiecewiseLinearCaseSplit
  {
    PiecewiseLinearCaseSplit(
      [Tightening(c.b, 0.0, LB), Tightening(aux, 0.0, UB), Tightening(aux, 0.0, LB)],
      [Equation([Addend(1.0, c.b), Addend(-1.0, c.f), Addend(1.0, aux)], 0.0, Some(aux))])
  }

  /** Inactive phase: b <= 0 and f + aux = 0 with aux pinned to 0. */
  function GetInactiveSplit(c: Constraint, aux: nat): PiecewiseLinearCaseSplit
  {
    PiecewiseLinearCaseSplit(
      [Tightening(c.b, 0.0, UB), Tightening(aux, 0.0, UB), Tightening(aux, 0.0, LB)],
      [Equation([Addend(1.0, c.f), Addend(1.0, aux)], 0.0, Some(aux))])
  }

  /** The active split holds exactly on the points with b = f >= 0 and aux = 0. */
  lemma ActiveSplitMeaning(c: Constraint, aux: nat, a: Assignment)
    requires aux != c.b && aux != c.f
    ensures SplitHolds(GetActiveSplit(c, aux), a) <==>
            (c.b in a && c.f in a && aux in a && a[c.b] >= 0.0 && a[c.f] == a[c.b] && a[aux] == 0.0)
  {
    var s := GetActiveSplit(c, aux);
    var e := s.equations[0];
    if c.b in a && c.f in a && aux in a {
      EvaluateTriple(Addend(1.0, c.b), Addend(-1.0, c.f), Addend(1.0, aux), a);
      assert EquationHolds(e, a) <==> a[c.b] - a[c.f] + a[aux] == 0.0;
      if a[c.b] >= 0.0 && a[c.f] == a[c.b] && a[aux] == 0.0 {
        assert forall k :: 0 <= k < |s.bounds| ==> TighteningHolds(s.bounds[k], a);
        assert EquationHolds(e, a);
      }
    }
    if SplitHolds(s, a) {
      assert TighteningHolds(s.bounds[0], a) && TighteningHolds(s.bounds[1], a);
      assert TighteningHolds(s.bounds[2], a) && EquationHolds(e, a);
      assert e.addends[1].variable in a;
    }
  }

  /** The inactive split holds exactly on the points with b <= 0, f = 0 and aux = 0. */
  lemma InactiveSplitMeaning(c: Constraint, aux: nat, a: Assignment)
    requires aux != c.b && aux != c.f
    ensures SplitHolds(GetInactiveSplit(c, aux), a) <==>
            (c.b in a && c.f in a && aux in a && a[c.b] <= 0.0 && a[c.f] == 0.0 && a[aux] == 0.0)
  {
    if c.b in a && c.f in a && aux in a && a[c.b] <= 0.0 && a[c.f] == 0.0 && a[aux] == 0.0 {
      InactivePointSatisfiesSplit(c, aux, a);
    }
    if SplitHolds(GetInactiveSplit(c, aux), a) {
      InactiveSplitForcesPoint(c, aux, a);
    }
  }

  lemma InactivePointSatisfiesSplit(c: Constraint, aux: nat, a: Assignment)
    requires c.b in a && c.f in a && aux in a && a[c.b] <= 0.0 && a[c.f] == 0.0 && a[aux] == 0.0
    ensures SplitHolds(GetInactiveSplit(c, aux), a)
  {
    var s := GetInactiveSplit(c, aux);
    assert s.bounds == [Tightening(c.b, 0.0, UB), Tightening(aux, 0.0, UB), Tightening(aux, 0.0, LB)];
    assert forall k :: 0 <= k < |s.bounds| ==> TighteningHolds(s.bounds[k], a);
    EvaluatePair(Addend(1.0, c.f), Addend(1.0, aux), a);
    assert EquationHolds(s.equations[0], a);
  }

  lemma InactiveSplitForcesPoint(c: Constraint, aux: nat, a: Assignment)
    requires aux != c.b && aux != c.f
    requires SplitHolds(GetInactiveSplit(c, aux), a)
    ensures c.b in a && c.f in a && aux in a && a[c.b] <= 0.0 && a[c.f] == 0.0 && a[aux] == 0.0
  {
    var s := GetInactiveSplit(c, aux);
    var e := s.equations[0];
    assert s.bounds == [Tightening(c.b, 0.0, UB), Tightening(aux, 0.0, UB), Tightening(aux, 0.0, LB)];
    assert TighteningHolds(s.bounds[0], a) && TighteningHolds(s.bounds[1], a) && TighteningHolds(s.bounds[2], a);
    assert EquationHolds(e, a);
    assert e.addends[0].variable in a;
    EvaluatePair(Addend(1.0, c.f), Addend(1.0, aux), a);
    assert a[c.f] + a[aux] == 0.0;
  }

  predicate PhaseFixed(c: Constraint)
  {
    c.phaseStatus != PhaseNotFixed
  }

  /**
   The case splits of a constraint whose phase is not yet fixed: the active
   split then the inactive split, sharing the auxiliary variable `aux`.
   Asking a constraint with a fixed phase is an error.
   */
  function GetCaseSplits(c: Constraint, aux: nat): (r: Result<seq<PiecewiseLinearCaseSplit>, ReluplexError>)
    ensures r.Failure? <==> PhaseFixed(c)
    ensures r.Failure? ==> r.error == RequestedCaseSplitsFromFixedConstraint
    ensures r.Success? ==> |r.value| == 2
  {
    if c.phaseStatus != PhaseNotFixed then Failure(RequestedCaseSplitsFromFixedConstraint)
    else Success([GetActiveSplit(c, aux), GetInactiveSplit(c, aux)])
  }

  /**
   Together the two case splits describe exactly the ReLU relation: an
   assignment satisfies one of them iff f = max(0, b) and aux = 0.
   */
  lemma CaseSplitsDescribeRelu(c: Constraint, aux: nat, a: Assignment)
    requires !PhaseFixed(c)
    requires aux != c.b && aux != c.f
    requires c.b in a && c.f in a && aux in a
    ensures var splits := GetCaseSplits(c, aux).value;
            SplitHolds(splits[0], a) || SplitHolds(splits[1], a)
            <==> a[aux] == 0.0 && a[c.f] == Relu(a[c.b])
  {
    ActiveSplitMeaning(c, aux, a);
    InactiveSplitMeaning(c, aux, a);
  }

  /**
   The case splits are complementary, as the constraint interface demands:
   on every ReLU point (with the auxiliary variable at 0), violating the
   active split implies the inactive split.
   */
  lemma CaseSplitsComplementary(c: Constraint, aux: nat, a: Assignment)
    requires !PhaseFixed(c)
    requires aux != c.b && aux != c.f
    requires ReluPoint(c, a)
    ensures Complementary(GetCaseSplits(c, aux).value, a[aux := 0.0])
  {
    var a' := a[aux := 0.0];
    assert a'[c.b] == a[c.b] && a'[c.f] == a[c.f];
    CaseSplitsDescribeRelu(c, aux, a');
  }

  /**
   The split that is valid once the phase is fixed: the active split for
   an active phase, the inactive one otherwise. It is always one of the
   two case splits the unfixed constraint would offer.
   */
  function GetValidCaseSplit(c: Constraint, aux: nat): (r: PiecewiseLinearCaseSplit)
    requires PhaseFixed(c)
    ensures r in GetCaseSplits(c.(phaseStatus := PhaseNotFixed), aux).value
    ensures c.phaseStatus == PhaseActive ==> r == GetCaseSplits(c.(phaseStatus := PhaseNotFixed), aux).value[0]
    ensures c.phaseStatus == PhaseInactive ==> r == GetCaseSplits(c.(phaseStatus := PhaseNotFixed), aux).value[1]
  {
    if c.phaseStatus == PhaseActive then GetActiveSplit(c, aux)
    else GetInactiveSplit(c, aux)
  }

  /**
   The valid split is sound: every ReLU point on the side of the fixed
   phase (b >= 0 when active, b <= 0 when inactive), with the auxiliary
   variable at 0, satisfies it.
   */
  lemma ValidCaseSplitSound(c: Constraint, aux: nat, a: Assignment)
    requires PhaseFixed(c)
    requires aux != c.b && aux != c.f
    requires ReluPoint(c, a)
    requires c.phaseStatus == PhaseActive ==> a[c.b] >= 0.0
    requires c.phaseStatus == PhaseInactive ==> a[c.b] <= 0.0
    ensures SplitHolds(GetValidCaseSplit(c, aux), a[aux := 0.0])
  {
    var a' := a[aux := 0.0];
    assert a'[c.b] == a[c.b] && a'[c.f] == a[c.f];
    ActiveSplitMeaning(c, aux, a');
    InactiveSplitMeaning(c, aux, a');
  }

  // ------------------------------------------------------------ store, restore

  /** Save the enqueued splits and the constraint-specific data. */
  function StoreState(c: Constraint): (r: ConstraintState<ReluStateData>)
    ensures r.splits == c.splits
    ensures r.stateData.Some?
  {
    ConstraintState(c.splits, Some(ReluStateData(c.constraintActive, c.assignment, c.phaseStatus)))
  }

  /**
   Bring back a saved state. The participating variables are not part of
   the state and stay those of `c`; everything saved comes back, so storing
   the result gives the saved state again.
   */
  function RestoreState(c: Constraint, state: ConstraintState<ReluStateData>): (r: Constraint)
    requires state.stateData.Some?
    ensures r.b == c.b && r.f == c.f
    ensures StoreState(r) == state
  {
    var data := state.stateData.value;
    c.(splits := state.splits,
       constraintActive := data.constraintActive,
       assignment := data.assignment,
       phaseStatus := data.phaseStatus)
  }

  /** Restoring a stored state undoes every change made since it was stored. */
  lemma RestoreUndoesChanges(c: Constraint, later: Constraint)
    requires later.b == c.b && later.f == c.f
    ensures RestoreState(later, StoreState(c)) == c
  {
  }
}
