/**
 What every piecewise-linear constraint shares: the `Fix` record proposing a
 repair of a violated constraint, the saved state used for backtracking, and
 the two obligations the abstract constraint interface places on a concrete
 constraint (complementary case splits, valid split only once the phase is
 fixed). Dafny has no room for the abstract class here, so the interface is
 this module of records and predicates, and the ReLU constraint proves it
 meets them.
 */
module PiecewiseLinearConstraint {

  import opened Common
  import opened CaseSplit

  /** A possible fix for a violated constraint: give `variable` the value `value`. */
  datatype Fix = Fix(variable: nat, value: real)

  /** The assignment after a fix is applied: only the fixed variable changes. */
  function ApplyFix(a: Assignment, fix: Fix): (r: Assignment)
    ensures fix.variable in r && r[fix.variable] == fix.value
    ensures r.Keys == a.Keys + {fix.variable}
    ensures forall v :: v in a && v != fix.variable ==> r[v] == a[v]
  {
    a[fix.variable := fix.value]
  }

  /**
   A saved constraint state: the enqueued case splits plus whatever data
   the concrete constraint wants to keep (absent until a constraint stores it).
   */
  datatype ConstraintState<D> = ConstraintState(splits: seq<PiecewiseLinearCaseSplit>, stateData: Option<D>)

  /** A freshly constructed state holds no splits and no constraint-specific data. */
  function NewConstraintState<D>(): (r: ConstraintState<D>)
    ensures r.stateData.None?
    ensures |r.splits| == 0
  {
    ConstraintState([], None)
  }

  /**
   The splits {l1, ..., ln} are complementary at `a`: if `a` violates
   l1 .. ln-1 then it satisfies ln.
   */
  predicate Complementary(splits: seq<PiecewiseLinearCaseSplit>, a: Assignment)
  {
    && |splits| > 0
    && ((forall k :: 0 <= k < |splits| - 1 ==> !SplitHolds(splits[k], a))
        ==> SplitHolds(splits[|splits| - 1], a))
  }
}
