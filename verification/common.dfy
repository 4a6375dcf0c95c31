/**
 Small shared vocabulary: the optional-value and result wrappers used for the
 engine's error paths, and the piecewise-linear real functions that both the
 ReLU constraint and the network reasoner are built on.

 Numbers are exact reals: the engine's epsilon comparisons (`isPositive`,
 `isNegative`, `areEqual`) become `> 0`, `< 0` and `==`.
 */
module Common {

  datatype Option<+T> = None | Some(value: T)

  /** The value of an operation that may throw one of the engine's errors. */
  datatype Result<+T, +E> = Success(value: T) | Failure(error: E)

  /** max(0, x): the rectified linear unit. */
  function Relu(x: real): (r: real)
    ensures r >= 0.0 && r >= x
    ensures r == x || r == 0.0
  {
    if x > 0.0 then x else 0.0
  }

  /** The positive part of a weight, as kept in the reasoner's positive-weight table. */
  function PositivePart(w: real): (r: real)
    ensures r >= 0.0
  {
    if w > 0.0 then w else 0.0
  }

  /** The negative part of a weight, as kept in the reasoner's negative-weight table. */
  function NegativePart(w: real): (r: real)
    ensures r <= 0.0
  {
    if w < 0.0 then w else 0.0
  }

  /** ReLU is monotone, which is what lets interval bounds pass through it. */
  lemma ReluMonotone(x: real, y: real)
    requires x <= y
    ensures Relu(x) <= Relu(y)
  {
  }
}
