/** Shared vocabulary of the simulator model: error results, small real helpers,
    and the abstraction of the exponential function. */
module Common {

  /** A dictionary lookup with a missing key raises KeyError in the simulator. */
  datatype Error = KeyError(key: string)

  datatype Result<T> = Ok(value: T) | Err(error: Error)

  datatype Option<T> = None | Some(value: T)

  /** Strictly positive reals: used for voltages and battery capacities,
      which the simulator divides by. */
  type PosReal = r: real | r > 0.0 witness 1.0

  function Abs(x: real): real
  {
    if x < 0.0 then -x else x
  }

  function Max(x: real, y: real): real
  {
    if x < y then y else x
  }

  function Min(x: real, y: real): real
  {
    if x < y then x else y
  }

  /** The exponential function is not modelled; every formula that uses np.exp
      takes a function `exp` that satisfies this hypothesis instead: exp is
      strictly positive and strictly increasing. */
  ghost predicate ExpLike(exp: real -> real)
  {
    (forall x :: exp(x) > 0.0) &&
    (forall x, y :: x < y ==> exp(x) < exp(y))
  }

  lemma ExpPositive(exp: real -> real, x: real)
    requires ExpLike(exp)
    ensures exp(x) > 0.0
  {
  }

  lemma ExpMonotone(exp: real -> real, x: real, y: real)
    requires ExpLike(exp) && x < y
    ensures exp(x) < exp(y)
  {
  }

  /** x lies between a and b, in either order. */
  predicate Between(x: real, a: real, b: real)
  {
    Min(a, b) <= x <= Max(a, b)
  }

  /** idle + duty * (tx - idle) lies between idle and tx for a duty cycle in [0, 1]. */
  lemma DutyBetween(idle: real, tx: real, duty: real)
    ensures 0.0 <= duty <= 1.0 ==> Between(idle + duty * (tx - idle), idle, tx)
  {
    if duty < 0.0 || duty > 1.0 {
    } else if idle <= tx {
      MulNonNeg(tx - idle, duty);
      MulNonNeg(tx - idle, 1.0 - duty);
    } else {
      MulNonNeg(idle - tx, duty);
      MulNonNeg(idle - tx, 1.0 - duty);
    }
  }

  // Small facts about real multiplication and division that the solver does
  // not find on its own.

  lemma MulNonNeg(a: real, b: real)
    requires a >= 0.0 && b >= 0.0
    ensures a * b >= 0.0
  {
  }

  lemma MulPos(a: real, b: real)
    requires a > 0.0 && b > 0.0
    ensures a * b > 0.0
  {
  }

  /** Multiplying by a non-negative factor preserves <=. */
  lemma MulMonotone(c: real, a: real, b: real)
    requires a <= b && c >= 0.0
    ensures c * a <= c * b
  {
    MulNonNeg(b - a, c);
  }

  /** Multiplying by a positive factor preserves <. */
  lemma MulStrictMonotone(c: real, a: real, b: real)
    requires a < b && c > 0.0
    ensures c * a < c * b
  {
    MulPos(b - a, c);
  }

  /** A positive factor keeps the sign of the other. */
  lemma MulPosSign(d: real, c: real)
    requires c > 0.0
    ensures d < 0.0 ==> d * c < 0.0
    ensures d > 0.0 ==> d * c > 0.0
  {
    if d < 0.0 {
      MulPos(-d, c);
    }
    if d > 0.0 {
      MulPos(d, c);
    }
  }

  /** Dividing by a positive number preserves <=. */
  lemma DivMonotone(a: real, b: real, c: real)
    requires a <= b && c > 0.0
    ensures a / c <= b / c
  {
    var d := b / c - a / c;
    assert d * c == b - a;
    MulPosSign(d, c);
  }

  lemma DivAntitone(k: real, e1: real, e2: real)
    requires k > 0.0 && 0.0 < e1 < e2
    ensures k / e2 < k / e1
  {
    var q1, q2 := k / e1, k / e2;
    assert q1 * e1 == k;
    assert q2 * e2 == k;
    MulPos(k, e1);
    assert q2 > 0.0;
    MulPos(q2, e2 - e1);
    if q2 >= q1 {
      MulNonNeg(q2 - q1, e1);
    }
  }
}
