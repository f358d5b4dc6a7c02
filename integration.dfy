/** The fixed-step charge integration shared by the three simulators: starting
    from a charge q0 at t = 0, each step draws current(t) for dt seconds,
    subtracting current(t) * dt / 3600 mAh, and the loop goes on while t is
    within its time bound and the charge is positive. */
module Integration {

  /** The loop's time test: t < limit, or t <= limit. */
  datatype TimeBound = Below(limit: int) | AtMost(limit: int)

  predicate InBound(b: TimeBound, t: int)
  {
    match b
    case Below(l) => t < l
    case AtMost(l) => t <= l
  }

  /** The last whole second the time test admits. */
  function LastAdmitted(b: TimeBound): (r: int)
    ensures forall t :: InBound(b, t) <==> t <= r
  {
    match b
    case Below(l) => l - 1
    case AtMost(l) => l
  }

  /** The charge drawn by step j, which starts at t = j * dt. */
  function StepDrain(current: int -> real, dt: nat, j: nat): real
  {
    current(j * dt) * (dt as real / 3600.0)
  }

  /** The charge after n steps. */
  function Charge(current: int -> real, q0: real, dt: nat, n: nat): real
  {
    if n == 0 then q0 else Charge(current, q0, dt, n - 1) - StepDrain(current, dt, n - 1)
  }

  /** One more step subtracts the current at its start times dt / 3600. */
  lemma ChargeNext(current: int -> real, q0: real, dt: nat, n: nat)
    ensures Charge(current, q0, dt, n + 1) == Charge(current, q0, dt, n) - current(n * dt) * (dt as real / 3600.0)
  {
  }

  /** The loop test before step n. */
  predicate Continues(current: int -> real, q0: real, dt: nat, b: TimeBound, n: nat)
  {
    InBound(b, n * dt) && Charge(current, q0, dt, n) > 0.0
  }

  /** The number of steps a loop that is at step n still takes: the first step
      from n on at which the loop test fails. It exists because the time
      test fails once n * dt is past the bound. */
  function StopStep(current: int -> real, q0: real, dt: nat, b: TimeBound, n: nat): (k: nat)
    requires dt > 0
    ensures n <= k
    ensures !Continues(current, q0, dt, b, k)
    ensures forall j :: n <= j < k ==> Continues(current, q0, dt, b, j)
    decreases LastAdmitted(b) + 1 - n * dt
  {
    if Continues(current, q0, dt, b, n) then StopStep(current, q0, dt, b, n + 1) else n
  }

  /** A loop that passes its test at every step from n up to k and fails it at
      k stops exactly at k. */
  lemma {:induction false} StopStepUnique(current: int -> real, q0: real, dt: nat, b: TimeBound, n: nat, k: nat)
    requires dt > 0 && n <= k
    requires forall j :: n <= j < k ==> Continues(current, q0, dt, b, j)
    requires !Continues(current, q0, dt, b, k)
    ensures StopStep(current, q0, dt, b, n) == k
    decreases k - n
  {
    if n < k {
      assert Continues(current, q0, dt, b, n);
      StopStepUnique(current, q0, dt, b, n + 1, k);
    }
  }

  /** The loop stops at the first failing test: every step it takes passed
      the time test, and it takes at least one step when it starts within the
      bound with positive charge. */
  lemma StopStepBounds(current: int -> real, q0: real, dt: nat, b: TimeBound)
    requires dt > 0
    ensures var k := StopStep(current, q0, dt, b, 0);
            (k > 0 ==> InBound(b, (k - 1) * dt) && Charge(current, q0, dt, k - 1) > 0.0) &&
            (InBound(b, 0) && q0 > 0.0 ==> k > 0) &&
            (!InBound(b, k * dt) || Charge(current, q0, dt, k) <= 0.0)
  {
    var k := StopStep(current, q0, dt, b, 0);
    if k > 0 {
      assert Continues(current, q0, dt, b, k - 1);
    }
  }

  /** With non-negative currents the charge never increases. */
  lemma {:induction false} ChargeNonIncreasing(current: int -> real, q0: real, dt: nat, m: nat, n: nat)
    requires forall t :: current(t) >= 0.0
    requires m <= n
    ensures Charge(current, q0, dt, n) <= Charge(current, q0, dt, m)
    decreases n
  {
    if m < n {
      ChargeNonIncreasing(current, q0, dt, m, n - 1);
      var c := current((n - 1) * dt);
      assert c >= 0.0;
      assert c * (dt as real / 3600.0) >= 0.0;
    }
  }

  /** Under a constant current the charge after n steps is q0 - n * i * dt / 3600. */
  lemma {:induction false} ChargeConstant(current: int -> real, i: real, q0: real, dt: nat, n: nat)
    requires forall t :: current(t) == i
    ensures Charge(current, q0, dt, n) == q0 - (n as real) * i * (dt as real / 3600.0)
  {
    if n > 0 {
      ChargeConstant(current, i, q0, dt, n - 1);
      assert StepDrain(current, dt, n - 1) == i * (dt as real / 3600.0);
      assert ((n - 1) as real) * i * (dt as real / 3600.0) + i * (dt as real / 3600.0)
             == (n as real) * i * (dt as real / 3600.0);
    }
  }
}
