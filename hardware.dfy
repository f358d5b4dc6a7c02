/** The hardware models the three simulators build in their constructors,
    and the per-subsystem contribution rule they share. Processor, Memory,
    Storage and Sensors are imported by the simulators but defined nowhere in
    core_model.py, so their currents are functions supplied with the phone. */
module Hardware {
  import opened Common
  import opened CoreModel

  /** processor(f_cpu, mu_cpu, f_gpu, mu_gpu), memory(bw_r, bw_w),
      storage(is_active) and sensors(gps_mode) are the four missing models;
      exp stands for np.exp inside Cellular.I; capacity is Q_total in mAh. */
  datatype Phone = Phone(display: Display,
                         processor: (real, real, real, real) -> real,
                         memory: (real, real) -> real,
                         storage: bool -> real,
                         sensors: string -> real,
                         cellular: Cellular,
                         exp: real -> real,
                         capacity: PosReal)

  /** A physically sensible phone: every subsystem draws a non-negative
      current, and exp behaves like the exponential. */
  ghost predicate ValidPhone(ph: Phone)
  {
    ph.display.currentBase >= 0.0 && ph.display.kBright >= 0.0 &&
    ExpLike(ph.exp) && CellularNonNegative(ph.cellular) &&
    (forall f, l, g, m :: ph.processor(f, l, g, m) >= 0.0) &&
    (forall r, w :: ph.memory(r, w) >= 0.0) &&
    (forall a :: ph.storage(a) >= 0.0) &&
    (forall mode :: ph.sensors(mode) >= 0.0)
  }

  /** One subsystem's share of the total: current * activity * eta when the
      activity is positive, nothing otherwise. A non-negative current with a
      non-negative efficiency factor never contributes a negative amount. */
  function Term(current: real, activity: real, eta: real): (r: real)
    ensures activity <= 0.0 ==> r == 0.0
    ensures current >= 0.0 && eta >= 0.0 ==> r >= 0.0
  {
    if activity > 0.0 then
      assert current >= 0.0 && eta >= 0.0 ==> current * activity * eta >= 0.0 by {
        if current >= 0.0 && eta >= 0.0 {
          MulNonNeg(current, activity);
          MulNonNeg(current * activity, eta);
        }
      }
      current * activity * eta
    else 0.0
  }

  /** A subsystem's share is its activity times current * eta. */
  lemma TermScaled(current: real, activity: real, eta: real)
    requires activity > 0.0
    ensures Term(current, activity, eta) == (current * eta) * activity
  {
  }

  /** A more active subsystem never contributes less. */
  lemma TermMonotone(current: real, eta: real, a1: real, a2: real)
    requires current >= 0.0 && eta >= 0.0 && 0.0 <= a1 <= a2
    ensures Term(current, a1, eta) <= Term(current, a2, eta)
  {
    if a1 > 0.0 {
      MulNonNeg(current, eta);
      MulMonotone(current * eta, a1, a2);
      TermScaled(current, a1, eta);
      TermScaled(current, a2, eta);
      var x := current * eta;
      calc {
        Term(current, a1, eta);
        x * a1;
      <= x * a2;
        Term(current, a2, eta);
      }
    }
  }

  /** The cellular current of the 4G network every app reports. */
  function CellularValue(ph: Phone, networkType: string, rssi: real, handoff: real): (r: real)
    requires networkType in {"2G", "3G", "4G"}
    ensures ValidPhone(ph) && handoff >= 0.0 ==> r >= 0.0
  {
    CellularCurrent(ph.cellular, ph.exp, networkType, rssi, handoff).value
  }
}
