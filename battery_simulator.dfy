/** BatterySimulator of test.py: a seven-term summed current (the processor
    split into a CPU share and a separate GPU term, cellular with a fixed
    handoff rate) and a one-second drain simulation that keeps one record per
    hour. */
module BatterySimulator {
  import opened Common
  import opened CoreModel
  import opened SoftwareModel
  import opened Hardware
  import opened Integration
  import StaticBenchmark

  // --------------------------------------------------------- summed current

  /** The share of the processor current attributed to the CPU cores. */
  const CpuShare: real := 0.7

  /** The cellular handoff rate calculate_current uses. */
  const HandoffRate: real := 0.1

  /** The summed current of calculate_current for one parameter record:
      display, CPU (the processor fed the CPU frequency and load only, times
      0.7), GPU (the processor fed the GPU frequency and load only), memory,
      storage, cellular (handoff rate 0.1) and GPS, each weighted by its
      activity and efficiency factor and counted only when its activity is
      positive. */
  function SimParamsCurrent(ph: Phone, p: AppParams): real
    requires StaticBenchmark.KnownNetwork(p)
  {
    Term(DisplayCurrent(ph.display, p.screen.brightness), p.screen.activity, p.screen.eta) +
    Term(ph.processor(p.cpu.freq, p.cpu.load, 0.0, 0.0) * CpuShare, p.cpu.activity, p.cpu.eta) +
    Term(ph.processor(0.0, 0.0, p.gpu.freq, p.gpu.load), p.gpu.activity, p.gpu.eta) +
    Term(ph.memory(p.memory.bwRead, p.memory.bwWrite), p.memory.activity, p.memory.eta) +
    Term(ph.storage(p.storage.isActive), p.storage.activity, p.storage.eta) +
    Term(CellularValue(ph, p.network.networkType, p.network.rssi, HandoffRate), p.network.activity, p.network.eta) +
    Term(ph.sensors(p.gps.mode), p.gps.activity, p.gps.eta)
  }

  /** The current of an app at second t, with that second's web-browsing draw. */
  function SimCurrent(ph: Phone, app: App, t: int, draw: BrowseDraw): real
  {
    SimParamsCurrent(ph, GetParams(app, t, draw))
  }

  /** calculate_current(t_seconds, app): the parameter lookup, then the sum
      of the seven terms. */
  method CalculateCurrent(ph: Phone, t: int, app: App, draw: BrowseDraw) returns (totalCurrent: real)
    ensures totalCurrent == SimCurrent(ph, app, t, draw)
  {
    var params := GetParams(app, t, draw);
    totalCurrent := SumTerms(ph, params);
  }

  /** The seven terms of calculate_current added to the total in turn. */
  method SumTerms(ph: Phone, p: AppParams) returns (totalCurrent: real)
    requires StaticBenchmark.KnownNetwork(p)
    ensures totalCurrent == SimParamsCurrent(ph, p)
  {
    totalCurrent := 0.0;
    if p.screen.activity > 0.0 {
      var baseCurrent := DisplayCurrent(ph.display, p.screen.brightness);
      totalCurrent := totalCurrent + baseCurrent * p.screen.activity * p.screen.eta;
    }
    ghost var expected := Term(DisplayCurrent(ph.display, p.screen.brightness), p.screen.activity, p.screen.eta);
    assert totalCurrent == expected;
    if p.cpu.activity > 0.0 {
      var baseCurrent := ph.processor(p.cpu.freq, p.cpu.load, 0.0, 0.0);
      var baseCpuOnly := baseCurrent * CpuShare;
      totalCurrent := totalCurrent + baseCpuOnly * p.cpu.activity * p.cpu.eta;
    }
    expected := expected + Term(ph.processor(p.cpu.freq, p.cpu.load, 0.0, 0.0) * CpuShare, p.cpu.activity, p.cpu.eta);
    assert totalCurrent == expected;
    if p.gpu.activity > 0.0 {
      var baseGpu := ph.processor(0.0, 0.0, p.gpu.freq, p.gpu.load);
      totalCurrent := totalCurrent + baseGpu * p.gpu.activity * p.gpu.eta;
    }
    expected := expected + Term(ph.processor(0.0, 0.0, p.gpu.freq, p.gpu.load), p.gpu.activity, p.gpu.eta);
    assert totalCurrent == expected;
    if p.memory.activity > 0.0 {
      var baseCurrent := ph.memory(p.memory.bwRead, p.memory.bwWrite);
      totalCurrent := totalCurrent + baseCurrent * p.memory.activity * p.memory.eta;
    }
    expected := expected + Term(ph.memory(p.memory.bwRead, p.memory.bwWrite), p.memory.activity, p.memory.eta);
    assert totalCurrent == expected;
    if p.storage.activity > 0.0 {
      var baseCurrent := ph.storage(p.storage.isActive);
      totalCurrent := totalCurrent + baseCurrent * p.storage.activity * p.storage.eta;
    }
    expected := expected + Term(ph.storage(p.storage.isActive), p.storage.activity, p.storage.eta);
    assert totalCurrent == expected;
    if p.network.activity > 0.0 {
      var baseCurrent := CellularCurrent(ph.cellular, ph.exp, p.network.networkType, p.network.rssi, HandoffRate).value;
      totalCurrent := totalCurrent + baseCurrent * p.network.activity * p.network.eta;
    }
    expected := expected + Term(CellularValue(ph, p.network.networkType, p.network.rssi, HandoffRate),
                                p.network.activity, p.network.eta);
    assert totalCurrent == expected;
    if p.gps.activity > 0.0 {
      var baseCurrent := ph.sensors(p.gps.mode);
      totalCurrent := totalCurrent + baseCurrent * p.gps.activity * p.gps.eta;
    }
  }

  /** A valid phone never draws a negative total current. */
  lemma SimCurrentNonNegative(ph: Phone, app: App, t: int, draw: BrowseDraw)
    requires ValidPhone(ph)
    ensures SimCurrent(ph, app, t, draw) >= 0.0
  {
    var p := GetParams(app, t, draw);
    assert p.screen.brightness >= 0.0;
    MulNonNeg(ph.processor(p.cpu.freq, p.cpu.load, 0.0, 0.0), CpuShare);
  }

  /** A record whose activities are all zero or below draws nothing. */
  lemma SimIdleParamsDrawNothing(ph: Phone, p: AppParams)
    requires StaticBenchmark.KnownNetwork(p)
    requires p.screen.activity <= 0.0 && p.cpu.activity <= 0.0 && p.gpu.activity <= 0.0
    requires p.memory.activity <= 0.0 && p.storage.activity <= 0.0
    requires p.network.activity <= 0.0 && p.gps.activity <= 0.0
    ensures SimParamsCurrent(ph, p) == 0.0
  {
  }

  /** The GPU is a term of its own: its frequency and load matter only while
      the GPU activity is positive, and they never enter the CPU term. */
  lemma SimGpuSeparate(ph: Phone, p: AppParams, freq: real, load: real)
    requires StaticBenchmark.KnownNetwork(p)
    requires p.gpu.activity <= 0.0
    ensures SimParamsCurrent(ph, p.(gpu := p.gpu.(freq := freq, load := load))) == SimParamsCurrent(ph, p)
  {
  }

  /** With only the CPU active, the current is 0.7 times the processor current
      at the CPU frequency and load, with no GPU load, weighted by activity
      and efficiency. */
  lemma SimCpuOnly(ph: Phone, p: AppParams)
    requires StaticBenchmark.KnownNetwork(p)
    requires p.cpu.activity > 0.0
    requires p.screen.activity <= 0.0 && p.gpu.activity <= 0.0 && p.memory.activity <= 0.0
    requires p.storage.activity <= 0.0 && p.network.activity <= 0.0 && p.gps.activity <= 0.0
    ensures SimParamsCurrent(ph, p) == 0.7 * ph.processor(p.cpu.freq, p.cpu.load, 0.0, 0.0) * p.cpu.activity * p.cpu.eta
  {
  }

  /** With only the network active, the current is the 4G cellular current at
      handoff rate 0.1, weighted by activity and efficiency. */
  lemma SimNetworkOnly(ph: Phone, p: AppParams)
    requires StaticBenchmark.KnownNetwork(p)
    requires p.network.activity > 0.0
    requires p.screen.activity <= 0.0 && p.cpu.activity <= 0.0 && p.gpu.activity <= 0.0
    requires p.memory.activity <= 0.0 && p.storage.activity <= 0.0 && p.gps.activity <= 0.0
    ensures SimParamsCurrent(ph, p) ==
            CellularCurrent(ph.cellular, ph.exp, p.network.networkType, p.network.rssi, 0.1).value *
            p.network.activity * p.network.eta
  {
  }

  // ------------------------------------------------------------ simulation

  /** The time step of simulate, in seconds: with dt = 1 the step count and
      the elapsed seconds coincide. */
  const Dt: nat := 1

  /** One entry of hourly_records: the hour, the state of charge in percent
      and the remaining charge after that step's decrement, and the step's
      current. */
  datatype HourlyRecord = HourlyRecord(hour: real, soc: real, current: real, remainingMah: real)

  /** Seconds in hours. */
  function Hours(seconds: int): real
  {
    seconds as real / 3600.0
  }

  /** A charge as a percentage of the capacity. */
  function SocPercent(q: real, capacity: PosReal): real
  {
    q / capacity * 100.0
  }

  /** The variables the loop of simulate updates. */
  datatype SimState = SimState(remaining: real, records: seq<HourlyRecord>)

  /** One pass of the loop body at second t: the charge drops by the step's
      current times dt / 3600, and a record is kept when t mod 3600 < dt,
      that is at each whole hour. */
  function SimStep(current: int -> real, capacity: PosReal, st: SimState, t: int): SimState
  {
    var q := st.remaining - current(t) * (Dt as real / 3600.0);
    SimState(q, st.records +
                (if t % 3600 < Dt then [HourlyRecord(Hours(t), SocPercent(q, capacity), current(t), q)] else []))
  }

  /** The loop's variables after n passes from the initial charge q0. */
  function SimRun(current: int -> real, q0: real, capacity: PosReal, n: nat): SimState
  {
    if n == 0 then SimState(q0, []) else SimStep(current, capacity, SimRun(current, q0, capacity, n - 1), (n - 1) * Dt)
  }

  /** The number of passes the loop makes from pass n on: the first pass at
      whose start no charge remains or t = n * dt is not below limit. */
  function SimSteps(current: int -> real, q0: real, capacity: PosReal, limit: int, n: nat): (k: nat)
    ensures n <= k
    decreases limit - n * Dt
  {
    if SimRun(current, q0, capacity, n).remaining > 0.0 && n * Dt < limit
    then SimSteps(current, q0, capacity, limit, n + 1)
    else n
  }

  /** The loop's charge is the integration's charge. */
  lemma {:induction false} SimRunCharge(current: int -> real, q0: real, capacity: PosReal, n: nat)
    ensures SimRun(current, q0, capacity, n).remaining == Charge(current, q0, Dt, n)
  {
    if n > 0 {
      SimRunCharge(current, q0, capacity, n - 1);
    }
  }

  /** The loop stops where the integration's StopStep says. */
  lemma {:induction false} SimStepsStop(current: int -> real, q0: real, capacity: PosReal, limit: int, n: nat)
    ensures SimSteps(current, q0, capacity, limit, n) == StopStep(current, q0, Dt, Below(limit), n)
    decreases limit - n * Dt
  {
    SimRunCharge(current, q0, capacity, n);
    if Charge(current, q0, Dt, n) > 0.0 && n * Dt < limit {
      SimStepsStop(current, q0, capacity, limit, n + 1);
    }
  }

  /** The run the loop makes is the integration's: it stops at StopStep with
      the integration's charge. */
  lemma RunLink(current: int -> real, q0: real, capacity: PosReal, limit: int)
    ensures var k := StopStep(current, q0, Dt, Below(limit), 0);
            SimSteps(current, q0, capacity, limit, 0) == k &&
            SimRun(current, q0, capacity, k).remaining == Charge(current, q0, Dt, k)
  {
    SimStepsStop(current, q0, capacity, limit, 0);
    SimRunCharge(current, q0, capacity, StopStep(current, q0, Dt, Below(limit), 0));
  }

  /** The j-th hourly record: taken by the step that starts at t = 3600 j,
      with the charge after that step. */
  predicate RecordAt(current: int -> real, q0: real, capacity: PosReal, r: HourlyRecord, j: nat)
  {
    var q := Charge(current, q0, Dt, 3600 * j + 1);
    r == HourlyRecord(j as real, SocPercent(q, capacity), current(3600 * j), q)
  }

  /** Where the step that starts at t falls relative to the records kept
      so far. */
  lemma HourBoundary(t: nat, s: nat)
    requires t <= 3600 * s < t + 3600
    ensures t % 3600 < Dt ==> t == 3600 * s && Hours(t) == s as real
    ensures t % 3600 >= Dt ==> t + 1 <= 3600 * s
  {
  }

  /** After n passes there is one record per whole hour started, the j-th
      taken at hour j. */
  lemma {:induction false} HourlyRecordsShape(current: int -> real, q0: real, capacity: PosReal, n: nat)
    ensures var rs := SimRun(current, q0, capacity, n).records;
            n <= 3600 * |rs| < n + 3600 &&
            forall j :: 0 <= j < |rs| ==> RecordAt(current, q0, capacity, rs[j], j)
  {
    if n > 0 {
      var t := n - 1;
      HourlyRecordsShape(current, q0, capacity, t);
      var prev := SimRun(current, q0, capacity, t).records;
      var rs := SimRun(current, q0, capacity, n).records;
      HourBoundary(t, |prev|);
      if t % 3600 < Dt {
        var s := |prev|;
        SimRunCharge(current, q0, capacity, n);
        assert rs == prev + [rs[s]];
        assert RecordAt(current, q0, capacity, rs[s], s);
        forall j | 0 <= j < |rs|
          ensures RecordAt(current, q0, capacity, rs[j], j)
        {
          if j < s {
            assert rs[j] == prev[j];
          }
        }
      } else {
        assert rs == prev;
      }
    }
  }

  /** The loop of simulate: one-second steps from the initial charge while
      charge remains and t < max_hours * 3600, each one SimStep. current is
      the function the loop calls as calculate_current. */
  method SimulateLoop(current: int -> real, q0: real, capacity: PosReal, maxHours: nat)
    returns (t: nat, remaining: real, records: seq<HourlyRecord>)
    ensures t == SimSteps(current, q0, capacity, maxHours * 3600, 0)
    ensures SimState(remaining, records) == SimRun(current, q0, capacity, t)
  {
    remaining := q0;
    t := 0;
    records := [];
    while remaining > 0.0 && t < maxHours * 3600
      invariant SimState(remaining, records) == SimRun(current, q0, capacity, t)
      invariant SimSteps(current, q0, capacity, maxHours * 3600, t) == SimSteps(current, q0, capacity, maxHours * 3600, 0)
      decreases maxHours * 3600 - t
    {
      ghost var prev := SimState(remaining, records);
      var currentNow := current(t);
      var deltaCharge := currentNow * (Dt as real / 3600.0);
      remaining := remaining - deltaCharge;
      if t % 3600 < Dt {
        records := records + [HourlyRecord(Hours(t), SocPercent(remaining, capacity), currentNow, remaining)];
      }
      assert SimState(remaining, records) == SimStep(current, capacity, prev, t);
      assert SimRun(current, q0, capacity, t + 1) == SimStep(current, capacity, prev, t);
      t := t + Dt;
    }
  }

  /** The dictionary simulate returns. */
  datatype SimReport = SimReport(appName: string, startSoc: real, endSoc: real, totalHours: real,
                                 totalMinutes: real, avgCurrent: real, hourlyData: seq<HourlyRecord>)

  /** simulate returns the number 0 for an unknown app, a report otherwise. */
  datatype SimOutcome = Zero | Report(report: SimReport)

  /** The average current of a run that drew a charge over some hours. */
  function MeanCurrent(drawn: real, hours: real): real
    requires hours > 0.0
  {
    drawn / hours
  }

  /** The report of a run that starts with q0 mAh, start_soc percent of
      capacity, under current. */
  function RunReport(appName: string, startSoc: real, capacity: PosReal, q0: real, maxHours: nat,
                     current: int -> real): SimReport
  {
    var k := SimSteps(current, q0, capacity, maxHours * 3600, 0);
    var st := SimRun(current, q0, capacity, k);
    var totalHours := Hours(k);
    SimReport(appName, startSoc, if st.remaining > 0.0 then SocPercent(st.remaining, capacity) else 0.0,
              totalHours, totalHours * 60.0,
              if totalHours > 0.0 then MeanCurrent(q0 - st.remaining, totalHours) else 0.0,
              st.records)
  }

  /** The initial charge: start_soc percent of the capacity. */
  function InitialCharge(capacity: PosReal, startSoc: real): (q0: real)
    ensures SocPercent(q0, capacity) == startSoc
    ensures startSoc > 0.0 ==> q0 > 0.0
    ensures startSoc >= 0.0 ==> q0 >= 0.0
  {
    assert capacity * (startSoc / 100.0) / capacity == startSoc / 100.0;
    if startSoc > 0.0 then
      MulPos(capacity, startSoc / 100.0);
      capacity * (startSoc / 100.0)
    else if startSoc == 0.0 then capacity * (startSoc / 100.0)
    else
      assert capacity * (startSoc / 100.0) < 0.0 by {
        MulPos(capacity, -startSoc / 100.0);
      }
      capacity * (startSoc / 100.0)
  }

  /** The body of simulate once the app is found. */
  method SimulateRun(appName: string, startSoc: real, capacity: PosReal, maxHours: nat,
                     current: int -> real) returns (report: SimReport)
    ensures report == RunReport(appName, startSoc, capacity, InitialCharge(capacity, startSoc), maxHours, current)
  {
    var initialCharge := capacity * (startSoc / 100.0);
    var t, remaining, hourlyRecords := SimulateLoop(current, initialCharge, capacity, maxHours);
    var totalHours := Hours(t);
    var endSoc := if remaining > 0.0 then SocPercent(remaining, capacity) else 0.0;
    var avgCurrent := if totalHours > 0.0 then MeanCurrent(initialCharge - remaining, totalHours) else 0.0;
    report := SimReport(appName, startSoc, endSoc, totalHours, totalHours * 60.0, avgCurrent, hourlyRecords);
  }

  /** The current of an app at each second, with the run's draws. */
  function SimDrain(ph: Phone, app: App, draws: int -> BrowseDraw): int -> real
  {
    t => SimCurrent(ph, app, t, draws(t))
  }

  /** What simulate(start_soc, app_name, max_hours) returns. */
  function SimulateOutcome(ph: Phone, startSoc: real, appName: string, maxHours: nat,
                           draws: int -> BrowseDraw): (r: SimOutcome)
    ensures r.Zero? <==> appName !in {"video", "social", "navigation", "browser", "music"}
  {
    match GetApp(appName)
    case None => Zero
    case Some(app) =>
      Report(RunReport(appName, startSoc, ph.capacity, InitialCharge(ph.capacity, startSoc), maxHours,
                       SimDrain(ph, app, draws)))
  }

  /** simulate: the app lookup, then the run. */
  method Simulate(ph: Phone, startSoc: real, appName: string, maxHours: nat, draws: int -> BrowseDraw)
    returns (r: SimOutcome)
    ensures r == SimulateOutcome(ph, startSoc, appName, maxHours, draws)
  {
    var app := GetApp(appName);
    if app.None? {
      return Zero;
    }
    var report := SimulateRun(appName, startSoc, ph.capacity, maxHours, SimDrain(ph, app.value, draws));
    r := Report(report);
  }

  // ------------------------------------------------------------ properties

  /** The loop at one-second steps stops at the first second not below the
      limit or at the first step that empties the battery, and with charge and
      a positive limit it takes at least one step. */
  lemma RunLength(current: int -> real, q0: real, limit: int)
    ensures var k := StopStep(current, q0, Dt, Below(limit), 0);
            (limit >= 0 ==> k <= limit) &&
            (k < limit ==> Charge(current, q0, Dt, k) <= 0.0) &&
            (q0 > 0.0 && limit > 0 ==> k > 0)
  {
    StopStepBounds(current, q0, Dt, Below(limit));
  }

  /** A positive charge is a positive percentage, and the percentage grows
      with the charge. */
  lemma SocPercentFacts(q: real, q1: real, capacity: PosReal)
    ensures q > 0.0 ==> SocPercent(q, capacity) > 0.0
    ensures q >= 0.0 ==> SocPercent(q, capacity) >= 0.0
    ensures q <= q1 ==> SocPercent(q, capacity) <= SocPercent(q1, capacity)
  {
    if q > 0.0 {
      MulPos(q / capacity, 100.0);
    }
    if q >= 0.0 {
      MulNonNeg(q / capacity, 100.0);
    }
    if q <= q1 {
      DivMonotone(q, q1, capacity);
      MulMonotone(100.0, q / capacity, q1 / capacity);
    }
  }

  /** The run lasts at most max_hours, it ends either at max_hours or with an
      empty battery, and a run with charge and a positive horizon lasts a
      positive time; end_soc is 0 exactly when the battery is empty. */
  lemma ReportEnd(appName: string, startSoc: real, capacity: PosReal, q0: real, maxHours: nat, current: int -> real)
    ensures var r := RunReport(appName, startSoc, capacity, q0, maxHours, current);
            var q := Charge(current, q0, Dt, StopStep(current, q0, Dt, Below(maxHours * 3600), 0));
            0.0 <= r.totalHours <= maxHours as real &&
            (r.totalHours == maxHours as real || q <= 0.0) &&
            (q0 > 0.0 && maxHours > 0 ==> r.totalHours > 0.0) &&
            r.endSoc >= 0.0 && (r.endSoc == 0.0 <==> q <= 0.0)
  {
    var k := StopStep(current, q0, Dt, Below(maxHours * 3600), 0);
    RunLink(current, q0, capacity, maxHours * 3600);
    RunLength(current, q0, maxHours * 3600);
    SocPercentFacts(Charge(current, q0, Dt, k), 0.0, capacity);
  }

  /** Under non-negative currents the battery never ends fuller than it
      started. */
  lemma ReportSocFalls(appName: string, startSoc: real, capacity: PosReal, q0: real, maxHours: nat,
                       current: int -> real)
    requires forall t :: current(t) >= 0.0
    requires q0 >= 0.0
    ensures RunReport(appName, startSoc, capacity, q0, maxHours, current).endSoc <= SocPercent(q0, capacity)
  {
    var k := StopStep(current, q0, Dt, Below(maxHours * 3600), 0);
    RunLink(current, q0, capacity, maxHours * 3600);
    ChargeNonIncreasing(current, q0, Dt, 0, k);
    SocPercentFacts(Charge(current, q0, Dt, k), q0, capacity);
    SocPercentFacts(q0, q0, capacity);
  }

  /** The sum of the currents of the first n seconds. */
  function CurrentSum(current: int -> real, n: nat): real
  {
    if n == 0 then 0.0 else CurrentSum(current, n - 1) + current(n - 1)
  }

  /** With one-second steps the charge drawn is the sum of the currents over
      3600. */
  lemma {:induction false} ChargeIsSum(current: int -> real, q0: real, n: nat)
    ensures Charge(current, q0, Dt, n) == q0 - CurrentSum(current, n) / 3600.0
  {
    if n > 0 {
      ChargeIsSum(current, q0, n - 1);
    }
  }

  /** Drawing sum / 3600 mAh over n seconds is a mean current sum / n. */
  lemma MeanOverHours(drawn: real, sum: real, n: nat)
    requires n > 0 && drawn == sum / 3600.0
    ensures Hours(n) > 0.0 && MeanCurrent(drawn, Hours(n)) == sum / n as real
  {
  }

  /** The report's avg_current is the charge drawn over the hours run. */
  lemma ReportAvg(appName: string, startSoc: real, capacity: PosReal, q0: real, maxHours: nat, current: int -> real)
    ensures var r := RunReport(appName, startSoc, capacity, q0, maxHours, current);
            var k := StopStep(current, q0, Dt, Below(maxHours * 3600), 0);
            k > 0 ==> Hours(k) > 0.0 && r.avgCurrent == MeanCurrent(q0 - Charge(current, q0, Dt, k), Hours(k))
  {
    RunLink(current, q0, capacity, maxHours * 3600);
  }

  /** The charge drawn over the hours of a run is the mean of its per-second
      currents. */
  lemma RunMean(current: int -> real, q0: real, limit: int)
    ensures var k := StopStep(current, q0, Dt, Below(limit), 0);
            k > 0 ==> MeanCurrent(q0 - Charge(current, q0, Dt, k), Hours(k)) == CurrentSum(current, k) / k as real
  {
    var k := StopStep(current, q0, Dt, Below(limit), 0);
    if k > 0 {
      ChargeIsSum(current, q0, k);
      MeanOverHours(q0 - Charge(current, q0, Dt, k), CurrentSum(current, k), k);
    }
  }

  /** avg_current is the mean of the per-second currents of the run. */
  lemma AvgIsMeanCurrent(appName: string, startSoc: real, capacity: PosReal, q0: real, maxHours: nat,
                         current: int -> real)
    ensures var r := RunReport(appName, startSoc, capacity, q0, maxHours, current);
            var k := StopStep(current, q0, Dt, Below(maxHours * 3600), 0);
            k > 0 ==> r.avgCurrent == CurrentSum(current, k) / k as real
  {
    ReportAvg(appName, startSoc, capacity, q0, maxHours, current);
    RunMean(current, q0, maxHours * 3600);
  }

  /** Under a constant current the sum of n seconds' currents is n times it. */
  lemma {:induction false} CurrentSumConstant(current: int -> real, i: real, n: nat)
    requires forall t :: current(t) == i
    ensures CurrentSum(current, n) == n as real * i
  {
    if n > 0 {
      CurrentSumConstant(current, i, n - 1);
      assert CurrentSum(current, n) == CurrentSum(current, n - 1) + current(n - 1);
      assert (n - 1) as real * i + i == n as real * i;
    }
  }

  /** Under a constant current a run that takes a step reports that current
      as its average. */
  lemma AvgOfConstantCurrent(appName: string, startSoc: real, capacity: PosReal, q0: real, maxHours: nat,
                             current: int -> real, i: real)
    requires forall t :: current(t) == i
    ensures var r := RunReport(appName, startSoc, capacity, q0, maxHours, current);
            r.totalHours > 0.0 ==> r.avgCurrent == i
  {
    var k := StopStep(current, q0, Dt, Below(maxHours * 3600), 0);
    AvgIsMeanCurrent(appName, startSoc, capacity, q0, maxHours, current);
    RunLink(current, q0, capacity, maxHours * 3600);
    if k > 0 {
      CurrentSumConstant(current, i, k);
      MeanOfConstant(k, i);
    }
  }

  /** n seconds of a current i average to i. */
  lemma MeanOfConstant(n: nat, i: real)
    requires n > 0
    ensures (n as real * i) / n as real == i
  {
  }

  /** The report's hourly data: one record per whole hour the run started,
      the j-th taken at hour j, each before the end of the run. */
  lemma ReportHourly(appName: string, startSoc: real, capacity: PosReal, q0: real, maxHours: nat, current: int -> real)
    ensures var r := RunReport(appName, startSoc, capacity, q0, maxHours, current);
            var k := StopStep(current, q0, Dt, Below(maxHours * 3600), 0);
            |r.hourlyData| == (k + 3599) / 3600 &&
            (forall j :: 0 <= j < |r.hourlyData| ==> RecordAt(current, q0, capacity, r.hourlyData[j], j)) &&
            (forall j :: 0 <= j < |r.hourlyData| ==> r.hourlyData[j].hour < r.totalHours)
  {
    var k := StopStep(current, q0, Dt, Below(maxHours * 3600), 0);
    RunLink(current, q0, capacity, maxHours * 3600);
    HourlyRecordsShape(current, q0, capacity, k);
    var rs := SimRun(current, q0, capacity, k).records;
    forall j | 0 <= j < |rs|
      ensures rs[j].hour < Hours(k)
    {
      assert RecordAt(current, q0, capacity, rs[j], j);
      assert 3600 * j < k;
    }
  }

  /** A valid phone draws a non-negative current at every second. */
  lemma SimDrainNonNegative(ph: Phone, app: App, draws: int -> BrowseDraw)
    requires ValidPhone(ph)
    ensures forall t :: SimDrain(ph, app, draws)(t) >= 0.0
  {
    forall t
      ensures SimDrain(ph, app, draws)(t) >= 0.0
    {
      SimCurrentNonNegative(ph, app, t, draws(t));
    }
  }

  /** On a valid phone simulate never reports an end_soc above start_soc. */
  lemma SimulateSocFalls(ph: Phone, startSoc: real, appName: string, maxHours: nat, draws: int -> BrowseDraw)
    requires ValidPhone(ph) && startSoc >= 0.0
    ensures var r := SimulateOutcome(ph, startSoc, appName, maxHours, draws);
            r.Report? ==> r.report.endSoc <= startSoc
  {
    if GetApp(appName).Some? {
      var app := GetApp(appName).value;
      SimDrainNonNegative(ph, app, draws);
      ReportSocFalls(appName, startSoc, ph.capacity, InitialCharge(ph.capacity, startSoc), maxHours,
                     SimDrain(ph, app, draws));
    }
  }

  /** simulate runs at most max_hours, and a run of a known app from a
      positive start_soc with a positive horizon lasts a positive time. */
  lemma SimulateDuration(ph: Phone, startSoc: real, appName: string, maxHours: nat, draws: int -> BrowseDraw)
    ensures var r := SimulateOutcome(ph, startSoc, appName, maxHours, draws);
            r.Report? ==> r.report.totalHours <= maxHours as real &&
                          r.report.totalMinutes == r.report.totalHours * 60.0 &&
                          (startSoc > 0.0 && maxHours > 0 ==> r.report.totalHours > 0.0)
  {
    if GetApp(appName).Some? {
      var app := GetApp(appName).value;
      ReportEnd(appName, startSoc, ph.capacity, InitialCharge(ph.capacity, startSoc), maxHours,
                SimDrain(ph, app, draws));
    }
  }
}
