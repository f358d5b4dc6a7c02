/** StaticBenchmark of scenario_static_benchmark.py: the summed current of an
    app at a given second, the 10-second time-to-empty simulation, and the
    grid of runs over the five app categories and three initial charges. */
module StaticBenchmark {
  import opened Common
  import opened CoreModel
  import opened SoftwareModel
  import opened Hardware
  import opened Integration

  // --------------------------------------------------------- summed current

  /** The reported network type is one Cellular.I knows. */
  predicate KnownNetwork(p: AppParams)
  {
    p.network.networkType in {"2G", "3G", "4G"}
  }

  /** The summed current of calculate_current_for_app for one parameter
      record: display, processor (fed the CPU and the GPU frequency and load,
      weighted by CPU activity), memory, storage, GPS and cellular (handoff
      rate 1), each weighted by its activity and efficiency factor and
      counted only when its activity is positive. */
  function ParamsCurrent(ph: Phone, p: AppParams): real
    requires KnownNetwork(p)
  {
    Term(DisplayCurrent(ph.display, p.screen.brightness), p.screen.activity, p.screen.eta) +
    Term(ph.processor(p.cpu.freq, p.cpu.load, p.gpu.freq, p.gpu.load), p.cpu.activity, p.cpu.eta) +
    Term(ph.memory(p.memory.bwRead, p.memory.bwWrite), p.memory.activity, p.memory.eta) +
    Term(ph.storage(p.storage.isActive), p.storage.activity, p.storage.eta) +
    Term(ph.sensors(p.gps.mode), p.gps.activity, p.gps.eta) +
    Term(CellularValue(ph, p.network.networkType, p.network.rssi, 1.0), p.network.activity, p.network.eta)
  }

  /** The current of the app a name selects, at second t; 0 for a name
      get_app does not know. */
  function AppCurrent(ph: Phone, appName: string, t: int, draw: BrowseDraw): real
  {
    match GetApp(appName)
    case None => 0.0
    case Some(app) => ParamsCurrent(ph, GetParams(app, t, draw))
  }

  /** calculate_current_for_app. */
  method CalculateCurrentForApp(ph: Phone, appName: string, t: int, draw: BrowseDraw) returns (total: real)
    ensures total == AppCurrent(ph, appName, t, draw)
  {
    var app := GetApp(appName);
    if app.None? {
      return 0.0;
    }
    var p := GetParams(app.value, t, draw);
    total := AccumulateCurrent(ph, p);
  }

  /** The body of calculate_current_for_app after the parameter lookup: the
      subsystem terms added to the total in turn. */
  method AccumulateCurrent(ph: Phone, p: AppParams) returns (total: real)
    requires KnownNetwork(p)
    ensures total == ParamsCurrent(ph, p)
  {
    total := 0.0;
    if p.screen.activity > 0.0 {
      var iDisplay := DisplayCurrent(ph.display, p.screen.brightness);
      total := total + iDisplay * p.screen.activity * p.screen.eta;
    }
    ghost var expected := Term(DisplayCurrent(ph.display, p.screen.brightness), p.screen.activity, p.screen.eta);
    assert total == expected;
    if p.cpu.activity > 0.0 {
      var iCpu := ph.processor(p.cpu.freq, p.cpu.load, p.gpu.freq, p.gpu.load);
      total := total + iCpu * p.cpu.activity * p.cpu.eta;
    }
    expected := expected + Term(ph.processor(p.cpu.freq, p.cpu.load, p.gpu.freq, p.gpu.load), p.cpu.activity, p.cpu.eta);
    assert total == expected;
    if p.memory.activity > 0.0 {
      var iMem := ph.memory(p.memory.bwRead, p.memory.bwWrite);
      total := total + iMem * p.memory.activity * p.memory.eta;
    }
    expected := expected + Term(ph.memory(p.memory.bwRead, p.memory.bwWrite), p.memory.activity, p.memory.eta);
    assert total == expected;
    if p.storage.activity > 0.0 {
      var iStorage := ph.storage(p.storage.isActive);
      total := total + iStorage * p.storage.activity * p.storage.eta;
    }
    expected := expected + Term(ph.storage(p.storage.isActive), p.storage.activity, p.storage.eta);
    assert total == expected;
    if p.gps.activity > 0.0 {
      var iGps := ph.sensors(p.gps.mode);
      total := total + iGps * p.gps.activity * p.gps.eta;
    }
    expected := expected + Term(ph.sensors(p.gps.mode), p.gps.activity, p.gps.eta);
    assert total == expected;
    if p.network.activity > 0.0 {
      var iNet := CellularCurrent(ph.cellular, ph.exp, p.network.networkType, p.network.rssi, 1.0).value;
      total := total + iNet * p.network.activity * p.network.eta;
    }
    expected := expected + Term(CellularValue(ph, p.network.networkType, p.network.rssi, 1.0),
                                p.network.activity, p.network.eta);
    assert total == expected;
  }

  /** A valid phone never draws a negative total current. */
  lemma AppCurrentNonNegative(ph: Phone, appName: string, t: int, draw: BrowseDraw)
    requires ValidPhone(ph)
    ensures AppCurrent(ph, appName, t, draw) >= 0.0
  {
    if GetApp(appName).Some? {
      var p := GetParams(GetApp(appName).value, t, draw);
      assert p.screen.brightness >= 0.0;
    }
  }

  /** A name get_app does not know draws nothing. */
  lemma UnknownAppDrawsNothing(ph: Phone, appName: string, t: int, draw: BrowseDraw)
    requires appName !in {"video", "social", "navigation", "browser", "music"}
    ensures AppCurrent(ph, appName, t, draw) == 0.0
  {
  }

  /** A record whose activities are all zero draws nothing. */
  lemma IdleParamsDrawNothing(ph: Phone, p: AppParams)
    requires KnownNetwork(p)
    requires p.screen.activity <= 0.0 && p.cpu.activity <= 0.0 && p.memory.activity <= 0.0
    requires p.storage.activity <= 0.0 && p.gps.activity <= 0.0 && p.network.activity <= 0.0
    ensures ParamsCurrent(ph, p) == 0.0
  {
  }

  /** The GPU record enters the sum only through the processor term: its
      activity and efficiency factor never matter, and while the CPU is idle
      neither do its frequency and load. */
  lemma GpuOnlyThroughCpu(ph: Phone, p: AppParams, gpu: ProcessorParams)
    requires KnownNetwork(p)
    ensures ParamsCurrent(ph, p.(gpu := p.gpu.(activity := gpu.activity, eta := gpu.eta))) == ParamsCurrent(ph, p)
    ensures p.cpu.activity <= 0.0 ==> ParamsCurrent(ph, p.(gpu := gpu)) == ParamsCurrent(ph, p)
  {
  }

  /** For a valid phone, a record whose screen is more active (all else
      equal) never draws less. */
  lemma ScreenActivityMonotone(ph: Phone, p: AppParams, a: real)
    requires ValidPhone(ph) && KnownNetwork(p)
    requires 0.0 <= p.screen.activity <= a && p.screen.eta >= 0.0 && p.screen.brightness >= 0.0
    ensures ParamsCurrent(ph, p) <= ParamsCurrent(ph, p.(screen := p.screen.(activity := a)))
  {
    TermMonotone(DisplayCurrent(ph.display, p.screen.brightness), p.screen.eta, p.screen.activity, a);
  }

  /** The music app keeps the screen off, so the display never enters its current. */
  lemma MusicIgnoresDisplay(ph: Phone, other: Display, t: int, draw: BrowseDraw)
    ensures AppCurrent(ph, "music", t, draw) == AppCurrent(ph.(display := other), "music", t, draw)
  {
  }

  // ---------------------------------------------------- time-to-empty loop

  /** The time step of the benchmark, in seconds. */
  const Dt: nat := 10

  /** The current the benchmark draws at each second for an app, with the
      web-browsing draws of the run. */
  function Drain(ph: Phone, appName: string, draws: int -> BrowseDraw): int -> real
  {
    t => AppCurrent(ph, appName, t, draws(t))
  }

  /** The time-to-empty simulate_single_scenario reports (before rounding):
      the elapsed hours when the charge ran out within max_hours, and
      max_hours otherwise. */
  function StaticTte(current: int -> real, q0: real, maxHours: nat): real
  {
    var k := StopStep(current, q0, Dt, Below(maxHours * 3600), 0);
    if Charge(current, q0, Dt, k) <= 0.0 then (k * Dt) as real / 3600.0 else maxHours as real
  }

  /** simulate_single_scenario: 10-second steps from soc_initial * Q_total
      while t < max_hours * 3600 and the charge is positive. */
  method SimulateSingleScenario(ph: Phone, appName: string, socInitial: real, maxHours: nat,
                                draws: int -> BrowseDraw) returns (tte: real)
    ensures tte == StaticTte(Drain(ph, appName, draws), socInitial * ph.capacity, maxHours)
  {
    var q := socInitial * ph.capacity;
    var maxSeconds := maxHours * 3600;
    var t := 0;
    var elapsed := 0;
    ghost var current := Drain(ph, appName, draws);
    ghost var q0 := q;
    ghost var n: nat := 0;
    while t < maxSeconds && q > 0.0
      invariant t == n * Dt && elapsed == t
      invariant q == Charge(current, q0, Dt, n)
      invariant forall j :: 0 <= j < n ==> Continues(current, q0, Dt, Below(maxSeconds), j)
      decreases maxSeconds - t
    {
      assert Continues(current, q0, Dt, Below(maxSeconds), n);
      var iNow := CalculateCurrentForApp(ph, appName, t, draws(t));
      assert iNow == current(n * Dt);
      assert Charge(current, q0, Dt, n + 1) == q - iNow * (Dt as real / 3600.0);
      q := q - iNow * (Dt as real / 3600.0);
      t := t + Dt;
      elapsed := t;
      n := n + 1;
    }
    StopStepUnique(current, q0, Dt, Below(maxSeconds), 0, n);
    if q <= 0.0 {
      tte := elapsed as real / 3600.0;
    } else {
      tte := maxHours as real;
    }
  }

  /** The time-to-empty is never negative and never beyond max_hours. */
  lemma TteWithinBound(current: int -> real, q0: real, maxHours: nat)
    ensures 0.0 <= StaticTte(current, q0, maxHours) <= maxHours as real
  {
    var k := StopStep(current, q0, Dt, Below(maxHours * 3600), 0);
    if k > 0 {
      assert Continues(current, q0, Dt, Below(maxHours * 3600), k - 1);
      assert k * Dt <= maxHours * 3600;
    }
  }

  /** An empty battery at the start reports 0 hours. */
  lemma EmptyBatteryTteZero(current: int -> real, q0: real, maxHours: nat)
    requires q0 <= 0.0
    ensures StaticTte(current, q0, maxHours) == 0.0
  {
    StopStepUnique(current, q0, Dt, Below(maxHours * 3600), 0, 0);
  }

  /** With no current drawn, a charged battery lasts the whole horizon. */
  lemma NoDrainLastsHorizon(current: int -> real, q0: real, maxHours: nat)
    requires forall t :: current(t) == 0.0
    requires q0 > 0.0
    ensures StaticTte(current, q0, maxHours) == maxHours as real
  {
    var k := StopStep(current, q0, Dt, Below(maxHours * 3600), 0);
    ChargeConstant(current, 0.0, q0, Dt, k);
  }

  /** Hence an unknown app name reports max_hours for any positive charge. */
  lemma UnknownAppLastsHorizon(ph: Phone, appName: string, socInitial: real, maxHours: nat,
                               draws: int -> BrowseDraw)
    requires appName !in {"video", "social", "navigation", "browser", "music"}
    requires socInitial > 0.0
    ensures StaticTte(Drain(ph, appName, draws), socInitial * ph.capacity, maxHours) == maxHours as real
  {
    var current := Drain(ph, appName, draws);
    forall t ensures current(t) == 0.0 {
      UnknownAppDrawsNothing(ph, appName, t, draws(t));
    }
    MulPos(socInitial, ph.capacity as real);
    NoDrainLastsHorizon(current, socInitial * ph.capacity, maxHours);
  }

  /** Under a constant current i > 0 that empties the battery within the
      horizon, the time-to-empty is the first multiple of 10 s at which the
      drawn charge reaches q0: at least q0 / i hours and less than one step more. */
  lemma ConstantDrainTte(current: int -> real, i: real, q0: real, maxHours: nat)
    requires forall t :: current(t) == i
    requires i > 0.0 && q0 > 0.0 && q0 / i < maxHours as real
    ensures q0 / i <= StaticTte(current, q0, maxHours) < q0 / i + Dt as real / 3600.0
  {
    var b := Below(maxHours * 3600);
    DivPos(q0, i);
    assert InBound(b, 0);
    var k := StopStep(current, q0, Dt, b, 0);
    StopStepBounds(current, q0, Dt, b);
    assert k > 0;
    var qk := Charge(current, q0, Dt, k);
    var qPrev := Charge(current, q0, Dt, k - 1);
    ChargeConstant(current, i, q0, Dt, k);
    ChargeConstant(current, i, q0, Dt, k - 1);
    assert !InBound(b, k * Dt) || qk <= 0.0;
    assert qk == q0 - (k as real) * i * (Dt as real / 3600.0);
    assert qPrev == q0 - ((k - 1) as real) * i * (Dt as real / 3600.0);
    assert qPrev > 0.0;
    assert !(k * Dt < maxHours * 3600) || qk <= 0.0;
    ConstantTteArith(i, q0, maxHours, k, qk, qPrev);
  }

  /** The arithmetic of ConstantDrainTte: after k steps of a constant current
      i the charge is qk, before the last one it was qPrev > 0, and the loop
      stopped at the horizon or with qk <= 0. Then qk <= 0, and the elapsed
      time is within one step past q0 / i. */
  lemma ConstantTteArith(i: real, q0: real, maxHours: nat, k: nat, qk: real, qPrev: real)
    requires i > 0.0 && q0 > 0.0 && q0 / i < maxHours as real
    requires qk == q0 - (k as real) * i * (Dt as real / 3600.0)
    requires k > 0
    requires qPrev == q0 - ((k - 1) as real) * i * (Dt as real / 3600.0) && qPrev > 0.0
    requires !(k * Dt < maxHours * 3600) || qk <= 0.0
    ensures qk <= 0.0
    ensures q0 / i <= (k * Dt) as real / 3600.0 < q0 / i + Dt as real / 3600.0
  {
    var step := Dt as real / 3600.0;
    DivPos(q0, i);
    if k * Dt >= maxHours * 3600 {
      HorizonHours(k, maxHours);
      DrawnExceeds(i, q0, k as real, step);
    }
    StepHours(k);
    DrawnReaches(i, q0, k as real, step);
    DrawnShort(i, q0, (k - 1) as real, step);
    Bracketed(q0 / i, (k * Dt) as real / 3600.0, ((k - 1) as real) * step, step);
  }

  /** A time reached one step after a time short of a, and not short of a
      itself, lies within one step past a. */
  lemma Bracketed(a: real, t: real, prev: real, step: real)
    requires a <= t && prev < a && t == prev + step
    ensures a <= t < a + step
  {
  }

  /** A positive charge over a positive current is positive. */
  lemma DivPos(a: real, b: real)
    requires a > 0.0 && b > 0.0
    ensures a / b > 0.0
  {
    assert a / b * b == a;
    MulPosSign(a / b, b);
  }

  /** k steps of Dt seconds last k * Dt / 3600 hours. */
  lemma StepHours(k: int)
    ensures (k * Dt) as real / 3600.0 == (k as real) * (Dt as real / 3600.0)
    ensures ((k - 1) * Dt) as real / 3600.0 == ((k - 1) as real) * (Dt as real / 3600.0)
    ensures (k as real) * (Dt as real / 3600.0) == ((k - 1) as real) * (Dt as real / 3600.0) + Dt as real / 3600.0
  {
  }

  /** Steps that reach the horizon last at least max_hours. */
  lemma HorizonHours(k: int, maxHours: nat)
    requires k * Dt >= maxHours * 3600
    ensures (k as real) * (Dt as real / 3600.0) >= maxHours as real
  {
    StepHours(k);
  }

  /** Drawing i for n steps of h hours, longer than q0 / i hours in all,
      takes more than q0. */
  lemma DrawnExceeds(i: real, q0: real, n: real, h: real)
    requires i > 0.0 && q0 / i < n * h
    ensures q0 - n * i * h < 0.0
  {
    assert q0 / i * i == q0;
    assert n * i * h == i * (n * h);
    MulStrictMonotone(i, q0 / i, n * h);
  }

  /** A drawn charge n * i * h of at least q0 means at least q0 / i hours. */
  lemma DrawnReaches(i: real, q0: real, n: real, h: real)
    requires i > 0.0
    ensures q0 - n * i * h <= 0.0 ==> q0 / i <= n * h
  {
    assert q0 / i * i == q0;
    assert n * i * h == i * (n * h);
    if n * h < q0 / i {
      MulStrictMonotone(i, n * h, q0 / i);
    }
  }

  /** A drawn charge n * i * h below q0 means fewer than q0 / i hours. */
  lemma DrawnShort(i: real, q0: real, n: real, h: real)
    requires i > 0.0
    ensures q0 - n * i * h > 0.0 ==> n * h < q0 / i
  {
    assert q0 / i * i == q0;
    assert n * i * h == i * (n * h);
    if n * h >= q0 / i {
      MulMonotone(i, q0 / i, n * h);
    }
  }

  // -------------------------------------------------------- benchmark grid

  /** app_categories, in insertion order: app key and description. */
  const AppCategories: seq<(string, string)> := [
    ("video", "Video Streaming (TikTok/YouTube)"),
    ("social", "Social Media (WeChat/Weibo)"),
    ("navigation", "Navigation (Gaode Maps)"),
    ("browser", "Web Browsing (Chrome)"),
    ("music", "Music Playback (NetEase Cloud Music)")
  ]

  /** soc_levels. */
  const SocLevels: seq<real> := [1.0, 0.5, 0.2]

  /** The default max_hours of simulate_single_scenario. */
  const DefaultMaxHours: nat := 48

  /** Decimal digits of a natural number. */
  function NatToString(n: nat): string
    decreases n
  {
    var digit := ["0", "1", "2", "3", "4", "5", "6", "7", "8", "9"][n % 10];
    if n < 10 then digit else NatToString(n / 10) + digit
  }

  /** The key f'{int(soc * 100)}%'. */
  function SocKey(soc: real): string
    requires soc >= 0.0
  {
    NatToString((soc * 100.0).Floor) + "%"
  }

  /** The three keys, as the f-string writes them. */
  const SocLabels: seq<string> := ["100%", "50%", "20%"]

  lemma SocKeys()
    ensures forall j :: 0 <= j < |SocLevels| ==> SocKey(SocLevels[j]) == SocLabels[j]
  {
    assert (1.0 * 100.0).Floor == 100 && (0.5 * 100.0).Floor == 50 && (0.2 * 100.0).Floor == 20;
    assert NatToString(10) == "10";
    assert NatToString(100) == "100";
    assert NatToString(50) == "50";
    assert NatToString(20) == "20";
  }

  /** One app's entry of the results dictionary. */
  datatype BenchmarkEntry = BenchmarkEntry(description: string, tte: map<string, real>)

  /** The time-to-empty of one run of the grid, with its own draws. */
  function GridTte(ph: Phone, appKey: string, soc: real, draws: (string, real) -> int -> BrowseDraw): real
  {
    StaticTte(Drain(ph, appKey, draws(appKey, soc)), soc * ph.capacity, DefaultMaxHours)
  }

  /** An app's time-to-empty dictionary holds exactly the runs for the first
      m SOC levels. */
  predicate HasRuns(ph: Phone, tte: map<string, real>, appKey: string, m: nat,
                    draws: (string, real) -> int -> BrowseDraw)
    requires m <= |SocLevels|
  {
    tte.Keys == (set j | 0 <= j < m :: SocLabels[j]) &&
    forall j :: 0 <= j < m ==> tte[SocLabels[j]] == GridTte(ph, appKey, SocLevels[j], draws)
  }

  /** Adding the run for the next SOC level under its key extends the runs
      by that level. */
  lemma HasRunsExtend(ph: Phone, tte: map<string, real>, appKey: string, j: nat,
                      draws: (string, real) -> int -> BrowseDraw, r: real)
    requires j < |SocLevels| && HasRuns(ph, tte, appKey, j, draws)
    requires r == GridTte(ph, appKey, SocLevels[j], draws)
    ensures HasRuns(ph, tte[SocLabels[j] := r], appKey, j + 1, draws)
  {
    var next := tte[SocLabels[j] := r];
    assert forall k :: 0 <= k < j ==> SocLabels[k] != SocLabels[j];
    assert forall k :: 0 <= k < j ==> next[SocLabels[k]] == tte[SocLabels[k]];
    assert (set k | 0 <= k < j + 1 :: SocLabels[k]) == (set k | 0 <= k < j :: SocLabels[k]) + {SocLabels[j]};
  }

  /** The inner loop of run_benchmarks: one run per SOC level for one app. */
  method RunApp(ph: Phone, appKey: string, draws: (string, real) -> int -> BrowseDraw)
    returns (tte: map<string, real>)
    ensures HasRuns(ph, tte, appKey, |SocLevels|, draws)
  {
    tte := map[];
    SocKeys();
    for j := 0 to |SocLevels|
      invariant HasRuns(ph, tte, appKey, j, draws)
    {
      var soc := SocLevels[j];
      var r := SimulateSingleScenario(ph, appKey, soc, DefaultMaxHours, draws(appKey, soc));
      HasRunsExtend(ph, tte, appKey, j, draws, r);
      tte := tte[SocKey(soc) := r];
    }
  }

  /** No two app categories share a key. */
  predicate KeysDistinct(cats: seq<(string, string)>)
  {
    forall a, b :: 0 <= a < b < |cats| ==> cats[a].0 != cats[b].0
  }

  lemma AppKeysDistinct()
    ensures KeysDistinct(AppCategories)
  {
    forall a, b | 0 <= a < b < |AppCategories|
      ensures AppCategories[a].0 != AppCategories[b].0
    {
      assert AppCategories[a].0[0] != AppCategories[b].0[0];
    }
  }

  /** The results dictionary holds exactly the entries of the first m
      categories: each with its description and one run per SOC level. */
  predicate HasEntries(ph: Phone, cats: seq<(string, string)>, results: map<string, BenchmarkEntry>, m: nat,
                       draws: (string, real) -> int -> BrowseDraw)
    requires m <= |cats|
  {
    results.Keys == (set k | 0 <= k < m :: cats[k].0) &&
    forall k :: 0 <= k < m ==>
      results[cats[k].0].description == cats[k].1 &&
      HasRuns(ph, results[cats[k].0].tte, cats[k].0, |SocLevels|, draws)
  }

  /** Adding the entry of the next category extends the entries by it. */
  lemma HasEntriesExtend(ph: Phone, cats: seq<(string, string)>, results: map<string, BenchmarkEntry>, i: nat,
                         draws: (string, real) -> int -> BrowseDraw, tte: map<string, real>)
    requires i < |cats| && KeysDistinct(cats) && HasEntries(ph, cats, results, i, draws)
    requires HasRuns(ph, tte, cats[i].0, |SocLevels|, draws)
    ensures HasEntries(ph, cats, results[cats[i].0 := BenchmarkEntry(cats[i].1, tte)], i + 1, draws)
  {
    var appKey := cats[i].0;
    var next := results[appKey := BenchmarkEntry(cats[i].1, tte)];
    assert forall k :: 0 <= k < i ==> next[cats[k].0] == results[cats[k].0];
    assert (set k | 0 <= k < i + 1 :: cats[k].0) == (set k | 0 <= k < i :: cats[k].0) + {appKey};
  }

  /** output_data: the battery capacity Q_total, its units and the results. */
  datatype BenchmarkOutput = BenchmarkOutput(batteryCapacity: real, units: string,
                                             results: map<string, BenchmarkEntry>)

  /** run_benchmarks without the file write: Q_total, the units "hours" and
      one result per app category, with the category's description and one
      time-to-empty per SOC level, each run starting from its own
      soc * Q_total with the default horizon. */
  method RunBenchmarks(ph: Phone, draws: (string, real) -> int -> BrowseDraw)
    returns (output: BenchmarkOutput)
    ensures output.batteryCapacity == ph.capacity && output.units == "hours"
    ensures HasEntries(ph, AppCategories, output.results, |AppCategories|, draws)
  {
    var results: map<string, BenchmarkEntry>;
    results := map[];
    AppKeysDistinct();
    for i := 0 to |AppCategories|
      invariant HasEntries(ph, AppCategories, results, i, draws)
    {
      var (appKey, appDesc) := AppCategories[i];
      var appResults := RunApp(ph, appKey, draws);
      HasEntriesExtend(ph, AppCategories, results, i, draws, appResults);
      results := results[appKey := BenchmarkEntry(appDesc, appResults)];
    }
    output := BenchmarkOutput(ph.capacity, "hours", results);
  }
}
