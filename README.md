# Smartphone battery-drain simulator, modelled in Dafny

This project models the energy-simulation engine of the MCM2026 smartphone
battery study. The engine is built in four layers:

1. **Per-subsystem currents** (`core_model.py`). Display, Bluetooth,
   cellular, Wi-Fi and hotspot are each an `I` method over coefficients fixed
   in the constructor. Here each class is a datatype of its coefficients.
   Each `I` is a function returning a `Result` where the code can raise
   `KeyError`.
2. **Waypoint interpolation** (`interpolate_time_series`, which appears in
   `hotspot-code.py`, `wifi-code.py` and `blueteeth-code.py`) and the three
   waypoint-driven current functions built on it.
   - The numeric mode is `np.interp`: piecewise-linear with flat clamping.
   - The categorical mode is `np.argmin`: the nearest waypoint, with the
     first one winning a tie.
3. **App activity profiles** (`software_model.py`). These are the periodic
   duty-cycle functions of `get_activity`, the efficiency-factor table, the
   five app classes' `get_params` records and the `get_app` factory.
4. **The three fixed-step simulators**. Each subtracts `I * dt / 3600` mAh
   per step while time and charge remain:
   - `StaticBenchmark` (10 s steps, time-to-empty, the 5 × 3 benchmark grid);
   - `DynamicJourneySimulator` (15 s steps over journeys of app segments,
     a sample every 2 minutes, segment-index bookkeeping);
   - `BatterySimulator` of `test.py` (1 s steps, one record per hour).

The arithmetic is exact (`real`), and time is whole seconds (`int`). Every
time step in the code is whole.

- `np.exp` becomes a parameter `exp` with the hypothesis `ExpLike`
  (strictly positive and strictly increasing).
- Processor, memory, storage and sensor currents are imported by the
  simulators but defined nowhere in `core_model.py`. They are
  function-valued fields of `Hardware.Phone`.
- The web-browsing network activity is drawn at random. It is a
  `BrowseDraw` value supplied by the caller: one draw per second of a run
  (`draws: int -> BrowseDraw`).

Module `Integration` holds the charge integration the three loops share:
- `Charge`, the charge after n steps;
- `StopStep`, the first step at which the loop test fails.

Each simulation loop is a `method` with a `while` loop. Its invariants tie
its variables to a step function (`SimRun`, `RunState`). Its postcondition
ties its result to a specification function of the inputs, and the lemmas
beside it prove what the source promises about that function. The
summing code of `calculate_current*` is a method with one `+=` per
subsystem, proved equal to the specification sum.

At an exact segment boundary the earlier segment is active: the test
`elapsed_minutes <= cumulative` (scenario_dynamic_journey.py:154) keeps
minute 60 of journey_2 in its navigation segment
(`DynamicJourney.Journey2Lookups`). The journey loop keeps the source's
segment-change test, under which segment_index never leaves 0; the
corrected test is modelled beside it (see "## Findings").

## Model

| member | source | states |
|---|---|---|
| Hardware.Term | test.py:45-47 | a subsystem adds current * activity * eta only when its activity is positive, and never a negative amount for a non-negative current and eta |
| Hardware.TermScaled | test.py:45-47 | an active subsystem's share is its activity times current * eta |
| Hardware.TermMonotone | test.py:45-47 | a more active subsystem never contributes less |
| Hardware.CellularValue | scenario_static_benchmark.py:93-98 | the cellular current of a known network type is non-negative on a valid phone with a non-negative handoff rate |
| CoreModel.DisplayCurrent | core_model.py:21-22 | the display current is non-negative for non-negative base, coefficient and brightness |
| CoreModel.DisplayAffine | core_model.py:21-22 | the display current is its value at brightness 0 plus k / V per unit of brightness |
| CoreModel.DisplayMonotone | core_model.py:21-22 | with k >= 0 the display current never falls as brightness rises |
| CoreModel.DisplayReferencePoints | core_model.py:21-22 | the reference screen (7.8 at L = 0, 414 at L = 100, over 3.7 V) reads 7.8 / 3.7 at 0 and 414 / 3.7 at 100 |
| CoreModel.BluetoothPair | core_model.py:35-40 | the BLE pair is used exactly when mode is "ble"; any other mode uses the classic pair with the idle current looked up by class, and an unknown class is a KeyError |
| CoreModel.BluetoothCurrent | core_model.py:34-43 | succeeds exactly when the mode is "ble" or the class is known; gives the idle current at duty 0, the transmit current at duty 1, and a value between them for duty in [0, 1] |
| CoreModel.CellularStatic | core_model.py:57-62 | the static part exists exactly for "2G", "3G" and "4G"; every other network type is a KeyError |
| CoreModel.CellularCurrent | core_model.py:55-73 | succeeds exactly for the three known network types, and is non-negative for non-negative coefficients and handoff rate |
| CoreModel.CellularHandoffAffine | core_model.py:70-73 | the cellular current is affine in the handoff rate with slope k_handoff |
| CoreModel.CellularHandoffIncreasing | core_model.py:70-73 | with k_handoff > 0 a higher handoff rate gives a strictly higher current |
| CoreModel.CellularWeakerSignalCostsMore | core_model.py:65-73 | with k_rssi, alpha > 0 a weaker (more negative) RSSI gives a strictly higher current, as the check at cellular_test.py:318 expects |
| CoreModel.WifiBandCoefficient | core_model.py:105-109 | any band other than "2.4GHz" and "5GHz" falls back to 50 |
| CoreModel.WifiCurrent | core_model.py:92-115 | 0 when off and the scan peak when scanning, whatever the RSSI and band; when connected, strictly above the sleep current for a positive band coefficient |
| CoreModel.WifiWeakerSignalCostsLess | core_model.py:111-115 | the connected current strictly DECREASES as abs(rssi) grows, against the comment at line 111 |
| CoreModel.HotspotBandCoefficient | core_model.py:144-148 | any band other than "2.4GHz" and "5GHz" falls back to 45 |
| CoreModel.HotspotCurrent | core_model.py:132-154 | 0 when inactive; when active with non-negative coefficients and device count, at least the cellular current passed in |
| CoreModel.HotspotLinearInDevices | core_model.py:151-154 | an active hotspot's current is linear in the device count N with slope k * alpha |
| CoreModel.HotspotMonotoneInDevices | core_model.py:151-154 | with non-negative coefficients more devices never lower the current |
| Interpolation.LerpBetween | hotspot-code.py:48-49 | on a closed segment the line stays between its end values |
| Interpolation.LerpAsFraction | hotspot-code.py:48-49 | the line is v0 plus the fraction of the segment covered times the rise |
| Interpolation.InterpolateNumeric | hotspot-code.py:45-49 | for t up to the first time the result is the first value, and every result lies between the smallest and largest waypoint value |
| Interpolation.InterpolateAtWaypoint | hotspot-code.py:48-49 | at a waypoint time the numeric mode returns exactly that waypoint's value |
| Interpolation.InterpolateBetweenWaypoints | hotspot-code.py:48-49 | strictly between adjacent waypoints the result lies on the segment joining them, so between their values |
| Interpolation.InterpolateClampAbove | hotspot-code.py:48-49 | from the last waypoint time on the result is the last value |
| Interpolation.ValuesWithin | hotspot-code.py:45-46 | waypoint values that all lie in [lo, hi] have their minimum and maximum in [lo, hi] |
| Interpolation.InterpolateWithin | hotspot-code.py:48-49 | if every waypoint value lies in [lo, hi], so does every interpolated value |
| Interpolation.NearestIndex | hotspot-code.py:51 | the index found minimises abs(time - t), and every earlier index is strictly farther (the first minimiser) |
| Interpolation.InterpolateCategorical | hotspot-code.py:50-52 | the reading is always one of the sequence's own values |
| Interpolation.CategoricalTieGoesEarlier | hotspot-code.py:51-52 | in a strictly increasing sequence, halfway between two neighbouring waypoints the label of the earlier one wins |
| Interpolation.CategoricalTieExample | hotspot-code.py:51-52 | halfway between waypoints at 0 and 2 the reading is the label at 0 |
| Interpolation.CategoricalWithin | blueteeth-code.py:38-40 | if every waypoint carries a label from a set, so does every reading |
| HotspotSeries.ApBandCoefficient | hotspot-code.py:16-20 | k_ap exists exactly for "2.4GHz" and "5GHz" (KeyError otherwise) and is at least 45 |
| HotspotSeries.HotspotCurrentAt | hotspot-code.py:4-30 | fails exactly when the band read at t is unknown; with a non-negative device count it is at least I_cell(t) + 20 + 45 |
| HotspotSeries.HotspotSeriesMatchesCoreModel | hotspot-code.py:20-29 | the result is Hotspot.I of the core model, active, with ap_static 20, bands 45 / 75 and alpha 0.3, fed the interpolated inputs |
| HotspotSeries.HotspotSeriesMonotoneInDevices | hotspot-code.py:22-29 | a device count that reads higher at t never gives a lower hotspot current |
| HotspotSeries.KnownBandsNeverFail | hotspot-code.py:16-20 | a band sequence of known labels never raises KeyError |
| WifiSeries.WifiBandCoefficient | wifi-code.py:23-27 | k_wifi exists exactly for "2.4GHz" and "5GHz" (KeyError otherwise) and is at least 50 |
| WifiSeries.ScanCurrent | wifi-code.py:14-17 | the scan term is 120 exactly on the closed window from the first waypoint time to 3 s after it, and 0 elsewhere |
| WifiSeries.ConnectedCurrent | wifi-code.py:21-31 | the connected current 8 + k / exp(0.04 abs(rssi)) is strictly above 8 |
| WifiSeries.WifiCurrentWith | wifi-code.py:8-35 | fails exactly on an unknown band; 0 whenever the state read is not "1"; above scan + 8 when it is |
| WifiSeries.WifiCurrentAt | wifi-code.py:4-36 | calculate_wifi_current: KeyError exactly on an unknown band, 0 whenever the state read is not "1" (even inside the scan window), above the scan term + 8 when it is |
| WifiSeries.WifiSeriesMatchesCoreModel | wifi-code.py:14-35 | when on, the result is the scan term plus connected WiFi.I of the core model with sleep 8, bands 50 / 85 and beta 0.04; when off it is WiFi.I switched off |
| WifiSeries.KnownBandsNeverFail | wifi-code.py:23-27 | a band sequence of known labels never raises KeyError |
| WifiSeries.ExampleRssiIncreasing | wifi-code.py:57-59 | the example RSSI sequence is a valid numeric series |
| WifiSeries.ExampleScanNeverContributes | wifi-code.py:15 | with the example data, at every instant of the scan window the current is 0, so the scan peak never reaches the output |
| WifiSeries.SwitchOnTime | wifi-code.py:52-55 | the time of the first waypoint labelled "1", or None exactly when no waypoint is |
| WifiSeries.SwitchOnScanCurrent | wifi-code.py:14-17 | the scan term is 120 exactly on the 3 s window opening at switch-on, and 0 elsewhere or when Wi-Fi never switches on |
| WifiSeries.CorrectedWifiCurrentAt | wifi-code.py:4-36 | the Wi-Fi current with the window anchored at switch-on: same error and off cases, above the anchored scan term + 8 when on |
| WifiSeries.ExampleCorrectedScanContributes | wifi-code.py:53-55 | with the corrected window the example draws more than 120 + 8 just after switch-on |
| BluetoothSeries.ClassIdle | blueteeth-code.py:18-22 | the class map holds exactly "1", "2" and "3" (KeyError otherwise), class "1" giving 30 |
| BluetoothSeries.BluetoothCurrentAt | blueteeth-code.py:4-29 | fails exactly when the class read is unknown, in either mode; for a duty read in [0, 1] the BLE current lies in [1.2, 8] and the classic one between the class idle current and 25 |
| BluetoothSeries.BluetoothSeriesMatchesCoreModel | blueteeth-code.py:13-28 | where it succeeds the result is Bluetooth.I of the core model in "ble" mode for version "1" and classic mode otherwise |
| BluetoothSeries.UnknownClassFailsInBleMode | blueteeth-code.py:24-28 | an unknown class fails here even in BLE mode, where Bluetooth.I of the core model succeeds |
| BluetoothSeries.ClassOneDecreasesInDuty | blueteeth-code.py:18-24 | for Class 1 in classic mode a higher duty gives a strictly lower current |
| BluetoothSeries.UnitDutyWaypointsBound | blueteeth-code.py:8-28 | duty waypoints in [0, 1] and known classes give success at every t, within [1.2, 8] in BLE mode and [2, 30] in classic mode |
| SoftwareModel.EfficiencyFactorsAtLeastOne | software_model.py:14-41 | every efficiency factor in the table is at least 1 |
| SoftwareModel.DrawValue | software_model.py:77 | a browse draw is one of 0.0, 0.3 and 1.0 |
| SoftwareModel.Activity | software_model.py:45-110 | every activity of every app type on every hardware name lies in [0, 1] |
| SoftwareModel.ScreenPattern | software_model.py:47-62 | screen activity is 0 or 1, and 1 exactly for video when t mod 600 < 590, social when t mod 60 < 45, web when t mod 60 < 50, and always for navigation |
| SoftwareModel.ActivityShift | software_model.py:45-110 | shifting t by 600 s changes no activity |
| SoftwareModel.ActivityPeriodic | software_model.py:45-110 | every activity profile is periodic with period 600 s |
| SoftwareModel.ScreenPeriodic | software_model.py:48-59 | each screen cycle repeats after its own period (600 s video, 60 s social and web) |
| SoftwareModel.CpuFollowsScreen | software_model.py:82-88 | CPU activity is 0.3 for music; otherwise 0.8 exactly when the screen is on and 0.1 exactly when it is off |
| SoftwareModel.MemoryFollowsCpu | software_model.py:96-101 | memory activity is 0.09 for music and half the CPU activity otherwise, so 0.05 or 0.4 |
| SoftwareModel.GpsAndStorage | software_model.py:90-110 | GPS is 1 for navigation and 0 otherwise; storage is 1 exactly for social media at t mod 30 = 0; an unknown hardware name gives 0 |
| SoftwareModel.WebNetworkSupport | software_model.py:75-77 | web-browsing network activity is always one of 0, 0.3 and 1, and each value is reached by some draw |
| SoftwareModel.GetParams | software_model.py:114-346 | every record has activities in [0, 1], factors at least 1, network type "4G", and a storage flag set exactly when storage activity exceeds 0.5 |
| SoftwareModel.ActivityStorage | software_model.py:153-157 | the storage record of the video and social-media apps (the same block recurs at software_model.py:199-203): is_active exactly when the storage activity exceeds 0.5, with that activity and eta 1; GetParams states the flag for every record |
| SoftwareModel.ParamsFollowProfile | software_model.py:120-299 | for the four non-music apps the record's activities are the app type's profile, and the GPU's lies strictly between 0 and the CPU's |
| SoftwareModel.MusicParamsAgainstProfile | software_model.py:309-346 | the music record agrees with the "music" profile on screen, network and CPU, but its memory activity is 0.1 where the profile gives 0.09 |
| SoftwareModel.GetApp | software_model.py:350-359 | an app for exactly the five names, None for any other |
| SoftwareModel.GetAppDistinct | software_model.py:352-358 | distinct names give distinct apps with distinct app types |
| StaticBenchmark.CalculateCurrentForApp | scenario_static_benchmark.py:47-100 | the method's total is the specified current of the app the name selects, 0 for an unknown name |
| StaticBenchmark.AccumulateCurrent | scenario_static_benchmark.py:57-100 | the six `+=` steps add up to the specified sum over the subsystems with positive activity |
| StaticBenchmark.AppCurrentNonNegative | scenario_static_benchmark.py:47-100 | a valid phone never draws a negative total current |
| StaticBenchmark.ParamsCurrent | scenario_static_benchmark.py:57-100 | the specification of the sum: each subsystem with positive activity adds its base current * activity * eta, the GPU only through the CPU's processor call, the network at handoff rate 1; AppCurrentNonNegative, IdleParamsDrawNothing, GpuOnlyThroughCpu and ScreenActivityMonotone state its properties |
| StaticBenchmark.AppCurrent | scenario_static_benchmark.py:47-100 | calculate_current_for_app as a function: get_app, then the sum over the app's parameters at second t, and 0 for an unknown name; AppCurrentNonNegative and UnknownAppDrawsNothing state its properties |
| StaticBenchmark.UnknownAppDrawsNothing | scenario_static_benchmark.py:52-54 | an unknown app name draws 0 |
| StaticBenchmark.IdleParamsDrawNothing | scenario_static_benchmark.py:57-100 | a record with no positive activity draws 0 |
| StaticBenchmark.GpuOnlyThroughCpu | scenario_static_benchmark.py:65-72 | the GPU's activity and eta never matter, and while the CPU is idle neither do its frequency and load |
| StaticBenchmark.ScreenActivityMonotone | scenario_static_benchmark.py:60-62 | a more active screen, all else equal, never draws less on a valid phone |
| StaticBenchmark.MusicIgnoresDisplay | scenario_static_benchmark.py:60-62 | the music app's current does not depend on the display model |
| StaticBenchmark.SimulateSingleScenario | scenario_static_benchmark.py:102-129 | the loop's time-to-empty is StaticTte of the app's current from soc_initial * Q_total |
| StaticBenchmark.StaticTte | scenario_static_benchmark.py:108-127 | the time-to-empty before rounding: the seconds of the steps taken, in hours, when the charge ran out, and max_hours otherwise; TteWithinBound, EmptyBatteryTteZero, NoDrainLastsHorizon and ConstantDrainTte state its properties |
| StaticBenchmark.TteWithinBound | scenario_static_benchmark.py:124-127 | the time-to-empty is never negative and never above max_hours |
| StaticBenchmark.EmptyBatteryTteZero | scenario_static_benchmark.py:106-127 | a battery empty at the start reports 0 hours |
| StaticBenchmark.NoDrainLastsHorizon | scenario_static_benchmark.py:112-127 | with no current drawn a charged battery reports max_hours |
| StaticBenchmark.UnknownAppLastsHorizon | scenario_static_benchmark.py:52-54 | an unknown app with a positive SOC reports max_hours |
| StaticBenchmark.ConstantDrainTte | scenario_static_benchmark.py:112-127 | under a constant current i > 0 that empties the battery within the horizon, the time-to-empty is at least q0 / i hours and less than one 10 s step more |
| StaticBenchmark.SocKeys | scenario_static_benchmark.py:146-150 | the keys int(soc * 100) "%" of the three levels are "100%", "50%" and "20%" |
| StaticBenchmark.HasRunsExtend | scenario_static_benchmark.py:145-150 | storing the next level's run under its key extends the app's runs by that level |
| StaticBenchmark.RunApp | scenario_static_benchmark.py:143-151 | an app's dictionary holds exactly one time-to-empty per SOC level, each a fresh run from soc * Q_total |
| StaticBenchmark.AppKeysDistinct | scenario_static_benchmark.py:39-45 | no two app categories share a key |
| StaticBenchmark.HasEntriesExtend | scenario_static_benchmark.py:141-157 | storing the next category's entry extends the results by it and keeps the earlier ones |
| StaticBenchmark.RunBenchmarks | scenario_static_benchmark.py:131-172 | the output carries Q_total as battery capacity and "hours" as units; its results hold exactly the five categories, each with its description and one time-to-empty per SOC level |
| DynamicJourney.PrefixMonotone | scenario_dynamic_journey.py:151-153 | the cumulative duration never decreases along the segments |
| DynamicJourney.Total | scenario_dynamic_journey.py:134 | total_duration: the summed segment minutes times 60; JourneyMinutes and JourneyDurations state its values |
| DynamicJourney.JourneyMinutes | scenario_dynamic_journey.py:37-74 | journeys 1, 2 and 4 last 240 minutes; journey 3 lasts 300, though the comment at line 36 says every journey lasts 4 hours |
| DynamicJourney.CoveringFrom | scenario_dynamic_journey.py:152-155 | a segment found from index i on is a valid index at or after i |
| DynamicJourney.CoveringFromFirst | scenario_dynamic_journey.py:152-156 | the segment found is the first whose cumulative duration reaches the elapsed minutes, and none does when none is found |
| DynamicJourney.GetCurrentApp | scenario_dynamic_journey.py:149-156 | the accumulating loop returns CurrentApp's answer |
| DynamicJourney.CurrentAppInSegment | scenario_dynamic_journey.py:150-155 | from just after segment i's start to its end inclusive, the lookup returns segment i and its start minute, so an exact boundary goes to the earlier segment |
| DynamicJourney.CurrentApp | scenario_dynamic_journey.py:149-156 | get_current_app as a function: the app and start minute of the first segment whose cumulative minutes reach the elapsed minutes, ('music', 0) past the end; GetCurrentApp, CurrentAppInSegment and CurrentAppAfterEnd state its behaviour |
| DynamicJourney.Schedule | scenario_dynamic_journey.py:149-156 | get_current_app bound to one journey's segments, the lookup the loop calls at every pass; JourneyCurrentLink and CurrentAppInSegment state what it returns |
| DynamicJourney.StartBeforeSecond | scenario_dynamic_journey.py:149-156 | a lookup that resolves a start minute other than 0 is made strictly after that minute |
| DynamicJourney.CurrentAppAfterEnd | scenario_dynamic_journey.py:156 | past the last segment the lookup returns ("music", 0) |
| DynamicJourney.Journey2Lookups | scenario_dynamic_journey.py:46-54 | on journey_2, minutes 59 and 60 are navigation, minute 61 is social from minute 60, and minute 241 is past the end |
| DynamicJourney.TrackerStep | scenario_dynamic_journey.py:165-169 | the index moves on by exactly one iff t = 0 or t is within one step of the resolved start, and that start exceeds the current one, which it then becomes |
| DynamicJourney.TrackerMonotone | scenario_dynamic_journey.py:159-169 | segment_index never decreases and grows by at most one per step |
| DynamicJourney.TrackerStartGrows | scenario_dynamic_journey.py:159-169 | current_segment_start never decreases, and strictly grows whenever the index does |
| DynamicJourney.Tracker | scenario_dynamic_journey.py:159-169 | (segment_index, current_segment_start) after n loop passes; TrackerMonotone, TrackerStartGrows and SegmentIndexStaysZero state its properties |
| DynamicJourney.TrackerStepIdle | scenario_dynamic_journey.py:163-169 | at a whole number of 15 s steps, with the current start still 0, the update as written changes nothing |
| DynamicJourney.SegmentIndexStaysZero | scenario_dynamic_journey.py:159-169 | on any segments, segment_index and current_segment_start are still 0 after every number of passes |
| DynamicJourney.CorrectedTrackerStep | scenario_dynamic_journey.py:165-169 | the update with `<=` in place of `<`: the index moves on by exactly one iff t = 0 or t is at most one step after the resolved start, and that start exceeds the current one, which it then becomes |
| DynamicJourney.CorrectedTracker | scenario_dynamic_journey.py:159-169 | the bookkeeping after n passes with the corrected test; CorrectedTrackerFollowsSegments states what it computes |
| DynamicJourney.TableDurationsPositive | scenario_dynamic_journey.py:37-74 | every segment of the journeys table lasts at least a minute |
| DynamicJourney.PrefixStrict | scenario_dynamic_journey.py:151-153 | with positive durations each segment starts strictly after the one before |
| DynamicJourney.CorrectedFirstStep | scenario_dynamic_journey.py:163-169 | the pass at second 0 resolves segment 0 with start 0, so the corrected bookkeeping stays (0, 0) |
| DynamicJourney.LookupInSegment | scenario_dynamic_journey.py:149-156 | a second strictly after segment i's start and no later than its end resolves to segment i and its start minute |
| DynamicJourney.CorrectedTrackerFollowsSegments | scenario_dynamic_journey.py:159-169 | with the corrected test and positive durations, the pass starting within segment i (or the first pass, for segment 0) leaves index i and the start minute of segment i |
| DynamicJourney.Journey2SegmentChange | scenario_dynamic_journey.py:159-169 | on journey_2 after the pass at 60 min 15 s the index as written is still 0, while the corrected index is 1 with start minute 60 |
| DynamicJourney.JourneyCurrentLink | scenario_dynamic_journey.py:163-172 | the current at second t is calculate_current of the app the lookup resolves |
| DynamicJourney.StepCurrent | scenario_dynamic_journey.py:163-172 | calculate_current as the loop calls it: the current of the resolved app at that second, with that second's web-browsing draw; JourneyCurrentLink and JourneyCurrentNonNegative state its properties |
| DynamicJourney.SocPercent | scenario_dynamic_journey.py:180 | the recorded SOC is max(0, Q / Q_total * 100): non-negative, the percentage while charge remains, 0 once it is gone |
| DynamicJourney.Record | scenario_dynamic_journey.py:179-183 | appending a sample keeps the five lists of equal length, one longer |
| DynamicJourney.RecordFacts | scenario_dynamic_journey.py:179-183 | a sample lands at the end of each list and leaves the earlier entries alone |
| DynamicJourney.SamplesKept | scenario_dynamic_journey.py:178-183 | appending a record keeps the samples already matched |
| DynamicJourney.SamplesExtend | scenario_dynamic_journey.py:178-183 | recording the next sample keeps the trace matching its description |
| DynamicJourney.SamplesSorted | scenario_dynamic_journey.py:183 | recorded segment indices never decrease and never exceed the current index |
| DynamicJourney.SampleCount | scenario_dynamic_journey.py:178 | a step records a sample exactly when it starts at a multiple of 120 s, and s samples mean 8 s - 8 < n <= 8 s steps |
| DynamicJourney.StepState | scenario_dynamic_journey.py:163-186 | one pass of the loop body keeps the five lists aligned |
| DynamicJourney.RunState | scenario_dynamic_journey.py:162-186 | the loop's lists are aligned after any number of passes |
| DynamicJourney.RunCharge | scenario_dynamic_journey.py:175 | after n passes Q is the integrated charge of the current drawn, each step subtracting I_now * 15 / 3600 |
| DynamicJourney.RunTracker | scenario_dynamic_journey.py:159-169 | after n passes the segment bookkeeping is the tracker's |
| DynamicJourney.RunSamples | scenario_dynamic_journey.py:178-183 | after n passes there is one sample per 2-minute mark reached, each with that step's time, SOC, current, app and index |
| DynamicJourney.SamplesStep | scenario_dynamic_journey.py:163-186 | one pass keeps the samples matching, recording one exactly at a multiple of 120 s |
| DynamicJourney.SamplesRecord | scenario_dynamic_journey.py:177-183 | a pass starting at a multiple of 120 s appends exactly one sample, the one for its 2-minute mark with the post-decrement SOC, its current, app and index, and keeps the earlier ones |
| DynamicJourney.RunSteps | scenario_dynamic_journey.py:162 | the step count from pass n on is at least n |
| DynamicJourney.RunStepsStop | scenario_dynamic_journey.py:162 | the loop stops at the first step whose start is past total or whose charge is no longer positive |
| DynamicJourney.JourneyLoop | scenario_dynamic_journey.py:159-186 | the while loop takes RunSteps passes and ends in the state RunState describes |
| DynamicJourney.CloseTrace | scenario_dynamic_journey.py:189-195 | the closing record keeps the lists aligned |
| DynamicJourney.LoopTrace | scenario_dynamic_journey.py:159-195 | the returned lists are aligned |
| DynamicJourney.CloseTraceFacts | scenario_dynamic_journey.py:189-195 | the closing record (time min(t, total), current 0, app "end") is added exactly when nothing was recorded or the last time is before total, and earlier records stay |
| DynamicJourney.OrderedAfterClose | scenario_dynamic_journey.py:189-195 | adding one later record with an index no smaller and a non-negative SOC keeps a trace ordered |
| DynamicJourney.LoopEnd | scenario_dynamic_journey.py:159-186 | at loop end Q is the charge after StopStep steps, the index the tracker's, and the lists hold (k + 7) / 8 matching samples |
| DynamicJourney.SamplesIncrease | scenario_dynamic_journey.py:178-183 | sample times strictly increase, the last at 120 (s - 1) s, and no sampled SOC is negative |
| DynamicJourney.LoopTraceShape | scenario_dynamic_journey.py:159-195 | the returned lists are the (k + 7) / 8 samples followed by the closing record exactly when nothing was sampled or the last sample is before total |
| DynamicJourney.ClosedShape | scenario_dynamic_journey.py:189-195 | closing s samples keeps them and adds the closing record exactly when s = 0 or the sample at 120 (s - 1) s is before total |
| DynamicJourney.LoopTraceOrdered | scenario_dynamic_journey.py:159-195 | the returned times strictly increase, indices never decrease and no SOC is negative |
| DynamicJourney.ClosedOrdered | scenario_dynamic_journey.py:189-195 | closing a trace of samples past its last sample time gives an ordered trace |
| DynamicJourney.RunJourney | scenario_dynamic_journey.py:197-210 | the result carries the journey's id, name, description and segments, and total_duration is the summed minutes * 60 / 3600 |
| DynamicJourney.JourneyOutcome | scenario_dynamic_journey.py:133 | an id missing from the journeys table is exactly the KeyError case |
| DynamicJourney.SimulateSegments | scenario_dynamic_journey.py:134-210 | the method's result is RunJourney of the journey |
| DynamicJourney.SimulateJourney | scenario_dynamic_journey.py:128-210 | the method's result is JourneyOutcome, a KeyError for an unknown id |
| DynamicJourney.EnergyFormula | scenario_dynamic_journey.py:207 | energy_used is soc_initial * Q_total - Q while charge remains and soc_initial * Q_total once the battery is empty |
| DynamicJourney.EnergyUsed | scenario_dynamic_journey.py:207 | energy_used from soc_initial and final_soc; EnergyFormula and JourneyEnergy state what it comes to |
| DynamicJourney.SocPercentMonotone | scenario_dynamic_journey.py:180 | the recorded SOC grows with the charge |
| DynamicJourney.SocPercentOfInitial | scenario_dynamic_journey.py:137 | the initial charge soc_initial * Q_total reads as soc_initial * 100 percent |
| DynamicJourney.JourneyEnergy | scenario_dynamic_journey.py:206-207 | final_soc is the SOC at which the loop stopped, and energy_used the charge drawn, or all of it once the battery is empty |
| DynamicJourney.JourneyEnergyBounds | scenario_dynamic_journey.py:206-207 | with non-negative currents energy_used lies in [0, soc_initial * Q_total] and final_soc never exceeds the initial SOC |
| DynamicJourney.JourneyCurrentNonNegative | scenario_dynamic_journey.py:76-126 | a valid phone draws a non-negative current at every second of any journey |
| DynamicJourney.JourneyDurations | scenario_dynamic_journey.py:134 | total_duration is 4 hours for journeys 1, 2 and 4 and 5 hours for journey 3 |
| DynamicJourney.RunJourneyOrdered | scenario_dynamic_journey.py:159-210 | the trace of any journey run is ordered |
| DynamicJourney.JourneyTraceOrdered | scenario_dynamic_journey.py:128-210 | for every journey of the table the returned times strictly increase, indices never decrease and no SOC is negative |
| DynamicJourney.SampledSegmentsZero | scenario_dynamic_journey.py:178-183 | every 2-minute sample of a journey run records segment index 0 |
| DynamicJourney.LoopSegmentsZero | scenario_dynamic_journey.py:159-195 | the lists the loop and the closing record leave hold segment index 0 only |
| DynamicJourney.RunSegmentsZero | scenario_dynamic_journey.py:159-195 | whatever the journey and currents, every segment index the run records, the closing record's included, is 0 |
| DynamicJourney.JourneySegmentsAllZero | scenario_dynamic_journey.py:128-210 | the segments list simulate_journey returns for any journey of the table is all zeros |
| DynamicJourney.JourneyStops | scenario_dynamic_journey.py:162 | the loop stops once a step would start past the end or the charge is gone, its last step starts within the journey, and a journey started with charge takes a step |
| DynamicJourney.JourneyIdsAreKeys | scenario_dynamic_journey.py:221 | the ids visited are exactly the table's keys |
| DynamicJourney.SimulateAllJourneys | scenario_dynamic_journey.py:212-236 | one result per journey of the table, each simulate_journey from the same soc_initial, plus soc_initial and the capacity |
| BatterySimulator.CalculateCurrent | test.py:36-105 | the method's total is the specified current of the app at second t |
| BatterySimulator.SimCurrent | test.py:36-105 | calculate_current(t, app): the app's parameters at second t fed to the seven-term sum SimParamsCurrent; CalculateCurrent is proved equal to it, and SimCurrentNonNegative and SimDrainNonNegative state its sign |
| BatterySimulator.SumTerms | test.py:41-105 | the seven `+=` steps add up to the specified sum |
| BatterySimulator.SimCurrentNonNegative | test.py:36-105 | a valid phone never draws a negative total current |
| BatterySimulator.SimParamsCurrent | test.py:41-105 | the specification of the seven-term sum: 0.7 of the processor current at GPU frequency and load 0, a separate GPU term, handoff rate 0.1; SimCurrentNonNegative, SimIdleParamsDrawNothing, SimGpuSeparate, SimCpuOnly and SimNetworkOnly state its properties |
| BatterySimulator.SimIdleParamsDrawNothing | test.py:41-105 | a record with no positive activity draws 0 |
| BatterySimulator.SimGpuSeparate | test.py:53-72 | the GPU's frequency and load matter only while its activity is positive; they never enter the CPU term |
| BatterySimulator.SimCpuOnly | test.py:50-61 | with only the CPU active the current is 0.7 * processor(f, load, 0, 0) * activity * eta |
| BatterySimulator.SimNetworkOnly | test.py:90-97 | with only the network active the current is the cellular current at handoff rate 0.1, times activity and eta |
| BatterySimulator.SimSteps | test.py:131 | the step count from pass n on is at least n |
| BatterySimulator.SimRunCharge | test.py:133-138 | after n passes the remaining charge is the integrated charge, each step subtracting I * 1 / 3600 |
| BatterySimulator.SimStepsStop | test.py:131 | the loop stops at the first step with no charge left or t not below the limit |
| BatterySimulator.RunLink | test.py:131-151 | the run the loop makes stops at StopStep with the integration's charge |
| BatterySimulator.HourBoundary | test.py:141-142 | a step records exactly when it starts on a whole hour, and then its hour is that whole number |
| BatterySimulator.HourlyRecordsShape | test.py:141-149 | after n passes there is one record per hour started, the j-th taken at hour j with the charge after that step's decrement |
| BatterySimulator.SimulateLoop | test.py:125-151 | the while loop takes SimSteps passes and ends in the state SimRun describes |
| BatterySimulator.SimRun | test.py:125-151 | remaining_charge and hourly_records after n passes; SimRunCharge and HourlyRecordsShape state what they hold |
| BatterySimulator.SimStep | test.py:131-151 | one pass of the loop body at second t: remaining_charge drops by the current times dt / 3600, and an hourly record of the new charge is appended exactly when t mod 3600 < dt; HourBoundary and HourlyRecordsShape state what the records come to |
| BatterySimulator.InitialCharge | test.py:121 | the initial charge is start_soc percent of the capacity: positive for a positive start_soc |
| BatterySimulator.SimulateRun | test.py:121-169 | the method's report is RunReport of the initial charge |
| BatterySimulator.RunReport | test.py:158-169 | the report of a run: end_soc, total_hours, total_minutes, avg_current and hourly_data; ReportEnd, ReportSocFalls, ReportAvg and ReportHourly state its properties |
| BatterySimulator.SimulateOutcome | test.py:114-118 | the outcome is the number 0 exactly for an unknown app name |
| BatterySimulator.Simulate | test.py:107-169 | the method's result is SimulateOutcome |
| BatterySimulator.RunLength | test.py:131 | the run takes at most `limit` steps, stopping early only with an empty battery, and at least one with charge and a positive limit |
| BatterySimulator.SocPercentFacts | test.py:143 | a positive charge is a positive percentage, and the percentage grows with the charge |
| BatterySimulator.SocPercent | test.py:143 | the unclamped percentage (remaining / capacity) * 100 of the hourly records, unlike the clamped one of the journey simulator; SocPercentFacts states its sign and monotonicity |
| BatterySimulator.ReportEnd | test.py:159-166 | total_hours lies in [0, max_hours] and is max_hours unless the battery emptied; end_soc is non-negative and 0 exactly when the battery is empty |
| BatterySimulator.ReportSocFalls | test.py:164 | under non-negative currents end_soc never exceeds the starting percentage |
| BatterySimulator.ChargeIsSum | test.py:137-138 | with 1 s steps the charge drawn is the sum of the currents over 3600 |
| BatterySimulator.MeanOverHours | test.py:167 | drawing sum / 3600 over n seconds is a mean current of sum / n |
| BatterySimulator.ReportAvg | test.py:167 | avg_current is the charge drawn over the hours run whenever a step was taken |
| BatterySimulator.RunMean | test.py:167 | the charge drawn over the hours run is the mean per-second current |
| BatterySimulator.AvgIsMeanCurrent | test.py:167 | avg_current is the mean of the per-second currents of the run |
| BatterySimulator.CurrentSumConstant | test.py:131-138 | under a constant current n seconds sum to n times it |
| BatterySimulator.AvgOfConstantCurrent | test.py:167 | under a constant current a run of positive length reports that current as its average |
| BatterySimulator.MeanOfConstant | test.py:167 | n equal currents average to that current |
| BatterySimulator.ReportHourly | test.py:141-149 | hourly_data holds (k + 3599) / 3600 records, the j-th taken at hour j, each before the end of the run |
| BatterySimulator.SimDrainNonNegative | test.py:36-105 | a valid phone draws a non-negative current at every second |
| BatterySimulator.SimulateSocFalls | test.py:107-169 | on a valid phone simulate never reports an end_soc above start_soc |
| BatterySimulator.SimulateDuration | test.py:159-166 | total_hours never exceeds max_hours, total_minutes is 60 times it, and a run with charge and a positive horizon lasts a positive time |
| Integration.LastAdmitted | scenario_static_benchmark.py:112 | a loop time test admits exactly the seconds up to its last admitted one |
| Integration.ChargeNext | scenario_static_benchmark.py:117 | one more step subtracts the current at its start times dt / 3600 |
| Integration.Charge | scenario_static_benchmark.py:117 | the charge after n steps of `Q -= I * dt / 3600`, the update shared with scenario_dynamic_journey.py:175 and test.py:137-138; ChargeNext, ChargeNonIncreasing and ChargeConstant state its properties |
| Integration.StopStep | scenario_static_benchmark.py:112-121 | the stopping step is the first from n on at which the loop test fails: every earlier step passed it |
| Integration.StopStepUnique | scenario_static_benchmark.py:112-121 | a loop that passes its test up to k and fails at k stops exactly at k |
| Integration.StopStepBounds | scenario_static_benchmark.py:112-121 | the last step taken passed both tests, a start within the bound with charge takes a step, and at the stop the time test fails or the charge is gone |
| Integration.ChargeNonIncreasing | scenario_static_benchmark.py:117 | with non-negative currents the charge never increases |
| Integration.ChargeConstant | scenario_static_benchmark.py:117 | under a constant current i the charge after n steps is q0 - n * i * dt / 3600 |

## Left out

- `np.exp` is not modelled. Every formula that uses it takes a function
  `exp` that is strictly positive and strictly increasing (`Common.ExpLike`).
- IEEE floating point is not modelled: all arithmetic is exact `real`.
- StaticBenchmark.SimulateSingleScenario: returns the time-to-empty before
  `round(tte_hours, 2)`; the rounding is not modelled.
- The probabilities of the web-browsing draw (0.7, 0.2, 0.1) are not
  modelled. The caller supplies the draw; only its support {0, 0.3, 1} is
  modelled (`SoftwareModel.BrowseDraw`).
- Processor, Memory, Storage and Sensors are imported but defined nowhere in
  `core_model.py`. They are functions supplied with the phone, and
  `Hardware.ValidPhone` makes them non-negative.
- The coefficients read from the configuration are parameters of the core
  model datatypes. They are not bound to `config.py`, whose keys do not
  match the ones `Display` and `Bluetooth` read.
- The console output is not modelled, including the progress print of
  `test.py:154-156`. Neither are the JSON writes (the static and dynamic
  scenarios), the `main` functions, the `sys.path` edits and the plotting
  blocks of the `*-code.py` files. `plot_results.py` is not part of this
  model.
- `cellular_test.py` duplicates `Cellular.I` and is not modelled. Its
  expectation that a worse signal costs more is proved as
  `CoreModel.CellularWeakerSignalCostsMore`.
- `interpolate_time_series` appears three times, and `calculate_current`
  of the journey simulator is the same code as `calculate_current_for_app`.
  Each is modelled once: `Interpolation`, and `StaticBenchmark.AppCurrent`
  (used by the journey).
- Interpolation.InterpolateNumeric: requires a non-empty sequence with
  strictly increasing times. `np.interp` needs increasing times and gives
  no defined answer otherwise. An empty sequence raises in numpy; here it
  is a precondition, as it is for `InterpolateCategorical`.
- The loop methods take the current the loop calls as a function argument:
  `SimulateLoop`, `JourneyLoop` and the journey's `currentOf`. The rest of
  each simulator fixes that function to the app-driven current.
- `max_hours` is a natural number. The source passes whole hours (24 and 48).
- SoftwareModel.Activity: takes whole seconds. The music network tests
  `t % 30 < 0.1` and `< 0.5` pick the same seconds there.
- `RunBenchmarks` returns `output_data` but leaves out the JSON file
  it is written to, which is I/O.

## Findings

| source | as written | input that shows it | evidently intended | confidence | as-written member | corrected member |
|---|---|---|---|---|---|---|
| wifi-code.py:15 | the scan window opens at the first waypoint time, `S_wifi_seq[0][0]` | the example sequence of wifi-code.py:53-55: the window is [0 h, 3 s] and the state there is '0', so the 120 mA scan peak never reaches the output | anchor the window at the first waypoint labelled '1' (1.00083 h in the example); the comments at wifi-code.py:52-54 place the switch-on and its scan at 1 h | not executed | WifiSeries.ExampleScanNeverContributes | WifiSeries.CorrectedWifiCurrentAt |
| scenario_dynamic_journey.py:166 | the segment-change test `(t_seconds - segment_start * 60) < dt` | any journey: durations are whole minutes and dt = 15, so the first pass that resolves a segment starting at minute S > 0 is at t = 60 S + 15, where t - 60 S = 15 is not below dt; journey_2 at 3615 s still reports index 0, and every returned `segments` entry is 0 | `<= dt`, so that segment_index counts the segments entered | not executed | DynamicJourney.SegmentIndexStaysZero | DynamicJourney.CorrectedTrackerFollowsSegments |
