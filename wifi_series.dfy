/** calculate_wifi_current of wifi-code.py: the Wi-Fi current at time t (hours)
    from an on/off label sequence, an RSSI sequence and a band sequence,
    with a scan window of scan_duration seconds. */
module WifiSeries {
  import opened Common
  import opened Interpolation
  import CoreModel

  const ScanPeak: real := 120.0
  const SleepCurrent: real := 8.0
  const Beta: real := 0.04
  /** The default scan_duration, in seconds. */
  const DefaultScanDuration: real := 3.0

  /** k_wifi_map: 50 for "2.4GHz", 85 for "5GHz"; any other label raises KeyError. */
  function WifiBandCoefficient(band: string): (r: Result<real>)
    ensures r.Ok? <==> band in {"2.4GHz", "5GHz"}
    ensures r.Ok? ==> r.value >= 50.0
  {
    if band == "2.4GHz" then Ok(50.0)
    else if band == "5GHz" then Ok(85.0)
    else Err(KeyError(band))
  }

  /** The scan term as written: the peak current exactly on the closed window
      that opens at the FIRST waypoint time of the on/off sequence and lasts
      scanDuration seconds, and 0 elsewhere. */
  function ScanCurrent(t: real, stateSeq: seq<(real, string)>, scanDuration: real): (r: real)
    requires |stateSeq| > 0
    ensures r == ScanPeak <==> stateSeq[0].0 <= t <= stateSeq[0].0 + scanDuration / 3600.0
    ensures r == 0.0 || r == ScanPeak
  {
    var scanStart := stateSeq[0].0;
    var scanEnd := scanStart + scanDuration / 3600.0;
    if scanStart <= t <= scanEnd then ScanPeak else 0.0
  }

  /** The current drawn while connected: 8 + k / exp(0.04 * |rssi|). */
  function ConnectedCurrent(exp: real -> real, k: real, rssi: real): (r: real)
    requires ExpLike(exp) && k > 0.0
    ensures r > SleepCurrent
  {
    var e := exp(Beta * Abs(rssi));
    ExpPositive(exp, Beta * Abs(rssi));
    assert k / e > 0.0;
    SleepCurrent + k / e
  }

  /** Combines the scan term with the state and band read at t. The band
      lookup happens whatever the state, so an unknown band label fails even
      while Wi-Fi is off; otherwise the current is 0 unless the state read at t
      is "1", and when it is, it is the scan term plus a connected current
      strictly above the sleep current. */
  function WifiCurrentWith(exp: real -> real, t: real, scan: real, stateSeq: seq<(real, string)>,
                           rssiSeq: seq<(real, real)>, bandSeq: seq<(real, string)>): (r: Result<real>)
    requires ExpLike(exp) && |stateSeq| > 0 && NumericSeries(rssiSeq) && |bandSeq| > 0
    ensures r.Ok? <==> InterpolateCategorical(t, bandSeq) in {"2.4GHz", "5GHz"}
    ensures r.Ok? && InterpolateCategorical(t, stateSeq) != "1" ==> r.value == 0.0
    ensures r.Ok? && InterpolateCategorical(t, stateSeq) == "1" ==> r.value > scan + SleepCurrent
  {
    var state := InterpolateCategorical(t, stateSeq);
    var rssi := InterpolateNumeric(t, rssiSeq);
    var band := InterpolateCategorical(t, bandSeq);
    match WifiBandCoefficient(band)
    case Err(e) => Err(e)
    case Ok(k) =>
      var conn := ConnectedCurrent(exp, k, rssi);
      Ok(if state == "1" then scan + conn else 0.0)
  }

  /** calculate_wifi_current as written. */
  function WifiCurrentAt(exp: real -> real, t: real, stateSeq: seq<(real, string)>,
                         rssiSeq: seq<(real, real)>, bandSeq: seq<(real, string)>,
                         scanDuration: real): (r: Result<real>)
    requires ExpLike(exp) && |stateSeq| > 0 && NumericSeries(rssiSeq) && |bandSeq| > 0
    ensures r.Ok? <==> InterpolateCategorical(t, bandSeq) in {"2.4GHz", "5GHz"}
    ensures r.Ok? && InterpolateCategorical(t, stateSeq) != "1" ==> r.value == 0.0
    ensures r.Ok? && InterpolateCategorical(t, stateSeq) == "1" ==>
            r.value > ScanCurrent(t, stateSeq, scanDuration) + SleepCurrent
  {
    WifiCurrentWith(exp, t, ScanCurrent(t, stateSeq, scanDuration), stateSeq, rssiSeq, bandSeq)
  }

  /** When the state read at t is "1", the waypoint model is the scan term plus
      WiFi.I of the core model, connected and not scanning, with sleep current 8,
      band coefficients 50 / 85 and beta 0.04; otherwise it is WiFi.I switched off. */
  lemma WifiSeriesMatchesCoreModel(exp: real -> real, t: real, stateSeq: seq<(real, string)>,
                                   rssiSeq: seq<(real, real)>, bandSeq: seq<(real, string)>,
                                   scanDuration: real)
    requires ExpLike(exp) && |stateSeq| > 0 && NumericSeries(rssiSeq) && |bandSeq| > 0
    requires WifiCurrentAt(exp, t, stateSeq, rssiSeq, bandSeq, scanDuration).Ok?
    ensures var w := CoreModel.WiFi(ScanPeak, SleepCurrent, 50.0, 85.0, Beta);
            var isOn := InterpolateCategorical(t, stateSeq) == "1";
            WifiCurrentAt(exp, t, stateSeq, rssiSeq, bandSeq, scanDuration).value
            == (if isOn then ScanCurrent(t, stateSeq, scanDuration) else 0.0)
               + CoreModel.WifiCurrent(w, exp, isOn, InterpolateNumeric(t, rssiSeq),
                                       InterpolateCategorical(t, bandSeq), false)
  {
  }

  /** A band sequence that only carries known labels never raises KeyError. */
  lemma KnownBandsNeverFail(exp: real -> real, t: real, stateSeq: seq<(real, string)>,
                            rssiSeq: seq<(real, real)>, bandSeq: seq<(real, string)>,
                            scanDuration: real)
    requires ExpLike(exp) && |stateSeq| > 0 && NumericSeries(rssiSeq) && |bandSeq| > 0
    requires forall i :: 0 <= i < |bandSeq| ==> bandSeq[i].1 in {"2.4GHz", "5GHz"}
    ensures WifiCurrentAt(exp, t, stateSeq, rssiSeq, bandSeq, scanDuration).Ok?
  {
    CategoricalWithin(bandSeq, t, {"2.4GHz", "5GHz"});
  }

  // ------------------------------------------------------------ example data

  /** The example on/off sequence: off until hour 1, on from 1.00083 h on. */
  const ExampleState: seq<(real, string)> := [(0.0, "0"), (1.0, "0"), (1.00083, "1"), (5.0, "1")]
  const ExampleRssi: seq<(real, real)> :=
    [(1.0, -85.0), (2.0, -85.0), (2.1, -50.0), (3.0, -50.0), (3.1, -65.0), (5.0, -65.0)]
  const ExampleBands: seq<(real, string)> :=
    [(1.0, "2.4GHz"), (3.0, "2.4GHz"), (3.1, "5GHz"), (5.0, "5GHz")]

  lemma ExampleRssiIncreasing()
    ensures NumericSeries(ExampleRssi)
  {
  }

  /** As written, the scan window of the example opens at hour 0, where Wi-Fi
      is off: at every instant of the window the current is 0, so the scan
      peak never reaches the output. */
  lemma ExampleScanNeverContributes(exp: real -> real, t: real)
    requires ExpLike(exp)
    requires ScanCurrent(t, ExampleState, DefaultScanDuration) == ScanPeak
    ensures WifiCurrentAt(exp, t, ExampleState, ExampleRssi, ExampleBands, DefaultScanDuration) == Ok(0.0)
  {
    ExampleRssiIncreasing();
    var i := NearestIndex(t, ExampleState);
    assert 0.0 <= t <= 1.0 / 1200.0;
    assert Abs(ExampleState[i].0 - t) <= Abs(ExampleState[0].0 - t);
    assert i < 2;
    assert InterpolateCategorical(t, ExampleState) == "0";
    KnownBandsNeverFail(exp, t, ExampleState, ExampleRssi, ExampleBands, DefaultScanDuration);
  }

  // ---------------------------------------------------------- corrected scan

  /** The time of the first waypoint whose label is "1": when Wi-Fi switches on. */
  function SwitchOnTime(stateSeq: seq<(real, string)>): (r: Option<real>)
    ensures r.None? <==> forall i :: 0 <= i < |stateSeq| ==> stateSeq[i].1 != "1"
    ensures r.Some? ==> exists i :: 0 <= i < |stateSeq| && stateSeq[i].1 == "1" && stateSeq[i].0 == r.value &&
                                    forall j :: 0 <= j < i ==> stateSeq[j].1 != "1"
  {
    if |stateSeq| == 0 then None
    else if stateSeq[0].1 == "1" then Some(stateSeq[0].0)
    else
      var rest := SwitchOnTime(stateSeq[1..]);
      assert forall i :: 1 <= i < |stateSeq| ==> stateSeq[i] == stateSeq[1..][i - 1];
      rest
  }

  /** The scan term anchored at switch-on, as the example's comments describe
      it: the peak current on the closed window of scanDuration seconds that
      opens when Wi-Fi first switches on, and 0 elsewhere or if it never does. */
  function SwitchOnScanCurrent(t: real, stateSeq: seq<(real, string)>, scanDuration: real): (r: real)
    ensures r == ScanPeak <==> SwitchOnTime(stateSeq).Some? &&
                               SwitchOnTime(stateSeq).value <= t <= SwitchOnTime(stateSeq).value + scanDuration / 3600.0
    ensures r == 0.0 || r == ScanPeak
  {
    match SwitchOnTime(stateSeq)
    case None => 0.0
    case Some(start) => if start <= t <= start + scanDuration / 3600.0 then ScanPeak else 0.0
  }

  /** The Wi-Fi current with the scan window anchored at switch-on. */
  function CorrectedWifiCurrentAt(exp: real -> real, t: real, stateSeq: seq<(real, string)>,
                                  rssiSeq: seq<(real, real)>, bandSeq: seq<(real, string)>,
                                  scanDuration: real): (r: Result<real>)
    requires ExpLike(exp) && |stateSeq| > 0 && NumericSeries(rssiSeq) && |bandSeq| > 0
    ensures r.Ok? <==> InterpolateCategorical(t, bandSeq) in {"2.4GHz", "5GHz"}
    ensures r.Ok? && InterpolateCategorical(t, stateSeq) != "1" ==> r.value == 0.0
    ensures r.Ok? && InterpolateCategorical(t, stateSeq) == "1" ==>
            r.value > SwitchOnScanCurrent(t, stateSeq, scanDuration) + SleepCurrent
  {
    WifiCurrentWith(exp, t, SwitchOnScanCurrent(t, stateSeq, scanDuration), stateSeq, rssiSeq, bandSeq)
  }

  /** With the corrected window, the example draws more than the scan peak
      plus the sleep current just after switch-on (t = 1.001 h). */
  lemma ExampleCorrectedScanContributes(exp: real -> real)
    requires ExpLike(exp)
    ensures CorrectedWifiCurrentAt(exp, 1.001, ExampleState, ExampleRssi, ExampleBands, DefaultScanDuration).Ok?
    ensures CorrectedWifiCurrentAt(exp, 1.001, ExampleState, ExampleRssi, ExampleBands, DefaultScanDuration).value
            > ScanPeak + SleepCurrent
  {
    ExampleRssiIncreasing();
    var t := 1.001;
    var i := NearestIndex(t, ExampleState);
    assert Abs(ExampleState[i].0 - t) <= Abs(ExampleState[2].0 - t);
    assert i == 2;
    assert InterpolateCategorical(t, ExampleState) == "1";
    assert SwitchOnTime(ExampleState) == Some(1.00083) by {
      assert ExampleState[2].1 == "1";
    }
    assert SwitchOnScanCurrent(t, ExampleState, DefaultScanDuration) == ScanPeak;
    KnownBandsNeverFail(exp, t, ExampleState, ExampleRssi, ExampleBands, DefaultScanDuration);
  }
}
