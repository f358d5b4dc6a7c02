/** The per-subsystem current formulas of core_model.py. Each class there stores
    its coefficients in its constructor and never changes them; here each class
    is a datatype of those coefficients and its `I` method is a function. */
module CoreModel {
  import opened Common

  // ---------------------------------------------------------------- Display

  /** Display: base power Pb, brightness coefficient k and system voltage V. */
  datatype Display = Display(currentBase: real, kBright: real, voltage: PosReal)

  /** Display.I: current at brightness L is (Pb + k * L) / V. */
  function DisplayCurrent(d: Display, brightness: real): (r: real)
    ensures d.currentBase >= 0.0 && d.kBright >= 0.0 && brightness >= 0.0 ==> r >= 0.0
  {
    (d.currentBase + d.kBright * brightness) / d.voltage
  }

  /** The display current is affine in brightness: its value at 0 plus k / V per unit. */
  lemma DisplayAffine(d: Display, brightness: real)
    ensures DisplayCurrent(d, brightness)
            == DisplayCurrent(d, 0.0) + brightness * (d.kBright / d.voltage)
  {
    var v := d.voltage as real;
    calc {
      DisplayCurrent(d, brightness);
      (d.currentBase + d.kBright * brightness) / v;
      d.currentBase / v + (d.kBright * brightness) / v;
      { assert (d.kBright * brightness) / v == brightness * (d.kBright / v); }
      DisplayCurrent(d, 0.0) + brightness * (d.kBright / v);
    }
  }

  /** With a non-negative brightness coefficient the display current never
      decreases as brightness rises. */
  lemma DisplayMonotone(d: Display, l1: real, l2: real)
    requires d.kBright >= 0.0 && l1 <= l2
    ensures DisplayCurrent(d, l1) <= DisplayCurrent(d, l2)
  {
    DisplayAffine(d, l1);
    DisplayAffine(d, l2);
    var slope := d.kBright / d.voltage;
    assert slope >= 0.0;
    MulMonotone(slope, l1, l2);
  }

  /** The reference screen: 7.8 at brightness 0 and 414 at brightness 100, both over 3.7 V. */
  lemma DisplayReferencePoints()
    ensures DisplayCurrent(Display(7.8, (414.0 - 7.8) / 100.0, 3.7), 100.0) == 414.0 / 3.7
    ensures DisplayCurrent(Display(7.8, (414.0 - 7.8) / 100.0, 3.7), 0.0) == 7.8 / 3.7
  {
  }

  // -------------------------------------------------------------- Bluetooth

  /** Bluetooth: the BLE idle and transmit currents, the classic idle current
      per power class, and the classic transmit current. */
  datatype Bluetooth = Bluetooth(bleIdle: real, bleTx: real,
                                 classicIdle: map<string, real>, classicTx: real)

  /** The (idle, transmit) pair Bluetooth.I interpolates between: the BLE pair
      when the mode is exactly "ble", otherwise the classic pair with the idle
      current looked up by power class (a KeyError for an unknown class). */
  function BluetoothPair(b: Bluetooth, mode: string, classType: string): (r: Result<(real, real)>)
    ensures mode == "ble" ==> r == Ok((b.bleIdle, b.bleTx))
    ensures mode != "ble" && classType in b.classicIdle ==> r == Ok((b.classicIdle[classType], b.classicTx))
    ensures mode != "ble" && classType !in b.classicIdle ==> r.Err?
  {
    if mode == "ble" then Ok((b.bleIdle, b.bleTx))
    else if classType in b.classicIdle then Ok((b.classicIdle[classType], b.classicTx))
    else Err(KeyError(classType))
  }

  /** Bluetooth.I: linear interpolation between the idle and the transmit
      current by duty cycle. It is the idle current at duty 0, the transmit
      current at duty 1, and between the two for any duty cycle in [0, 1]. */
  function BluetoothCurrent(b: Bluetooth, mode: string, classType: string, duty: real): (r: Result<real>)
    ensures r.Ok? <==> (mode == "ble" || classType in b.classicIdle)
    ensures r.Ok? ==> var (idle, tx) := BluetoothPair(b, mode, classType).value;
                      (duty == 0.0 ==> r.value == idle) &&
                      (duty == 1.0 ==> r.value == tx) &&
                      (0.0 <= duty <= 1.0 ==> Between(r.value, idle, tx))
  {
    match BluetoothPair(b, mode, classType)
    case Err(e) => Err(e)
    case Ok((idle, tx)) =>
      DutyBetween(idle, tx, duty);
      Ok(idle + duty * (tx - idle))
  }

  // --------------------------------------------------------------- Cellular

  /** Cellular: static current per network generation, signal coefficient
      k_rssi and decay alpha, and handoff coefficient k_handoff. */
  datatype Cellular = Cellular(static2G: real, static3G: real, static4G: real,
                               kRssi: real, alpha: real, kHandoff: real)

  /** The static part is looked up under exactly the keys "2G", "3G" and "4G";
      any other network type raises KeyError. */
  function CellularStatic(c: Cellular, networkType: string): (r: Result<real>)
    ensures r.Ok? <==> networkType in {"2G", "3G", "4G"}
  {
    if networkType == "2G" then Ok(c.static2G)
    else if networkType == "3G" then Ok(c.static3G)
    else if networkType == "4G" then Ok(c.static4G)
    else Err(KeyError(networkType))
  }

  ghost predicate CellularNonNegative(c: Cellular)
  {
    c.static2G >= 0.0 && c.static3G >= 0.0 && c.static4G >= 0.0 &&
    c.kRssi >= 0.0 && c.kHandoff >= 0.0
  }

  /** The signal-compensation term k_rssi * exp(-alpha * rssi). */
  function CellularSignal(c: Cellular, exp: real -> real, rssi: real): real
  {
    c.kRssi * exp(-c.alpha * rssi)
  }

  /** Cellular.I: static current + k_rssi * exp(-alpha * rssi) + k_handoff * handoff. */
  function CellularCurrent(c: Cellular, exp: real -> real, networkType: string,
                           rssi: real, handoff: real): (r: Result<real>)
    ensures r.Ok? <==> networkType in {"2G", "3G", "4G"}
    ensures r.Ok? && ExpLike(exp) && CellularNonNegative(c) && handoff >= 0.0 ==> r.value >= 0.0
  {
    match CellularStatic(c, networkType)
    case Err(e) => Err(e)
    case Ok(iStatic) =>
      assert ExpLike(exp) && c.kRssi >= 0.0 ==> CellularSignal(c, exp, rssi) >= 0.0 by {
        if ExpLike(exp) && c.kRssi >= 0.0 {
          ExpPositive(exp, -c.alpha * rssi);
          MulNonNeg(c.kRssi, exp(-c.alpha * rssi));
        }
      }
      assert c.kHandoff >= 0.0 && handoff >= 0.0 ==> c.kHandoff * handoff >= 0.0 by {
        if c.kHandoff >= 0.0 && handoff >= 0.0 {
          MulNonNeg(c.kHandoff, handoff);
        }
      }
      Ok(iStatic + CellularSignal(c, exp, rssi) + c.kHandoff * handoff)
  }

  /** The cellular current is affine in the handoff rate, with slope k_handoff. */
  lemma CellularHandoffAffine(c: Cellular, exp: real -> real, networkType: string, rssi: real, handoff: real)
    requires networkType in {"2G", "3G", "4G"}
    ensures CellularCurrent(c, exp, networkType, rssi, handoff).value
            == CellularCurrent(c, exp, networkType, rssi, 0.0).value + c.kHandoff * handoff
  {
  }

  /** With k_handoff > 0 the cellular current strictly increases with the handoff rate. */
  lemma CellularHandoffIncreasing(c: Cellular, exp: real -> real, networkType: string,
                                  rssi: real, h1: real, h2: real)
    requires networkType in {"2G", "3G", "4G"}
    requires c.kHandoff > 0.0 && h1 < h2
    ensures CellularCurrent(c, exp, networkType, rssi, h1).value
            < CellularCurrent(c, exp, networkType, rssi, h2).value
  {
    var v0 := CellularCurrent(c, exp, networkType, rssi, 0.0).value;
    calc {
      CellularCurrent(c, exp, networkType, rssi, h1).value;
      == { CellularHandoffAffine(c, exp, networkType, rssi, h1); }
      v0 + c.kHandoff * h1;
      < { MulStrictMonotone(c.kHandoff, h1, h2); }
      v0 + c.kHandoff * h2;
      == { CellularHandoffAffine(c, exp, networkType, rssi, h2); }
      CellularCurrent(c, exp, networkType, rssi, h2).value;
    }
  }

  /** A weaker (more negative) RSSI gives a strictly higher cellular current
      when k_rssi and alpha are positive. */
  lemma CellularWeakerSignalCostsMore(c: Cellular, exp: real -> real, networkType: string,
                                      weak: real, strong: real, handoff: real)
    requires ExpLike(exp)
    requires networkType in {"2G", "3G", "4G"}
    requires c.kRssi > 0.0 && c.alpha > 0.0 && weak < strong
    ensures CellularCurrent(c, exp, networkType, weak, handoff).value
            > CellularCurrent(c, exp, networkType, strong, handoff).value
  {
    MulStrictMonotone(c.alpha, weak, strong);
    ExpMonotone(exp, -c.alpha * strong, -c.alpha * weak);
    MulStrictMonotone(c.kRssi, exp(-c.alpha * strong), exp(-c.alpha * weak));
    assert CellularSignal(c, exp, strong) < CellularSignal(c, exp, weak);
  }

  // ------------------------------------------------------------------ Wi-Fi

  /** Wi-Fi: scan peak current, sleep current, band coefficients and decay beta. */
  datatype WiFi = WiFi(scanPeak: real, sleepCurrent: real, k24GHz: real, k5GHz: real, beta: real)

  /** The band coefficient: the configured one for "2.4GHz" and "5GHz", and
      the fixed fallback 50.0 for any other band. */
  function WifiBandCoefficient(w: WiFi, freq: string): (k: real)
    ensures freq !in {"2.4GHz", "5GHz"} ==> k == 50.0
  {
    if freq == "2.4GHz" then w.k24GHz
    else if freq == "5GHz" then w.k5GHz
    else 50.0
  }

  /** WiFi.I: 0 when the radio is off and the scan peak while scanning,
      whatever the RSSI and band; when connected, the sleep current plus
      k / exp(beta * |rssi|), which is strictly above the sleep current
      whenever the band coefficient is positive. */
  function WifiCurrent(w: WiFi, exp: real -> real, isOn: bool, rssi: real,
                       freq: string, isScanning: bool): (r: real)
    requires ExpLike(exp)
    ensures !isOn ==> r == 0.0
    ensures isOn && isScanning ==> r == w.scanPeak
    ensures isOn && !isScanning && WifiBandCoefficient(w, freq) > 0.0 ==> r > w.sleepCurrent
  {
    if !isOn then 0.0
    else if isScanning then w.scanPeak
    else
      var e := exp(w.beta * Abs(rssi));
      assert e > 0.0;
      w.sleepCurrent + WifiBandCoefficient(w, freq) / e
  }

  /** The connected Wi-Fi current DECREASES as |rssi| grows (for beta > 0 and a
      positive band coefficient): a weaker signal costs less, the opposite of
      what the comment at core_model.py:111 says. */
  lemma WifiWeakerSignalCostsLess(w: WiFi, exp: real -> real, freq: string, strong: real, weak: real)
    requires ExpLike(exp)
    requires w.beta > 0.0 && WifiBandCoefficient(w, freq) > 0.0
    requires Abs(strong) < Abs(weak)
    ensures WifiCurrent(w, exp, true, weak, freq, false) < WifiCurrent(w, exp, true, strong, freq, false)
  {
    var k := WifiBandCoefficient(w, freq);
    MulStrictMonotone(w.beta, Abs(strong), Abs(weak));
    ExpPositive(exp, w.beta * Abs(strong));
    ExpMonotone(exp, w.beta * Abs(strong), w.beta * Abs(weak));
    var eStrong, eWeak := exp(w.beta * Abs(strong)), exp(w.beta * Abs(weak));
    DivAntitone(k, eStrong, eWeak);
    assert WifiCurrent(w, exp, true, weak, freq, false) == w.sleepCurrent + WifiBandCoefficient(w, freq) / exp(w.beta * Abs(weak));
    assert WifiCurrent(w, exp, true, weak, freq, false) == w.sleepCurrent + k / eWeak;
    assert WifiCurrent(w, exp, true, strong, freq, false) == w.sleepCurrent + k / eStrong;
  }

  // ---------------------------------------------------------------- Hotspot

  /** Hotspot: access-point static current, band coefficients and the
      per-device coefficient alpha. */
  datatype Hotspot = Hotspot(apStatic: real, k24GHz: real, k5GHz: real, deviceCoeff: real)

  /** The band coefficient: the configured one for "2.4GHz" and "5GHz", and
      the fixed fallback 45.0 for any other band. */
  function HotspotBandCoefficient(h: Hotspot, freq: string): (k: real)
    ensures freq !in {"2.4GHz", "5GHz"} ==> k == 45.0
  {
    if freq == "2.4GHz" then h.k24GHz
    else if freq == "5GHz" then h.k5GHz
    else 45.0
  }

  /** Hotspot.I: 0 when inactive, otherwise the (passed-in) cellular current
      plus the access point's static current plus k * (1 + alpha * N). */
  function HotspotCurrent(h: Hotspot, isActive: bool, cellularCurrent: real,
                          freq: string, deviceCount: real): (r: real)
    ensures !isActive ==> r == 0.0
    ensures (isActive && h.apStatic >= 0.0 && HotspotBandCoefficient(h, freq) >= 0.0 &&
             h.deviceCoeff >= 0.0 && deviceCount >= 0.0) ==> r >= cellularCurrent
  {
    if !isActive then 0.0
    else
      var k := HotspotBandCoefficient(h, freq);
      var nonNeg := k >= 0.0 && h.deviceCoeff >= 0.0 && deviceCount >= 0.0;
      assert nonNeg ==> k * (1.0 + h.deviceCoeff * deviceCount) >= 0.0 by {
        if k >= 0.0 && h.deviceCoeff >= 0.0 && deviceCount >= 0.0 {
          MulNonNeg(h.deviceCoeff, deviceCount);
          MulNonNeg(k, 1.0 + h.deviceCoeff * deviceCount);
        }
      }
      cellularCurrent + h.apStatic + k * (1.0 + h.deviceCoeff * deviceCount)
  }

  /** An active hotspot's current is linear in the device count N, with slope k * alpha. */
  lemma HotspotLinearInDevices(h: Hotspot, cellularCurrent: real, freq: string, n: real)
    ensures HotspotCurrent(h, true, cellularCurrent, freq, n)
            == HotspotCurrent(h, true, cellularCurrent, freq, 0.0)
               + HotspotBandCoefficient(h, freq) * h.deviceCoeff * n
  {
  }

  /** With non-negative band and device coefficients, more devices never lower
      the hotspot current. */
  lemma HotspotMonotoneInDevices(h: Hotspot, isActive: bool, cellularCurrent: real,
                                 freq: string, n1: real, n2: real)
    requires HotspotBandCoefficient(h, freq) >= 0.0 && h.deviceCoeff >= 0.0 && n1 <= n2
    ensures HotspotCurrent(h, isActive, cellularCurrent, freq, n1)
            <= HotspotCurrent(h, isActive, cellularCurrent, freq, n2)
  {
    if isActive {
      HotspotLinearInDevices(h, cellularCurrent, freq, n1);
      HotspotLinearInDevices(h, cellularCurrent, freq, n2);
      var slope := HotspotBandCoefficient(h, freq) * h.deviceCoeff;
      MulNonNeg(HotspotBandCoefficient(h, freq), h.deviceCoeff);
      MulMonotone(slope, n1, n2);
    }
  }
}
