/** calculate_bluetooth_current of blueteeth-code.py: the Bluetooth current at
    time t (hours) from a version label sequence ("1" for BLE), a duty-cycle
    sequence and a power-class label sequence. */
module BluetoothSeries {
  import opened Common
  import opened Interpolation
  import CoreModel

  const BleIdle: real := 1.2
  const BleTx: real := 8.0
  const ClassicTx: real := 25.0

  /** I_class_map: the classic idle current by power class ("1": 30, "2": 8,
      "3": 2); any other label raises KeyError. */
  function ClassIdle(classType: string): (r: Result<real>)
    ensures r.Ok? <==> classType in {"1", "2", "3"}
    ensures classType == "1" ==> r == Ok(30.0)
  {
    if classType == "1" then Ok(30.0)
    else if classType == "2" then Ok(8.0)
    else if classType == "3" then Ok(2.0)
    else Err(KeyError(classType))
  }

  /** The three maps and constants as a core-model Bluetooth value. */
  const CoreBluetooth: CoreModel.Bluetooth :=
    CoreModel.Bluetooth(BleIdle, BleTx, map["1" := 30.0, "2" := 8.0, "3" := 2.0], ClassicTx)

  /** calculate_bluetooth_current. The class lookup is made whatever the
      version, so an unknown class label fails even in BLE mode. For a duty
      cycle read in [0, 1], the BLE current lies in [1.2, 8] and the classic
      current between the class's idle current and 25. */
  function BluetoothCurrentAt(t: real, versionSeq: seq<(real, string)>,
                              dutySeq: seq<(real, real)>, classSeq: seq<(real, string)>): (r: Result<real>)
    requires |versionSeq| > 0 && NumericSeries(dutySeq) && |classSeq| > 0
    ensures r.Ok? <==> InterpolateCategorical(t, classSeq) in {"1", "2", "3"}
    ensures r.Ok? && 0.0 <= InterpolateNumeric(t, dutySeq) <= 1.0 ==>
            (InterpolateCategorical(t, versionSeq) == "1" ==> BleIdle <= r.value <= BleTx) &&
            (InterpolateCategorical(t, versionSeq) != "1" ==>
               Between(r.value, ClassIdle(InterpolateCategorical(t, classSeq)).value, ClassicTx))
  {
    var version := InterpolateCategorical(t, versionSeq);
    var duty := InterpolateNumeric(t, dutySeq);
    var classType := InterpolateCategorical(t, classSeq);
    var ble := BleIdle + duty * (BleTx - BleIdle);
    DutyBetween(BleIdle, BleTx, duty);
    match ClassIdle(classType)
    case Err(e) => Err(e)
    case Ok(idle) =>
      var classic := idle + duty * (ClassicTx - idle);
      DutyBetween(idle, ClassicTx, duty);
      Ok(if version == "1" then ble else classic)
  }

  /** Wherever it succeeds, the waypoint model is Bluetooth.I of the core
      model in "ble" mode when the version read is "1" and in classic mode
      otherwise, fed the class and duty cycle read at t. */
  lemma BluetoothSeriesMatchesCoreModel(t: real, versionSeq: seq<(real, string)>,
                                        dutySeq: seq<(real, real)>, classSeq: seq<(real, string)>)
    requires |versionSeq| > 0 && NumericSeries(dutySeq) && |classSeq| > 0
    requires BluetoothCurrentAt(t, versionSeq, dutySeq, classSeq).Ok?
    ensures var mode := if InterpolateCategorical(t, versionSeq) == "1" then "ble" else "classic";
            var core := CoreModel.BluetoothCurrent(CoreBluetooth, mode, InterpolateCategorical(t, classSeq),
                                                   InterpolateNumeric(t, dutySeq));
            core.Ok? && BluetoothCurrentAt(t, versionSeq, dutySeq, classSeq).value == core.value
  {
  }

  /** The two models part on the error path: a class label outside the map
      fails here in BLE mode, where Bluetooth.I of the core model, which
      looks the class up only in classic mode, succeeds. */
  lemma UnknownClassFailsInBleMode()
    ensures BluetoothCurrentAt(0.0, [(0.0, "1")], [(0.0, 0.5)], [(0.0, "4")]).Err?
    ensures CoreModel.BluetoothCurrent(CoreBluetooth, "ble", "4", 0.5).Ok?
  {
    assert InterpolateCategorical(0.0, [(0.0, "4")]) == "4";
  }

  /** For Class 1 (idle 30 above transmit 25) in classic mode, a duty cycle
      that reads higher at t gives a strictly lower current. */
  lemma ClassOneDecreasesInDuty(t: real, versionSeq: seq<(real, string)>, classSeq: seq<(real, string)>,
                                lowDuty: seq<(real, real)>, highDuty: seq<(real, real)>)
    requires |versionSeq| > 0 && NumericSeries(lowDuty) && NumericSeries(highDuty) && |classSeq| > 0
    requires InterpolateCategorical(t, versionSeq) != "1" && InterpolateCategorical(t, classSeq) == "1"
    requires InterpolateNumeric(t, lowDuty) < InterpolateNumeric(t, highDuty)
    ensures BluetoothCurrentAt(t, versionSeq, highDuty, classSeq).value
            < BluetoothCurrentAt(t, versionSeq, lowDuty, classSeq).value
  {
  }

  /** If every duty-cycle waypoint lies in [0, 1], the bounds of
      BluetoothCurrentAt hold at every time t. */
  lemma UnitDutyWaypointsBound(t: real, versionSeq: seq<(real, string)>,
                               dutySeq: seq<(real, real)>, classSeq: seq<(real, string)>)
    requires |versionSeq| > 0 && NumericSeries(dutySeq) && |classSeq| > 0
    requires forall i :: 0 <= i < |dutySeq| ==> 0.0 <= dutySeq[i].1 <= 1.0
    requires forall i :: 0 <= i < |classSeq| ==> classSeq[i].1 in {"1", "2", "3"}
    ensures BluetoothCurrentAt(t, versionSeq, dutySeq, classSeq).Ok?
    ensures var r := BluetoothCurrentAt(t, versionSeq, dutySeq, classSeq).value;
            InterpolateCategorical(t, versionSeq) == "1" ==> BleIdle <= r <= BleTx
    ensures var r := BluetoothCurrentAt(t, versionSeq, dutySeq, classSeq).value;
            InterpolateCategorical(t, versionSeq) != "1" ==> 2.0 <= r <= 30.0
  {
    InterpolateWithin(dutySeq, t, 0.0, 1.0);
    CategoricalWithin(classSeq, t, {"1", "2", "3"});
  }
}
