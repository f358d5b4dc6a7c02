/** calculate_hotspot_current of hotspot-code.py: the hotspot current at time t
    (hours) from three waypoint sequences: the Wi-Fi band (categorical), the
    number of connected devices and the cellular current (both numeric). */
module HotspotSeries {
  import opened Common
  import opened Interpolation
  import CoreModel

  /** The access point's static (baseband) current. */
  const ApStatic: real := 20.0
  /** Each connected device adds this fraction of the band current. */
  const DeviceCoeff: real := 0.3

  /** k_ap_map: 45 for "2.4GHz", 75 for "5GHz"; any other label raises KeyError. */
  function ApBandCoefficient(band: string): (r: Result<real>)
    ensures r.Ok? <==> band in {"2.4GHz", "5GHz"}
    ensures r.Ok? ==> r.value >= 45.0
  {
    if band == "2.4GHz" then Ok(45.0)
    else if band == "5GHz" then Ok(75.0)
    else Err(KeyError(band))
  }

  /** calculate_hotspot_current: I_cell(t) + k_ap(F(t)) * (1 + 0.3 * N(t)) + 20.
      It fails exactly when the band read at t is not a known label; with a
      non-negative device count it is at least the cellular current plus the
      static current plus the smallest band coefficient. */
  function HotspotCurrentAt(t: real, bandSeq: seq<(real, string)>,
                            deviceSeq: seq<(real, real)>, cellularSeq: seq<(real, real)>): (r: Result<real>)
    requires |bandSeq| > 0 && NumericSeries(deviceSeq) && NumericSeries(cellularSeq)
    ensures r.Ok? <==> InterpolateCategorical(t, bandSeq) in {"2.4GHz", "5GHz"}
    ensures r.Ok? && InterpolateNumeric(t, deviceSeq) >= 0.0 ==>
            r.value >= InterpolateNumeric(t, cellularSeq) + ApStatic + 45.0
  {
    var band := InterpolateCategorical(t, bandSeq);
    var devices := InterpolateNumeric(t, deviceSeq);
    var cellular := InterpolateNumeric(t, cellularSeq);
    match ApBandCoefficient(band)
    case Err(e) => Err(e)
    case Ok(k) =>
      assert devices >= 0.0 ==> k * (1.0 + DeviceCoeff * devices) >= 45.0 by {
        if devices >= 0.0 {
          MulMonotone(k, 1.0, 1.0 + DeviceCoeff * devices);
        }
      }
      Ok(cellular + k * (1.0 + DeviceCoeff * devices) + ApStatic)
  }

  /** The waypoint model agrees with Hotspot.I of the core model, active, fed
      the interpolated inputs, with ap_static 20, band coefficients 45 / 75
      and device coefficient 0.3. */
  lemma HotspotSeriesMatchesCoreModel(t: real, bandSeq: seq<(real, string)>,
                                      deviceSeq: seq<(real, real)>, cellularSeq: seq<(real, real)>)
    requires |bandSeq| > 0 && NumericSeries(deviceSeq) && NumericSeries(cellularSeq)
    requires HotspotCurrentAt(t, bandSeq, deviceSeq, cellularSeq).Ok?
    ensures HotspotCurrentAt(t, bandSeq, deviceSeq, cellularSeq).value
            == CoreModel.HotspotCurrent(CoreModel.Hotspot(ApStatic, 45.0, 75.0, DeviceCoeff), true,
                                        InterpolateNumeric(t, cellularSeq),
                                        InterpolateCategorical(t, bandSeq),
                                        InterpolateNumeric(t, deviceSeq))
  {
  }

  /** For the same band and cellular sequences, a device count that reads
      higher at t never gives a lower hotspot current. */
  lemma HotspotSeriesMonotoneInDevices(t: real, bandSeq: seq<(real, string)>,
                                       fewer: seq<(real, real)>, more: seq<(real, real)>,
                                       cellularSeq: seq<(real, real)>)
    requires |bandSeq| > 0 && NumericSeries(fewer) && NumericSeries(more) && NumericSeries(cellularSeq)
    requires HotspotCurrentAt(t, bandSeq, fewer, cellularSeq).Ok?
    requires InterpolateNumeric(t, fewer) <= InterpolateNumeric(t, more)
    ensures HotspotCurrentAt(t, bandSeq, fewer, cellularSeq).value
            <= HotspotCurrentAt(t, bandSeq, more, cellularSeq).value
  {
    var h := CoreModel.Hotspot(ApStatic, 45.0, 75.0, DeviceCoeff);
    var band := InterpolateCategorical(t, bandSeq);
    var cellular := InterpolateNumeric(t, cellularSeq);
    HotspotSeriesMatchesCoreModel(t, bandSeq, fewer, cellularSeq);
    HotspotSeriesMatchesCoreModel(t, bandSeq, more, cellularSeq);
    CoreModel.HotspotMonotoneInDevices(h, true, cellular, band,
                                       InterpolateNumeric(t, fewer), InterpolateNumeric(t, more));
  }

  /** A band sequence that only carries known labels never raises KeyError. */
  lemma KnownBandsNeverFail(t: real, bandSeq: seq<(real, string)>,
                            deviceSeq: seq<(real, real)>, cellularSeq: seq<(real, real)>)
    requires |bandSeq| > 0 && NumericSeries(deviceSeq) && NumericSeries(cellularSeq)
    requires forall i :: 0 <= i < |bandSeq| ==> bandSeq[i].1 in {"2.4GHz", "5GHz"}
    ensures HotspotCurrentAt(t, bandSeq, deviceSeq, cellularSeq).Ok?
  {
    CategoricalWithin(bandSeq, t, {"2.4GHz", "5GHz"});
  }
}
