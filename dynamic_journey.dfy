/** DynamicJourneySimulator of scenario_dynamic_journey.py: journeys made of
    app segments, the lookup of the app running at a given second, and the
    15-second simulation that samples the battery every two minutes. */
module DynamicJourney {
  import opened Common
  import opened SoftwareModel
  import opened Hardware
  import opened Integration
  import opened StaticBenchmark

  /** One segment of a journey: an app name and a duration in minutes. */
  datatype Segment = Segment(app: string, duration: nat)

  datatype Journey = Journey(name: string, description: string, segments: seq<Segment>)

  /** The journeys table. */
  const Journeys: map<string, Journey> := map[
    "journey_1" := Journey("Weekend Entertainment", "Video streaming followed by music",
                           [Segment("video", 120), Segment("music", 120)]),
    "journey_2" := Journey("Commute & Work", "Navigation, social media, and browsing",
                           [Segment("navigation", 60), Segment("social", 60), Segment("browser", 120)]),
    "journey_3" := Journey("Mixed Daily Usage", "Balanced mix of all app categories",
                           [Segment("navigation", 30), Segment("social", 60), Segment("video", 60),
                            Segment("music", 90), Segment("browser", 60)]),
    "journey_4" := Journey("Business Travel", "Extended navigation with media",
                           [Segment("navigation", 180), Segment("music", 60)])
  ]

  /** The minutes covered by the first i segments. */
  function Prefix(segs: seq<Segment>, i: nat): nat
    requires i <= |segs|
  {
    if i == 0 then 0 else Prefix(segs, i - 1) + segs[i - 1].duration
  }

  lemma {:induction false} PrefixMonotone(segs: seq<Segment>, i: nat, j: nat)
    requires i <= j <= |segs|
    ensures Prefix(segs, i) <= Prefix(segs, j)
    decreases j
  {
    if i < j {
      PrefixMonotone(segs, i, j - 1);
    }
  }

  /** Journeys 1, 2 and 4 last four hours; the segments of journey 3 add up
      to five. */
  lemma JourneyMinutes(id: string)
    requires id in Journeys
    ensures Prefix(Journeys[id].segments, |Journeys[id].segments|) == (if id == "journey_3" then 300 else 240)
  {
    var segs := Journeys[id].segments;
    if id == "journey_1" {
      assert segs == [Segment("video", 120), Segment("music", 120)];
      assert Prefix(segs, 1) == 120;
    } else if id == "journey_2" {
      assert segs == [Segment("navigation", 60), Segment("social", 60), Segment("browser", 120)];
      assert Prefix(segs, 2) == 120;
    } else if id == "journey_3" {
      assert segs == [Segment("navigation", 30), Segment("social", 60), Segment("video", 60),
                      Segment("music", 90), Segment("browser", 60)];
      assert Prefix(segs, 2) == 90;
      assert Prefix(segs, 4) == 240;
      assert Prefix(segs, 5) == 300;
    } else {
      assert segs == [Segment("navigation", 180), Segment("music", 60)];
      assert Prefix(segs, 1) == 180;
    }
  }

  // ------------------------------------------------------------ app lookup

  /** The first segment from index i on whose cumulative duration reaches the
      elapsed minutes m, if any. */
  function CoveringFrom(segs: seq<Segment>, m: real, i: nat): (r: Option<nat>)
    requires i <= |segs|
    ensures r.Some? ==> i <= r.value < |segs|
    decreases |segs| - i
  {
    if i == |segs| then None
    else if m <= Prefix(segs, i + 1) as real then Some(i)
    else CoveringFrom(segs, m, i + 1)
  }

  /** The segment found is the first from i on that covers minute m, and no
      segment from i on covers m when none is found. */
  lemma {:induction false} CoveringFromFirst(segs: seq<Segment>, m: real, i: nat)
    requires i <= |segs|
    ensures var r := CoveringFrom(segs, m, i);
            (r.Some? ==> m <= Prefix(segs, r.value + 1) as real &&
                         forall j :: i < j <= r.value ==> m > Prefix(segs, j) as real) &&
            (r.None? ==> forall j :: i < j <= |segs| ==> m > Prefix(segs, j) as real)
    decreases |segs| - i
  {
    if i < |segs| && m > Prefix(segs, i + 1) as real {
      CoveringFromFirst(segs, m, i + 1);
    }
  }

  /** get_current_app: the app of the first segment whose cumulative duration
      is at least the elapsed minutes, with that segment's start minute;
      ("music", 0) once the journey is over. */
  function CurrentApp(segs: seq<Segment>, t: int): (string, int)
  {
    match CoveringFrom(segs, t as real / 60.0, 0)
    case None => ("music", 0)
    case Some(i) => (segs[i].app, Prefix(segs, i))
  }

  /** The lookup as written: a loop accumulating the cumulative duration. */
  method GetCurrentApp(segs: seq<Segment>, t: int) returns (app: string, start: int)
    ensures (app, start) == CurrentApp(segs, t)
  {
    var elapsedMinutes := t as real / 60.0;
    var cumulative := 0;
    var i := 0;
    while i < |segs|
      invariant 0 <= i <= |segs|
      invariant cumulative == Prefix(segs, i)
      invariant CoveringFrom(segs, elapsedMinutes, 0) == CoveringFrom(segs, elapsedMinutes, i)
    {
      cumulative := cumulative + segs[i].duration;
      if elapsedMinutes <= cumulative as real {
        return segs[i].app, cumulative - segs[i].duration;
      }
      i := i + 1;
    }
    return "music", 0;
  }

  /** Strictly inside or at the end of segment i (minutes Prefix(i) exclusive
      to Prefix(i + 1) inclusive), the lookup returns segment i: at an exact
      boundary the earlier segment wins. */
  lemma {:induction false} CurrentAppInSegment(segs: seq<Segment>, i: nat, t: int)
    requires i < |segs|
    requires Prefix(segs, i) as real < t as real / 60.0 <= Prefix(segs, i + 1) as real
    ensures CurrentApp(segs, t) == (segs[i].app, Prefix(segs, i))
  {
    var m := t as real / 60.0;
    var r := CoveringFrom(segs, m, 0);
    CoveringFromFirst(segs, m, 0);
    assert r.Some? && r.value <= i;
    if r.value < i {
      PrefixMonotone(segs, r.value + 1, i);
      assert false;
    }
  }

  /** After the last segment the lookup falls back to ("music", 0). */
  lemma CurrentAppAfterEnd(segs: seq<Segment>, t: int)
    requires t as real / 60.0 > Prefix(segs, |segs|) as real
    ensures CurrentApp(segs, t) == ("music", 0)
  {
    var m := t as real / 60.0;
    CoveringFromFirst(segs, m, 0);
    if CoveringFrom(segs, m, 0).Some? {
      var i := CoveringFrom(segs, m, 0).value;
      PrefixMonotone(segs, i + 1, |segs|);
      assert false;
    }
  }

  /** On journey_2 (60 min navigation, 60 min social, 120 min browsing):
      minute 59 and minute 60 are navigation, minute 61 is social media from
      minute 60, and minute 241 is past the end. */
  lemma Journey2Lookups()
    ensures CurrentApp(Journeys["journey_2"].segments, 59 * 60) == ("navigation", 0)
    ensures CurrentApp(Journeys["journey_2"].segments, 60 * 60) == ("navigation", 0)
    ensures CurrentApp(Journeys["journey_2"].segments, 61 * 60) == ("social", 60)
    ensures CurrentApp(Journeys["journey_2"].segments, 241 * 60) == ("music", 0)
  {
    var segs := Journeys["journey_2"].segments;
    assert Prefix(segs, 1) == 60 && Prefix(segs, 2) == 120 && Prefix(segs, 3) == 240;
    CurrentAppInSegment(segs, 0, 59 * 60);
    CurrentAppInSegment(segs, 0, 60 * 60);
    CurrentAppInSegment(segs, 1, 61 * 60);
    CurrentAppAfterEnd(segs, 241 * 60);
  }

  // ------------------------------------------------------ segment tracking

  /** The time step of the journey simulation, in seconds. */
  const Dt: nat := 15

  /** The (app, segment start minute) lookup at each second, as get_current_app
      answers it. */
  type Lookup = int -> (string, int)

  function Schedule(segs: seq<Segment>): Lookup
  {
    t => CurrentApp(segs, t)
  }

  /** One update of (segment_index, current_segment_start) at second t: the
      index moves on by one exactly when t is the first second or within one
      step of the resolved segment's start, and that start is later than the
      current one; the start then becomes the current one. */
  function TrackerStep(lookup: Lookup, idx: nat, cs: int, t: int): (r: (nat, int))
    ensures r.0 == idx || r.0 == idx + 1
    ensures r.0 == idx + 1 <==>
            (t == 0 || t - lookup(t).1 * 60 < Dt) && lookup(t).1 > cs
    ensures r.1 == (if r.0 == idx + 1 then lookup(t).1 else cs)
  {
    var start := lookup(t).1;
    if (t == 0 || t - start * 60 < Dt) && start > cs then (idx + 1, start) else (idx, cs)
  }

  /** The tracker state after n steps. */
  function Tracker(lookup: Lookup, n: nat): (nat, int)
  {
    if n == 0 then (0, 0)
    else
      var (idx, cs) := Tracker(lookup, n - 1);
      TrackerStep(lookup, idx, cs, (n - 1) * Dt)
  }

  /** The segment index never decreases, and it grows by at most one per step. */
  lemma {:induction false} TrackerMonotone(lookup: Lookup, m: nat, n: nat)
    requires m <= n
    ensures Tracker(lookup, m).0 <= Tracker(lookup, n).0 <= Tracker(lookup, m).0 + (n - m)
    decreases n
  {
    if m < n {
      TrackerMonotone(lookup, m, n - 1);
    }
  }

  /** The current start minute only ever grows, so a segment is never counted
      twice. */
  lemma {:induction false} TrackerStartGrows(lookup: Lookup, m: nat, n: nat)
    requires m <= n
    ensures Tracker(lookup, m).1 <= Tracker(lookup, n).1
    ensures Tracker(lookup, n).0 > Tracker(lookup, m).0 ==> Tracker(lookup, n).1 > Tracker(lookup, m).1
    decreases n
  {
    if m < n {
      TrackerStartGrows(lookup, m, n - 1);
    }
  }

  /** A segment other than the first is only ever resolved strictly after its
      start: the minute it starts on still belongs to the segment before. */
  lemma StartBeforeSecond(segs: seq<Segment>, t: int)
    ensures CurrentApp(segs, t).1 == 0 || CurrentApp(segs, t).1 * 60 < t
  {
    var m := t as real / 60.0;
    CoveringFromFirst(segs, m, 0);
    var r := CoveringFrom(segs, m, 0);
    if r.Some? && r.value > 0 {
      assert m > Prefix(segs, r.value) as real;
    }
  }

  /** One update of the tracker as written, at a whole number of steps: the
      resolved start is 0, or it lies a full step or more behind t, so the
      index stays where it is. */
  lemma TrackerStepIdle(segs: seq<Segment>, idx: nat, n: nat)
    ensures TrackerStep(Schedule(segs), idx, 0, n * Dt) == (idx, 0)
  {
    var t := n * Dt;
    StartBeforeSecond(segs, t);
    var start := Schedule(segs)(t).1;
    if start > 0 {
      assert 4 * start < n by {
        assert 60 * start < 15 * n;
      }
      assert t - start * 60 >= Dt;
    }
  }

  /** segment_index never moves on: all segment durations are whole minutes
      and the step is 15 seconds, so no step lands strictly within one step
      after a segment's start, and the step at second 0 resolves start 0. */
  lemma {:induction false} SegmentIndexStaysZero(segs: seq<Segment>, n: nat)
    ensures Tracker(Schedule(segs), n) == (0, 0)
  {
    if n > 0 {
      SegmentIndexStaysZero(segs, n - 1);
      TrackerStepIdle(segs, 0, n - 1);
    }
  }

  /** The segment change test with `<=` in place of `<`: a step at most one
      step after the resolved start counts as entering that segment. */
  function CorrectedTrackerStep(lookup: Lookup, idx: nat, cs: int, t: int): (r: (nat, int))
    ensures r.0 == idx || r.0 == idx + 1
    ensures r.0 == idx + 1 <==>
            (t == 0 || t - lookup(t).1 * 60 <= Dt) && lookup(t).1 > cs
    ensures r.1 == (if r.0 == idx + 1 then lookup(t).1 else cs)
  {
    var start := lookup(t).1;
    if (t == 0 || t - start * 60 <= Dt) && start > cs then (idx + 1, start) else (idx, cs)
  }

  /** The corrected tracker state after n steps. */
  function CorrectedTracker(lookup: Lookup, n: nat): (nat, int)
  {
    if n == 0 then (0, 0)
    else
      var (idx, cs) := CorrectedTracker(lookup, n - 1);
      CorrectedTrackerStep(lookup, idx, cs, (n - 1) * Dt)
  }

  /** Every segment lasts at least a minute, as in every journey of the table. */
  predicate PositiveDurations(segs: seq<Segment>)
  {
    forall i :: 0 <= i < |segs| ==> segs[i].duration > 0
  }

  lemma TableDurationsPositive(id: string)
    requires id in Journeys
    ensures PositiveDurations(Journeys[id].segments)
  {
  }

  /** With positive durations, each segment starts strictly after the one
      before it. */
  lemma PrefixStrict(segs: seq<Segment>, i: nat, j: nat)
    requires PositiveDurations(segs) && i < j <= |segs|
    ensures Prefix(segs, i) < Prefix(segs, j)
  {
    PrefixMonotone(segs, i + 1, j);
  }

  /** The first pass resolves segment 0, so the corrected tracker stays at
      (0, 0). */
  lemma CorrectedFirstStep(segs: seq<Segment>)
    requires |segs| > 0
    ensures CorrectedTracker(Schedule(segs), 1) == (0, 0)
  {
    CoveringFromFirst(segs, 0.0, 0);
    assert CoveringFrom(segs, 0.0, 0) == Some(0);
    assert Schedule(segs)(0) == (segs[0].app, 0);
  }

  /** A second within segment i, in whole seconds, resolves to segment i. */
  lemma LookupInSegment(segs: seq<Segment>, i: nat, t: int)
    requires i < |segs| && Prefix(segs, i) * 60 < t <= Prefix(segs, i + 1) * 60
    ensures Schedule(segs)(t) == (segs[i].app, Prefix(segs, i))
  {
    assert Prefix(segs, i) as real < t as real / 60.0 <= Prefix(segs, i + 1) as real;
    CurrentAppInSegment(segs, i, t);
  }

  /** The corrected tracker follows the journey: the step that starts at
      second t, within segment i (or the first step, in segment 0), leaves
      the index at i and the current start at that segment's start. */
  lemma {:induction false} CorrectedTrackerFollowsSegments(segs: seq<Segment>, n: nat, i: nat)
    requires PositiveDurations(segs) && n > 0 && i < |segs|
    requires (i == 0 && n == 1) ||
             Prefix(segs, i) * 60 < (n - 1) * Dt <= Prefix(segs, i + 1) * 60
    ensures CorrectedTracker(Schedule(segs), n) == (i, Prefix(segs, i))
  {
    if n == 1 {
      CorrectedFirstStep(segs);
    } else {
      var lookup := Schedule(segs);
      var m := n - 1;
      var t := m * Dt;
      var prev := CorrectedTracker(lookup, m);
      assert CorrectedTracker(lookup, n) == CorrectedTrackerStep(lookup, prev.0, prev.1, t);
      assert (m - 1) * Dt == t - Dt;
      LookupInSegment(segs, i, t);
      if Prefix(segs, i) * 60 < t - Dt {
        CorrectedTrackerFollowsSegments(segs, m, i);
      } else if i == 0 {
        CorrectedTrackerFollowsSegments(segs, 1, 0);
      } else {
        PrefixStrict(segs, i - 1, i);
        CorrectedTrackerFollowsSegments(segs, m, i - 1);
      }
    }
  }

  /** On journey_2 the step at 60 min 15 s is the first in the social-media
      segment: the corrected tracker then reports index 1 from minute 60,
      whereas the index as written is still 0. */
  lemma Journey2SegmentChange()
    ensures Tracker(Schedule(Journeys["journey_2"].segments), 242) == (0, 0)
    ensures CorrectedTracker(Schedule(Journeys["journey_2"].segments), 242) == (1, 60)
  {
    var segs := Journeys["journey_2"].segments;
    assert Prefix(segs, 1) == 60 && Prefix(segs, 2) == 120;
    SegmentIndexStaysZero(segs, 242);
    CorrectedTrackerFollowsSegments(segs, 242, 1);
  }

  // ------------------------------------------------------------ simulation

  /** The journey length in seconds. */
  function Total(segs: seq<Segment>): nat
  {
    Prefix(segs, |segs|) * 60
  }

  /** calculate_current as the loop calls it: the current of an app at second
      x, with that second's web-browsing draw. */
  function StepCurrent(ph: Phone, draws: int -> BrowseDraw): (string, int) -> real
  {
    (app, x) => AppCurrent(ph, app, x, draws(x))
  }

  /** The current drawn at second t of a journey. */
  function JourneyCurrent(ph: Phone, segs: seq<Segment>, draws: int -> BrowseDraw): int -> real
  {
    t => AppCurrent(ph, CurrentApp(segs, t).0, t, draws(t))
  }

  /** The journey's current is the loop's helper applied to the app the
      lookup resolves. */
  lemma JourneyCurrentLink(ph: Phone, segs: seq<Segment>, draws: int -> BrowseDraw)
    ensures forall t :: JourneyCurrent(ph, segs, draws)(t) == StepCurrent(ph, draws)(Schedule(segs)(t).0, t)
  {
  }

  /** The number of 15-second steps the simulation loop takes. */
  function JourneySteps(ph: Phone, segs: seq<Segment>, q0: real, draws: int -> BrowseDraw): nat
  {
    StopStep(JourneyCurrent(ph, segs, draws), q0, Dt, AtMost(Total(segs)), 0)
  }

  /** The charge when the loop stops. */
  function FinalCharge(ph: Phone, segs: seq<Segment>, q0: real, draws: int -> BrowseDraw): real
  {
    Charge(JourneyCurrent(ph, segs, draws), q0, Dt, JourneySteps(ph, segs, q0, draws))
  }

  /** The recorded state of charge: max(0, Q / Q_total * 100). */
  function SocPercent(q: real, capacity: PosReal): (r: real)
    ensures r >= 0.0
    ensures q > 0.0 ==> r == q / capacity * 100.0
    ensures q <= 0.0 ==> r == 0.0
  {
    Max(0.0, q / capacity * 100.0)
  }

  /** The five record lists of a journey: time_points, soc_points,
      current_points, app_points and segment_points. */
  datatype Trace = Trace(timeHours: seq<real>, socPercent: seq<real>, currentMa: seq<real>,
                         currentApp: seq<string>, segments: seq<nat>)

  /** The five lists have one entry per record. */
  predicate Aligned(tr: Trace)
  {
    |tr.socPercent| == |tr.timeHours| && |tr.currentMa| == |tr.timeHours| &&
    |tr.currentApp| == |tr.timeHours| && |tr.segments| == |tr.timeHours|
  }

  /** Appending one record to each list. */
  function Record(tr: Trace, time: real, soc: real, cur: real, app: string, index: nat): (r: Trace)
    requires Aligned(tr)
    ensures Aligned(r) && |r.timeHours| == |tr.timeHours| + 1
  {
    Trace(tr.timeHours + [time], tr.socPercent + [soc], tr.currentMa + [cur],
          tr.currentApp + [app], tr.segments + [index])
  }

  /** A record lands at the end of each list and leaves the earlier entries
      alone. */
  lemma RecordFacts(tr: Trace, time: real, soc: real, cur: real, app: string, index: nat)
    requires Aligned(tr)
    ensures var r := Record(tr, time, soc, cur, app, index); var s := |tr.timeHours|;
            r.timeHours[s] == time && r.socPercent[s] == soc && r.currentMa[s] == cur &&
            r.currentApp[s] == app && r.segments[s] == index &&
            r.timeHours[..s] == tr.timeHours && r.socPercent[..s] == tr.socPercent &&
            r.currentMa[..s] == tr.currentMa && r.currentApp[..s] == tr.currentApp &&
            r.segments[..s] == tr.segments
  {
  }

  /** The j-th 2-minute sample: recorded by the step that starts at t = 120 j
      (step 8 j), after that step's decrement and segment update. */
  ghost predicate SampleAt(lookup: Lookup, current: int -> real, q0: real, capacity: PosReal,
                           tr: Trace, j: nat)
    requires Aligned(tr) && j < |tr.timeHours|
  {
    tr.timeHours[j] == (120 * j) as real / 3600.0 &&
    tr.socPercent[j] == SocPercent(Charge(current, q0, Dt, 8 * j + 1), capacity) &&
    tr.currentMa[j] == current(120 * j) &&
    tr.currentApp[j] == lookup(120 * j).0 &&
    tr.segments[j] == Tracker(lookup, 8 * j + 1).0
  }

  /** The first s records are the samples SampleAt describes. */
  ghost predicate SamplesMatch(lookup: Lookup, current: int -> real, q0: real, capacity: PosReal,
                               tr: Trace, s: nat)
    requires Aligned(tr) && s <= |tr.timeHours|
  {
    forall j :: 0 <= j < s ==> SampleAt(lookup, current, q0, capacity, tr, j)
  }

  /** Appending a record leaves the first s samples as they were. */
  lemma SamplesKept(lookup: Lookup, current: int -> real, q0: real, capacity: PosReal,
                    tr: Trace, s: nat, time: real, soc: real, cur: real, app: string, index: nat)
    requires Aligned(tr) && s <= |tr.timeHours|
    requires SamplesMatch(lookup, current, q0, capacity, tr, s)
    ensures SamplesMatch(lookup, current, q0, capacity, Record(tr, time, soc, cur, app, index), s)
  {
    var r := Record(tr, time, soc, cur, app, index);
    RecordFacts(tr, time, soc, cur, app, index);
    forall j | 0 <= j < s
      ensures SampleAt(lookup, current, q0, capacity, r, j)
    {
      assert SampleAt(lookup, current, q0, capacity, tr, j);
      assert r.timeHours[j] == tr.timeHours[j] && r.socPercent[j] == tr.socPercent[j];
      assert r.currentMa[j] == tr.currentMa[j] && r.currentApp[j] == tr.currentApp[j];
      assert r.segments[j] == tr.segments[j];
    }
  }

  /** Recording the next sample keeps the trace matching. */
  lemma SamplesExtend(lookup: Lookup, current: int -> real, q0: real, capacity: PosReal,
                      tr: Trace, time: real, soc: real, cur: real, app: string, index: nat)
    requires Aligned(tr)
    requires SamplesMatch(lookup, current, q0, capacity, tr, |tr.timeHours|)
    requires var r := Record(tr, time, soc, cur, app, index);
             SampleAt(lookup, current, q0, capacity, r, |tr.timeHours|)
    ensures var r := Record(tr, time, soc, cur, app, index);
            SamplesMatch(lookup, current, q0, capacity, r, |r.timeHours|)
  {
    var r := Record(tr, time, soc, cur, app, index);
    SamplesKept(lookup, current, q0, capacity, tr, |tr.timeHours|, time, soc, cur, app, index);
    assert SamplesMatch(lookup, current, q0, capacity, r, |tr.timeHours|);
  }

  /** The recorded segment indices never decrease and never exceed the
      index after n steps, for a trace of samples taken within n steps. */
  lemma {:induction false} SamplesSorted(lookup: Lookup, current: int -> real, q0: real,
                                         capacity: PosReal, tr: Trace, n: nat)
    requires Aligned(tr) && SamplesMatch(lookup, current, q0, capacity, tr, |tr.timeHours|)
    requires 8 * |tr.timeHours| < n + 8
    ensures forall a, b :: 0 <= a < b < |tr.segments| ==> tr.segments[a] <= tr.segments[b]
    ensures forall j :: 0 <= j < |tr.segments| ==> tr.segments[j] <= Tracker(lookup, n).0
  {
    forall a, b | 0 <= a < b < |tr.segments|
      ensures tr.segments[a] <= tr.segments[b]
    {
      assert SampleAt(lookup, current, q0, capacity, tr, a);
      assert SampleAt(lookup, current, q0, capacity, tr, b);
      TrackerMonotone(lookup, 8 * a + 1, 8 * b + 1);
    }
    forall j | 0 <= j < |tr.segments|
      ensures tr.segments[j] <= Tracker(lookup, n).0
    {
      assert SampleAt(lookup, current, q0, capacity, tr, j);
      TrackerMonotone(lookup, 8 * j + 1, n);
    }
  }

  /** The loop keeps 8 s - 8 < n <= 8 s, s the number of samples, and a step
      records one exactly when it starts at a multiple of 120 s. */
  lemma SampleCount(n: nat, s: nat)
    requires n <= 8 * s < n + 8
    ensures (n * Dt) % 120 == 0 ==> n == 8 * s && n + 1 <= 8 * (s + 1) < n + 1 + 8
    ensures (n * Dt) % 120 != 0 ==> n + 1 <= 8 * s < n + 1 + 8
    ensures s == (n + 7) / 8
  {
  }

  /** The loop's variables: Q, segment_index, current_segment_start and the
      record lists. */
  datatype LoopState = LoopState(q: real, segmentIndex: nat, segmentStart: int, tr: Trace)

  /** One pass of the loop body at second t: the segment update, the charge
      decrement by the current at t, and a sample when t is a multiple of
      120 s. */
  function StepState(lookup: Lookup, currentOf: (string, int) -> real, capacity: PosReal,
                     st: LoopState, t: int): (r: LoopState)
    requires Aligned(st.tr)
    ensures Aligned(r.tr)
  {
    var (idx, cs) := TrackerStep(lookup, st.segmentIndex, st.segmentStart, t);
    var app := lookup(t).0;
    var i := currentOf(app, t);
    var q := st.q - i * (Dt as real / 3600.0);
    LoopState(q, idx, cs,
              if t % 120 == 0 then Record(st.tr, t as real / 3600.0, SocPercent(q, capacity), i, app, idx)
              else st.tr)
  }

  /** The loop's variables after n passes. */
  function RunState(lookup: Lookup, currentOf: (string, int) -> real, q0: real, capacity: PosReal,
                    n: nat): (r: LoopState)
    ensures Aligned(r.tr)
  {
    if n == 0 then LoopState(q0, 0, 0, Trace([], [], [], [], []))
    else StepState(lookup, currentOf, capacity, RunState(lookup, currentOf, q0, capacity, n - 1), (n - 1) * Dt)
  }

  /** After n passes Q is the integrated charge of the current the loop draws. */
  lemma {:induction false} RunCharge(lookup: Lookup, currentOf: (string, int) -> real,
                                     current: int -> real, q0: real, capacity: PosReal, n: nat)
    requires forall t :: current(t) == currentOf(lookup(t).0, t)
    ensures RunState(lookup, currentOf, q0, capacity, n).q == Charge(current, q0, Dt, n)
  {
    if n > 0 {
      var prev := RunState(lookup, currentOf, q0, capacity, n - 1);
      RunCharge(lookup, currentOf, current, q0, capacity, n - 1);
      assert current((n - 1) * Dt) == currentOf(lookup((n - 1) * Dt).0, (n - 1) * Dt);
      assert RunState(lookup, currentOf, q0, capacity, n) == StepState(lookup, currentOf, capacity, prev, (n - 1) * Dt);
    }
  }

  /** After n passes the segment bookkeeping is the tracker's. */
  lemma {:induction false} RunTracker(lookup: Lookup, currentOf: (string, int) -> real,
                                      q0: real, capacity: PosReal, n: nat)
    ensures var st := RunState(lookup, currentOf, q0, capacity, n);
            (st.segmentIndex, st.segmentStart) == Tracker(lookup, n)
  {
    if n > 0 {
      RunTracker(lookup, currentOf, q0, capacity, n - 1);
    }
  }

  /** After n passes the lists hold one sample per started 2-minute mark, each
      the one SampleAt describes. */
  lemma {:induction false} RunSamples(lookup: Lookup, currentOf: (string, int) -> real,
                                      current: int -> real, q0: real, capacity: PosReal, n: nat)
    requires forall t :: current(t) == currentOf(lookup(t).0, t)
    ensures var tr := RunState(lookup, currentOf, q0, capacity, n).tr;
            n <= 8 * |tr.timeHours| < n + 8 &&
            SamplesMatch(lookup, current, q0, capacity, tr, |tr.timeHours|)
  {
    if n > 0 {
      var m := n - 1;
      RunSamples(lookup, currentOf, current, q0, capacity, m);
      RunCharge(lookup, currentOf, current, q0, capacity, m);
      RunTracker(lookup, currentOf, q0, capacity, m);
      var prev := RunState(lookup, currentOf, q0, capacity, m);
      assert RunState(lookup, currentOf, q0, capacity, n) == StepState(lookup, currentOf, capacity, prev, m * Dt);
      SamplesStep(lookup, currentOf, current, q0, capacity, prev, m);
    }
  }

  /** One pass of the loop body from a state that matches its m steps keeps
      the samples matching: it records the next one exactly when it starts at
      a multiple of 120 s. */
  lemma SamplesStep(lookup: Lookup, currentOf: (string, int) -> real, current: int -> real,
                    q0: real, capacity: PosReal, prev: LoopState, m: nat)
    requires forall t :: current(t) == currentOf(lookup(t).0, t)
    requires Aligned(prev.tr) && m <= 8 * |prev.tr.timeHours| < m + 8
    requires SamplesMatch(lookup, current, q0, capacity, prev.tr, |prev.tr.timeHours|)
    requires prev.q == Charge(current, q0, Dt, m)
    requires (prev.segmentIndex, prev.segmentStart) == Tracker(lookup, m)
    ensures var tr := StepState(lookup, currentOf, capacity, prev, m * Dt).tr;
            m + 1 <= 8 * |tr.timeHours| < m + 1 + 8 &&
            SamplesMatch(lookup, current, q0, capacity, tr, |tr.timeHours|)
  {
    var t := m * Dt;
    SampleCount(m, |prev.tr.timeHours|);
    if t % 120 == 0 {
      SamplesRecord(lookup, currentOf, current, q0, capacity, prev, m);
    }
  }

  /** A pass that starts at a multiple of 120 s records the sample SampleAt
      describes for it, after the ones already matched. */
  lemma SamplesRecord(lookup: Lookup, currentOf: (string, int) -> real, current: int -> real,
                      q0: real, capacity: PosReal, prev: LoopState, m: nat)
    requires forall t :: current(t) == currentOf(lookup(t).0, t)
    requires Aligned(prev.tr) && m == 8 * |prev.tr.timeHours|
    requires SamplesMatch(lookup, current, q0, capacity, prev.tr, |prev.tr.timeHours|)
    requires prev.q == Charge(current, q0, Dt, m)
    requires (prev.segmentIndex, prev.segmentStart) == Tracker(lookup, m)
    ensures var tr := StepState(lookup, currentOf, capacity, prev, m * Dt).tr;
            |tr.timeHours| == |prev.tr.timeHours| + 1 &&
            SamplesMatch(lookup, current, q0, capacity, tr, |tr.timeHours|)
  {
    var s := |prev.tr.timeHours|;
    var t := 120 * s;
    assert m * Dt == t;
    var app := lookup(t).0;
    var i := currentOf(app, t);
    var q := prev.q - i * (Dt as real / 3600.0);
    var (idx, cs) := TrackerStep(lookup, prev.segmentIndex, prev.segmentStart, t);
    var r := Record(prev.tr, t as real / 3600.0, SocPercent(q, capacity), i, app, idx);
    assert StepState(lookup, currentOf, capacity, prev, m * Dt) == LoopState(q, idx, cs, r);
    ChargeNext(current, q0, Dt, m);
    assert current(t) == i;
    assert q == Charge(current, q0, Dt, 8 * s + 1);
    assert idx == Tracker(lookup, 8 * s + 1).0;
    RecordFacts(prev.tr, t as real / 3600.0, SocPercent(q, capacity), i, app, idx);
    assert SampleAt(lookup, current, q0, capacity, r, s);
    SamplesExtend(lookup, current, q0, capacity, prev.tr, t as real / 3600.0, SocPercent(q, capacity), i, app, idx);
  }

  /** The number of passes the loop makes from pass n on: the first pass k
      at whose start t = k * Dt is past total or Q is no longer positive. */
  function RunSteps(lookup: Lookup, currentOf: (string, int) -> real, q0: real, capacity: PosReal,
                    total: nat, n: nat): (k: nat)
    ensures n <= k
    decreases total + 1 - n * Dt
  {
    if n * Dt <= total && RunState(lookup, currentOf, q0, capacity, n).q > 0.0
    then RunSteps(lookup, currentOf, q0, capacity, total, n + 1)
    else n
  }

  /** With the current the loop draws, RunSteps is the integration's StopStep:
      the loop stops at the first step whose start is past total or whose
      charge is no longer positive. */
  lemma {:induction false} RunStepsStop(lookup: Lookup, currentOf: (string, int) -> real,
                                        current: int -> real, q0: real, capacity: PosReal,
                                        total: nat, n: nat)
    requires forall t :: current(t) == currentOf(lookup(t).0, t)
    ensures RunSteps(lookup, currentOf, q0, capacity, total, n) == StopStep(current, q0, Dt, AtMost(total), n)
    decreases total + 1 - n * Dt
  {
    RunCharge(lookup, currentOf, current, q0, capacity, n);
    if n * Dt <= total && Charge(current, q0, Dt, n) > 0.0 {
      RunStepsStop(lookup, currentOf, current, q0, capacity, total, n + 1);
    }
  }

  /** The simulation loop of simulate_journey, on a journey of total seconds.
      It calls the two helpers simulate_journey uses: lookup, its nested
      get_current_app, and currentOf(app, t), the simulator's
      calculate_current; current is the current that results at each second.
      It runs the steps while t is within the journey and charge remains;
      each pass is one StepState. */
  method JourneyLoop(lookup: Lookup, currentOf: (string, int) -> real, total: nat, q0: real, capacity: PosReal)
    returns (n: nat, q: real, segmentIndex: nat, tr: Trace)
    ensures n == RunSteps(lookup, currentOf, q0, capacity, total, 0)
    ensures var st := RunState(lookup, currentOf, q0, capacity, n);
            q == st.q && segmentIndex == st.segmentIndex && tr == st.tr
  {
    q := q0;
    var t: int := 0;
    tr := Trace([], [], [], [], []);
    segmentIndex := 0;
    var currentSegmentStart := 0;
    n := 0;
    while t <= total && q > 0.0
      invariant t == n * Dt
      invariant LoopState(q, segmentIndex, currentSegmentStart, tr) == RunState(lookup, currentOf, q0, capacity, n)
      invariant RunSteps(lookup, currentOf, q0, capacity, total, n) == RunSteps(lookup, currentOf, q0, capacity, total, 0)
      decreases total - t
    {
      ghost var prev := LoopState(q, segmentIndex, currentSegmentStart, tr);
      var app := lookup(t).0;
      var segmentStart := lookup(t).1;
      if t == 0 || t - segmentStart * 60 < Dt {
        if segmentStart > currentSegmentStart {
          currentSegmentStart := segmentStart;
          segmentIndex := segmentIndex + 1;
        }
      }
      assert (segmentIndex, currentSegmentStart) == TrackerStep(lookup, prev.segmentIndex, prev.segmentStart, t);
      var iNow := currentOf(app, t);
      q := q - iNow * (Dt as real / 3600.0);
      if t % 120 == 0 {
        tr := Record(tr, t as real / 3600.0, SocPercent(q, capacity), iNow, app, segmentIndex);
      }
      assert LoopState(q, segmentIndex, currentSegmentStart, tr) == StepState(lookup, currentOf, capacity, prev, t);
      assert RunState(lookup, currentOf, q0, capacity, n + 1) == StepState(lookup, currentOf, capacity, prev, t);
      t := t + Dt;
      n := n + 1;
    }
  }

  // ------------------------------------------------------------ the result

  /** The closing record: the end state (current 0, app "end", time
      min(t, total) in hours) is appended when nothing was sampled or the last
      sample lies before the journey's end. */
  function CloseTrace(tr: Trace, t: int, total: nat, soc: real, index: nat): (r: Trace)
    requires Aligned(tr)
    ensures Aligned(r)
  {
    if |tr.timeHours| == 0 || tr.timeHours[|tr.timeHours| - 1] < total as real / 3600.0
    then Record(tr, (if t < total then t else total) as real / 3600.0, soc, 0.0, "end", index)
    else tr
  }

  /** The record lists simulate_journey returns: the loop's samples and the
      closing record. */
  function LoopTrace(lookup: Lookup, currentOf: (string, int) -> real, q0: real, capacity: PosReal,
                     total: nat): (r: Trace)
    ensures Aligned(r)
  {
    var k := RunSteps(lookup, currentOf, q0, capacity, total, 0);
    var st := RunState(lookup, currentOf, q0, capacity, k);
    CloseTrace(st.tr, k * Dt, total, SocPercent(st.q, capacity), st.segmentIndex)
  }

  /** The closing record is appended exactly when nothing was recorded or the
      last record is before total, and leaves the earlier records alone. */
  lemma CloseTraceFacts(tr: Trace, t: int, total: nat, soc: real, index: nat)
    requires Aligned(tr)
    ensures var r := CloseTrace(tr, t, total, soc, index); var s := |tr.timeHours|;
            (|r.timeHours| == s || |r.timeHours| == s + 1) &&
            (|r.timeHours| == s + 1 <==> s == 0 || tr.timeHours[s - 1] < total as real / 3600.0) &&
            r.timeHours[..s] == tr.timeHours && r.socPercent[..s] == tr.socPercent &&
            r.currentMa[..s] == tr.currentMa && r.currentApp[..s] == tr.currentApp &&
            r.segments[..s] == tr.segments &&
            (|r.timeHours| == s + 1 ==>
               r.timeHours[s] == (if t < total then t else total) as real / 3600.0 &&
               r.socPercent[s] == soc && r.currentMa[s] == 0.0 && r.currentApp[s] == "end" &&
               r.segments[s] == index)
  {
    var s := |tr.timeHours|;
    if s == 0 || tr.timeHours[s - 1] < total as real / 3600.0 {
      RecordFacts(tr, (if t < total then t else total) as real / 3600.0, soc, 0.0, "end", index);
    }
  }

  /** The record lists are in order: the times strictly increase, the segment
      indices never decrease, and no state of charge is negative. */
  predicate TraceOrdered(tr: Trace)
  {
    (forall a, b :: 0 <= a < b < |tr.timeHours| ==> tr.timeHours[a] < tr.timeHours[b]) &&
    (forall a, b :: 0 <= a < b < |tr.segments| ==> tr.segments[a] <= tr.segments[b]) &&
    (forall j :: 0 <= j < |tr.socPercent| ==> tr.socPercent[j] >= 0.0)
  }

  /** A trace that extends an ordered one by a single record with a later
      time, an index no smaller than all earlier ones and a non-negative state
      of charge is ordered as well. */
  lemma OrderedAfterClose(tr: Trace, r: Trace)
    requires Aligned(tr) && Aligned(r) && |r.timeHours| == |tr.timeHours| + 1
    requires r.timeHours[..|tr.timeHours|] == tr.timeHours && r.socPercent[..|tr.timeHours|] == tr.socPercent
    requires r.segments[..|tr.timeHours|] == tr.segments
    requires TraceOrdered(tr)
    requires |tr.timeHours| > 0 ==> tr.timeHours[|tr.timeHours| - 1] < r.timeHours[|tr.timeHours|]
    requires forall j :: 0 <= j < |tr.segments| ==> tr.segments[j] <= r.segments[|tr.timeHours|]
    requires r.socPercent[|tr.timeHours|] >= 0.0
    ensures TraceOrdered(r)
  {
    var s := |tr.timeHours|;
    forall a, b | 0 <= a < b < s + 1
      ensures r.timeHours[a] < r.timeHours[b] && r.segments[a] <= r.segments[b]
    {
      assert r.timeHours[a] == tr.timeHours[a] && r.segments[a] == tr.segments[a];
      if b < s {
        assert r.timeHours[b] == tr.timeHours[b] && r.segments[b] == tr.segments[b];
      } else if a < s - 1 {
        assert tr.timeHours[a] < tr.timeHours[s - 1];
      }
    }
    forall j | 0 <= j < s + 1
      ensures r.socPercent[j] >= 0.0
    {
      if j < s {
        assert r.socPercent[j] == tr.socPercent[j];
      }
    }
  }

  /** Where the loop ends after k = StopStep steps: Q is the charge after k
      steps, the segment index the tracker's, and the lists hold the
      (k + 7) / 8 samples SampleAt describes. */
  lemma LoopEnd(lookup: Lookup, currentOf: (string, int) -> real, current: int -> real,
                q0: real, capacity: PosReal, total: nat)
    requires forall t :: current(t) == currentOf(lookup(t).0, t)
    ensures var k := StopStep(current, q0, Dt, AtMost(total), 0);
            var st := RunState(lookup, currentOf, q0, capacity, k);
            RunSteps(lookup, currentOf, q0, capacity, total, 0) == k &&
            st.q == Charge(current, q0, Dt, k) && st.segmentIndex == Tracker(lookup, k).0 &&
            |st.tr.timeHours| == (k + 7) / 8 && k <= 8 * |st.tr.timeHours| < k + 8 &&
            SamplesMatch(lookup, current, q0, capacity, st.tr, |st.tr.timeHours|)
  {
    var k := StopStep(current, q0, Dt, AtMost(total), 0);
    RunStepsStop(lookup, currentOf, current, q0, capacity, total, 0);
    RunSamples(lookup, currentOf, current, q0, capacity, k);
    RunCharge(lookup, currentOf, current, q0, capacity, k);
    RunTracker(lookup, currentOf, q0, capacity, k);
    SampleCount(k, |RunState(lookup, currentOf, q0, capacity, k).tr.timeHours|);
  }

  /** Sample times strictly increase, the last one is at 120 (s - 1) seconds,
      and no sampled state of charge is negative. */
  lemma SamplesIncrease(lookup: Lookup, current: int -> real, q0: real, capacity: PosReal, tr: Trace)
    requires Aligned(tr) && SamplesMatch(lookup, current, q0, capacity, tr, |tr.timeHours|)
    ensures forall a, b :: 0 <= a < b < |tr.timeHours| ==> tr.timeHours[a] < tr.timeHours[b]
    ensures forall j :: 0 <= j < |tr.socPercent| ==> tr.socPercent[j] >= 0.0
    ensures |tr.timeHours| > 0 ==> tr.timeHours[|tr.timeHours| - 1] == (120 * (|tr.timeHours| - 1)) as real / 3600.0
  {
    forall a, b | 0 <= a < b < |tr.timeHours|
      ensures tr.timeHours[a] < tr.timeHours[b]
    {
      assert SampleAt(lookup, current, q0, capacity, tr, a);
      assert SampleAt(lookup, current, q0, capacity, tr, b);
    }
    forall j | 0 <= j < |tr.socPercent|
      ensures tr.socPercent[j] >= 0.0
    {
      assert SampleAt(lookup, current, q0, capacity, tr, j);
    }
    if |tr.timeHours| > 0 {
      assert SampleAt(lookup, current, q0, capacity, tr, |tr.timeHours| - 1);
    }
  }

  /** The returned lists, for a loop of k steps: one sample for each of the
      (k + 7) / 8 two-minute marks the loop reached, as SampleAt describes,
      then the closing record exactly when nothing was sampled or the last
      sample is before total. */
  lemma LoopTraceShape(lookup: Lookup, currentOf: (string, int) -> real, current: int -> real,
                       q0: real, capacity: PosReal, total: nat)
    requires forall t :: current(t) == currentOf(lookup(t).0, t)
    ensures var k := StopStep(current, q0, Dt, AtMost(total), 0);
            var s := (k + 7) / 8;
            var tr := LoopTrace(lookup, currentOf, q0, capacity, total);
            (|tr.timeHours| == s || |tr.timeHours| == s + 1) &&
            SamplesMatch(lookup, current, q0, capacity, tr, s) &&
            (|tr.timeHours| == s + 1 <==> s == 0 || 120 * (s - 1) < total) &&
            (|tr.timeHours| == s + 1 ==>
               tr.timeHours[s] == (if k * Dt < total then k * Dt else total) as real / 3600.0 &&
               tr.socPercent[s] == SocPercent(Charge(current, q0, Dt, k), capacity) &&
               tr.currentMa[s] == 0.0 && tr.currentApp[s] == "end" &&
               tr.segments[s] == Tracker(lookup, k).0)
  {
    var k := StopStep(current, q0, Dt, AtMost(total), 0);
    LoopEnd(lookup, currentOf, current, q0, capacity, total);
    var st := RunState(lookup, currentOf, q0, capacity, k);
    ClosedShape(lookup, current, q0, capacity, st.tr, k * Dt, total, SocPercent(st.q, capacity), st.segmentIndex);
    assert LoopTrace(lookup, currentOf, q0, capacity, total)
           == CloseTrace(st.tr, k * Dt, total, SocPercent(st.q, capacity), st.segmentIndex);
  }

  /** Closing a trace of s samples keeps them, and adds the closing record
      exactly when s is 0 or the last sample, at 120 (s - 1) seconds, is
      before total. */
  lemma ClosedShape(lookup: Lookup, current: int -> real, q0: real, capacity: PosReal,
                    tr: Trace, t: int, total: nat, soc: real, index: nat)
    requires Aligned(tr) && SamplesMatch(lookup, current, q0, capacity, tr, |tr.timeHours|)
    ensures var s := |tr.timeHours|;
            var r := CloseTrace(tr, t, total, soc, index);
            (|r.timeHours| == s || |r.timeHours| == s + 1) &&
            SamplesMatch(lookup, current, q0, capacity, r, s) &&
            (|r.timeHours| == s + 1 <==> s == 0 || 120 * (s - 1) < total) &&
            (|r.timeHours| == s + 1 ==>
               r.timeHours[s] == (if t < total then t else total) as real / 3600.0 &&
               r.socPercent[s] == soc && r.currentMa[s] == 0.0 && r.currentApp[s] == "end" &&
               r.segments[s] == index)
  {
    var s := |tr.timeHours|;
    SamplesIncrease(lookup, current, q0, capacity, tr);
    CloseTraceFacts(tr, t, total, soc, index);
    if s > 0 {
      assert tr.timeHours[s - 1] < total as real / 3600.0 <==> 120 * (s - 1) < total;
    }
    if s == 0 || tr.timeHours[s - 1] < total as real / 3600.0 {
      var endTime := (if t < total then t else total) as real / 3600.0;
      SamplesKept(lookup, current, q0, capacity, tr, s, endTime, soc, 0.0, "end", index);
      assert CloseTrace(tr, t, total, soc, index) == Record(tr, endTime, soc, 0.0, "end", index);
    }
  }

  /** The returned times strictly increase, the segment indices never
      decrease, and every state of charge is at least 0. */
  lemma LoopTraceOrdered(lookup: Lookup, currentOf: (string, int) -> real, current: int -> real,
                         q0: real, capacity: PosReal, total: nat)
    requires forall t :: current(t) == currentOf(lookup(t).0, t)
    ensures TraceOrdered(LoopTrace(lookup, currentOf, q0, capacity, total))
  {
    var k := StopStep(current, q0, Dt, AtMost(total), 0);
    LoopEnd(lookup, currentOf, current, q0, capacity, total);
    var st := RunState(lookup, currentOf, q0, capacity, k);
    ClosedOrdered(lookup, current, q0, capacity, st.tr, k * Dt, total, SocPercent(st.q, capacity),
                  st.segmentIndex, k);
    assert LoopTrace(lookup, currentOf, q0, capacity, total)
           == CloseTrace(st.tr, k * Dt, total, SocPercent(st.q, capacity), st.segmentIndex);
  }

  /** Closing a trace of samples taken within n steps, at a time t past the
      last sample, with the index after n steps and a non-negative state of
      charge, gives an ordered trace. */
  lemma ClosedOrdered(lookup: Lookup, current: int -> real, q0: real, capacity: PosReal,
                      tr: Trace, t: int, total: nat, soc: real, index: nat, n: nat)
    requires Aligned(tr) && SamplesMatch(lookup, current, q0, capacity, tr, |tr.timeHours|)
    requires 8 * |tr.timeHours| < n + 8 && t == n * Dt
    requires index == Tracker(lookup, n).0 && soc >= 0.0
    ensures TraceOrdered(CloseTrace(tr, t, total, soc, index))
  {
    var s := |tr.timeHours|;
    SamplesIncrease(lookup, current, q0, capacity, tr);
    SamplesSorted(lookup, current, q0, capacity, tr, n);
    assert TraceOrdered(tr);
    CloseTraceFacts(tr, t, total, soc, index);
    var r := CloseTrace(tr, t, total, soc, index);
    if |r.timeHours| == s + 1 {
      if s > 0 {
        assert 120 * (s - 1) < t;
        assert tr.timeHours[s - 1] < r.timeHours[s];
      }
      OrderedAfterClose(tr, r);
    }
  }

  /** energy_used: the drop in state of charge, in percent, as a charge. */
  function EnergyUsed(socInitial: real, finalSoc: real, capacity: PosReal): real
  {
    (socInitial * 100.0 - finalSoc) / 100.0 * capacity
  }

  /** One entry of the results: the fields of simulate_journey's dictionary. */
  datatype JourneyResult = JourneyResult(journeyId: string, journeyName: string, description: string,
                                         trace: Trace, finalSoc: real, energyUsed: real,
                                         totalDuration: real, segmentsDetail: seq<Segment>)

  /** What simulate_journey returns for a journey, starting from
      soc_initial * Q_total, when lookup is its get_current_app and currentOf
      the simulator's calculate_current. */
  function RunJourney(id: string, journey: Journey, socInitial: real, capacity: PosReal,
                      lookup: Lookup, currentOf: (string, int) -> real): (r: JourneyResult)
    ensures r.journeyId == id && r.journeyName == journey.name && r.description == journey.description
    ensures r.segmentsDetail == journey.segments
    ensures r.totalDuration == Total(journey.segments) as real / 3600.0
  {
    var total := Total(journey.segments);
    var q0 := socInitial * capacity;
    var k := RunSteps(lookup, currentOf, q0, capacity, total, 0);
    var finalSoc := SocPercent(RunState(lookup, currentOf, q0, capacity, k).q, capacity);
    JourneyResult(id, journey.name, journey.description,
                  LoopTrace(lookup, currentOf, q0, capacity, total), finalSoc,
                  EnergyUsed(socInitial, finalSoc, capacity),
                  total as real / 3600.0, journey.segments)
  }

  /** simulate_journey's outcome for any id: an id missing from the table
      raises KeyError. */
  function JourneyOutcome(ph: Phone, id: string, socInitial: real, draws: int -> BrowseDraw): (r: Result<JourneyResult>)
    ensures r.Err? <==> id !in Journeys
    ensures r.Err? ==> r.error == KeyError(id)
  {
    if id !in Journeys then Err(KeyError(id))
    else Ok(RunJourney(id, Journeys[id], socInitial, ph.capacity, Schedule(Journeys[id].segments),
                       StepCurrent(ph, draws)))
  }

  /** The body of simulate_journey once the journey is looked up: the loop,
      then the closing record and the summary. */
  method SimulateSegments(journeyId: string, journey: Journey, socInitial: real, capacity: PosReal,
                          lookup: Lookup, currentOf: (string, int) -> real) returns (result: JourneyResult)
    ensures result == RunJourney(journeyId, journey, socInitial, capacity, lookup, currentOf)
  {
    var total := Total(journey.segments);
    var q0 := socInitial * capacity;
    var n, q, segmentIndex, tr := JourneyLoop(lookup, currentOf, total, q0, capacity);
    var t := n * Dt;
    ghost var closed := CloseTrace(tr, t, total, SocPercent(q, capacity), segmentIndex);
    if |tr.timeHours| == 0 || tr.timeHours[|tr.timeHours| - 1] < total as real / 3600.0 {
      var finalTime := (if t < total then t else total) as real / 3600.0;
      tr := Record(tr, finalTime, SocPercent(q, capacity), 0.0, "end", segmentIndex);
      assert tr == closed;
    } else {
      assert tr == closed;
    }
    assert tr == LoopTrace(lookup, currentOf, q0, capacity, total);
    var finalSoc := SocPercent(q, capacity);
    var energyUsed := EnergyUsed(socInitial, finalSoc, capacity);
    result := JourneyResult(journeyId, journey.name, journey.description, tr, finalSoc, energyUsed,
                            total as real / 3600.0, journey.segments);
  }

  /** simulate_journey: the table lookup, which raises KeyError for an
      unknown id, then the simulation of the journey found. */
  method SimulateJourney(ph: Phone, journeyId: string, socInitial: real, draws: int -> BrowseDraw)
    returns (r: Result<JourneyResult>)
    ensures r == JourneyOutcome(ph, journeyId, socInitial, draws)
  {
    if journeyId !in Journeys {
      return Err(KeyError(journeyId));
    }
    var journey := Journeys[journeyId];
    var result := SimulateSegments(journeyId, journey, socInitial, ph.capacity,
                                   Schedule(journey.segments), StepCurrent(ph, draws));
    r := Ok(result);
  }

  // ------------------------------------------------------------ properties

  /** energy_used is s * Q_total - Q
      while charge remains and s * Q_total once the battery is empty. */
  lemma EnergyFormula(socInitial: real, q: real, capacity: PosReal)
    ensures q > 0.0 ==> EnergyUsed(socInitial, SocPercent(q, capacity), capacity) == socInitial * capacity - q
    ensures q <= 0.0 ==> EnergyUsed(socInitial, SocPercent(q, capacity), capacity) == socInitial * capacity
  {
    if q > 0.0 {
      assert q / capacity * capacity == q;
    }
  }

  /** The recorded state of charge grows with the charge, and a full charge
      of s * Q_total reads as s * 100 percent. */
  lemma SocPercentMonotone(q: real, q0: real, capacity: PosReal)
    requires q <= q0
    ensures SocPercent(q, capacity) <= SocPercent(q0, capacity)
  {
    DivMonotone(q, q0, capacity);
  }

  lemma SocPercentOfInitial(socInitial: real, capacity: PosReal)
    requires socInitial >= 0.0
    ensures SocPercent(socInitial * capacity, capacity) == socInitial * 100.0
  {
    assert socInitial * capacity / capacity == socInitial;
  }

  /** The summary of a journey whose loop draws current: final_soc is the
      state of charge the loop stopped at, and energy_used is the charge drawn
      from soc_initial * Q_total, or all of it once the battery is empty. */
  lemma JourneyEnergy(id: string, journey: Journey, socInitial: real, capacity: PosReal,
                      lookup: Lookup, currentOf: (string, int) -> real, current: int -> real)
    requires forall t :: current(t) == currentOf(lookup(t).0, t)
    ensures var q0 := socInitial * capacity;
            var q := Charge(current, q0, Dt, StopStep(current, q0, Dt, AtMost(Total(journey.segments)), 0));
            var r := RunJourney(id, journey, socInitial, capacity, lookup, currentOf);
            r.finalSoc == SocPercent(q, capacity) &&
            (q > 0.0 ==> r.energyUsed == q0 - q) &&
            (q <= 0.0 ==> r.energyUsed == q0)
  {
    var q0 := socInitial * capacity;
    var total := Total(journey.segments);
    var q := Charge(current, q0, Dt, StopStep(current, q0, Dt, AtMost(total), 0));
    LoopEnd(lookup, currentOf, current, q0, capacity, total);
    var r := RunJourney(id, journey, socInitial, capacity, lookup, currentOf);
    assert r.finalSoc == SocPercent(q, capacity);
    assert r.energyUsed == EnergyUsed(socInitial, SocPercent(q, capacity), capacity);
    EnergyFormula(socInitial, q, capacity);
  }

  /** When no current is negative the battery never gains charge: the energy
      used lies between 0 and the initial charge, and the final state of
      charge is at most the initial one. */
  lemma JourneyEnergyBounds(id: string, journey: Journey, socInitial: real, capacity: PosReal,
                            lookup: Lookup, currentOf: (string, int) -> real, current: int -> real)
    requires forall t :: current(t) == currentOf(lookup(t).0, t)
    requires forall t :: current(t) >= 0.0
    requires socInitial >= 0.0
    ensures var r := RunJourney(id, journey, socInitial, capacity, lookup, currentOf);
            0.0 <= r.energyUsed <= socInitial * capacity && r.finalSoc <= socInitial * 100.0
  {
    var q0 := socInitial * capacity;
    var k := StopStep(current, q0, Dt, AtMost(Total(journey.segments)), 0);
    var q := Charge(current, q0, Dt, k);
    JourneyEnergy(id, journey, socInitial, capacity, lookup, currentOf, current);
    ChargeNonIncreasing(current, q0, Dt, 0, k);
    MulNonNeg(socInitial, capacity);
    SocPercentMonotone(q, q0, capacity);
    SocPercentOfInitial(socInitial, capacity);
  }

  /** A phone whose subsystems draw non-negative currents gives every journey
      a non-negative current. */
  lemma JourneyCurrentNonNegative(ph: Phone, segs: seq<Segment>, draws: int -> BrowseDraw)
    requires ValidPhone(ph)
    ensures forall t :: JourneyCurrent(ph, segs, draws)(t) >= 0.0
  {
    forall t ensures JourneyCurrent(ph, segs, draws)(t) >= 0.0 {
      AppCurrentNonNegative(ph, CurrentApp(segs, t).0, t, draws(t));
    }
  }

  /** total_duration is four hours for the journeys of the table, five for
      journey 3. */
  lemma JourneyDurations(ph: Phone, id: string, socInitial: real, draws: int -> BrowseDraw)
    requires id in Journeys
    ensures JourneyOutcome(ph, id, socInitial, draws).value.totalDuration == (if id == "journey_3" then 5.0 else 4.0)
  {
    JourneyMinutes(id);
  }

  /** The trace of a journey run is ordered, whatever the journey. */
  lemma RunJourneyOrdered(id: string, journey: Journey, socInitial: real, capacity: PosReal,
                          lookup: Lookup, currentOf: (string, int) -> real, current: int -> real)
    requires forall t :: current(t) == currentOf(lookup(t).0, t)
    ensures TraceOrdered(RunJourney(id, journey, socInitial, capacity, lookup, currentOf).trace)
  {
    LoopTraceOrdered(lookup, currentOf, current, socInitial * capacity, capacity, Total(journey.segments));
  }

  /** For a journey of the table, the returned times strictly increase, the
      segment indices never decrease, and no state of charge is negative. */
  lemma JourneyTraceOrdered(ph: Phone, id: string, socInitial: real, draws: int -> BrowseDraw)
    requires id in Journeys
    ensures TraceOrdered(JourneyOutcome(ph, id, socInitial, draws).value.trace)
  {
    var journey := Journeys[id];
    var segs := journey.segments;
    JourneyCurrentLink(ph, segs, draws);
    RunJourneyOrdered(id, journey, socInitial, ph.capacity, Schedule(segs), StepCurrent(ph, draws),
                      JourneyCurrent(ph, segs, draws));
    assert JourneyOutcome(ph, id, socInitial, draws).value
           == RunJourney(id, journey, socInitial, ph.capacity, Schedule(segs), StepCurrent(ph, draws));
  }

  /** The segment indices a journey run records, closing record included,
      are all 0 whatever the journey and the currents. */
  lemma RunSegmentsZero(id: string, journey: Journey, socInitial: real, capacity: PosReal,
                        currentOf: (string, int) -> real, current: int -> real)
    requires forall t :: current(t) == currentOf(Schedule(journey.segments)(t).0, t)
    ensures var tr := RunJourney(id, journey, socInitial, capacity, Schedule(journey.segments), currentOf).trace;
            forall j :: 0 <= j < |tr.segments| ==> tr.segments[j] == 0
  {
    var segs := journey.segments;
    var q0 := socInitial * capacity;
    assert RunJourney(id, journey, socInitial, capacity, Schedule(segs), currentOf).trace
           == LoopTrace(Schedule(segs), currentOf, q0, capacity, Total(segs));
    LoopSegmentsZero(segs, currentOf, current, q0, capacity, Total(segs));
  }

  /** The lists the loop and the closing record leave record index 0 only. */
  lemma LoopSegmentsZero(segs: seq<Segment>, currentOf: (string, int) -> real, current: int -> real,
                         q0: real, capacity: PosReal, total: nat)
    requires forall t :: current(t) == currentOf(Schedule(segs)(t).0, t)
    ensures var tr := LoopTrace(Schedule(segs), currentOf, q0, capacity, total);
            forall j :: 0 <= j < |tr.segments| ==> tr.segments[j] == 0
  {
    var lookup := Schedule(segs);
    var k := StopStep(current, q0, Dt, AtMost(total), 0);
    var s := (k + 7) / 8;
    var tr := LoopTrace(lookup, currentOf, q0, capacity, total);
    LoopTraceShape(lookup, currentOf, current, q0, capacity, total);
    SampledSegmentsZero(segs, current, q0, capacity, tr, s);
    SegmentIndexStaysZero(segs, k);
    assert |tr.segments| == s || (|tr.segments| == s + 1 && tr.segments[s] == 0);
    ZeroUpTo(tr.segments, s);
  }

  /** A list whose first s entries are 0, with at most one more entry that is
      0 too, is all zeros. */
  lemma ZeroUpTo(xs: seq<nat>, s: nat)
    requires |xs| == s || (|xs| == s + 1 && xs[s] == 0)
    requires forall j :: 0 <= j < s ==> xs[j] == 0
    ensures forall j :: 0 <= j < |xs| ==> xs[j] == 0
  {
  }

  /** Samples that match the run of a journey record index 0. */
  lemma SampledSegmentsZero(segs: seq<Segment>, current: int -> real, q0: real, capacity: PosReal,
                            tr: Trace, s: nat)
    requires Aligned(tr) && s <= |tr.timeHours|
    requires SamplesMatch(Schedule(segs), current, q0, capacity, tr, s)
    ensures forall j :: 0 <= j < s ==> tr.segments[j] == 0
  {
    forall j | 0 <= j < s
      ensures tr.segments[j] == 0
    {
      assert SampleAt(Schedule(segs), current, q0, capacity, tr, j);
      SegmentIndexStaysZero(segs, 8 * j + 1);
    }
  }

  /** The segments list of every journey of the table is all zeros: the
      recorded segment_index never leaves 0. */
  lemma JourneySegmentsAllZero(ph: Phone, id: string, socInitial: real, draws: int -> BrowseDraw)
    requires id in Journeys
    ensures var segments := JourneyOutcome(ph, id, socInitial, draws).value.trace.segments;
            forall j :: 0 <= j < |segments| ==> segments[j] == 0
  {
    var journey := Journeys[id];
    var segs := journey.segments;
    JourneyCurrentLink(ph, segs, draws);
    RunSegmentsZero(id, journey, socInitial, ph.capacity, StepCurrent(ph, draws), JourneyCurrent(ph, segs, draws));
    assert JourneyOutcome(ph, id, socInitial, draws).value
           == RunJourney(id, journey, socInitial, ph.capacity, Schedule(segs), StepCurrent(ph, draws));
  }

  /** The journey loop stops once a step would start past the journey's end
      or the charge has run out, and never later: its last step starts
      within the journey, and a journey started with charge takes a step. */
  lemma JourneyStops(ph: Phone, segs: seq<Segment>, q0: real, draws: int -> BrowseDraw)
    ensures var k := JourneySteps(ph, segs, q0, draws);
            (k * Dt > Total(segs) || FinalCharge(ph, segs, q0, draws) <= 0.0) &&
            (k > 0 ==> (k - 1) * Dt <= Total(segs)) &&
            (q0 > 0.0 ==> k > 0)
  {
    StopStepBounds(JourneyCurrent(ph, segs, draws), q0, Dt, AtMost(Total(segs)));
  }

  // ------------------------------------------------------------ all journeys

  /** The journey ids in the table's order. */
  const JourneyIds: seq<string> := ["journey_1", "journey_2", "journey_3", "journey_4"]

  lemma JourneyIdsAreKeys()
    ensures Journeys.Keys == set i | 0 <= i < |JourneyIds| :: JourneyIds[i]
  {
    var ids := set i | 0 <= i < |JourneyIds| :: JourneyIds[i];
    assert JourneyIds[0] in ids && JourneyIds[1] in ids && JourneyIds[2] in ids && JourneyIds[3] in ids;
    assert ids == {"journey_1", "journey_2", "journey_3", "journey_4"};
  }

  /** What simulate_all_journeys returns: soc_initial, the battery capacity,
      and one result per journey. */
  datatype AllJourneys = AllJourneys(socInitial: real, batteryCapacity: real,
                                     journeys: map<string, JourneyResult>)

  /** simulate_all_journeys without the progress output and the file write:
      every journey of the table simulated from the same soc_initial, each
      with its own web-browsing draws. */
  method SimulateAllJourneys(ph: Phone, socInitial: real, draws: string -> int -> BrowseDraw)
    returns (output: AllJourneys)
    ensures output.socInitial == socInitial && output.batteryCapacity == ph.capacity
    ensures output.journeys.Keys == Journeys.Keys
    ensures forall id :: id in Journeys ==>
              Ok(output.journeys[id]) == JourneyOutcome(ph, id, socInitial, draws(id))
  {
    var allResults: map<string, JourneyResult> := map[];
    JourneyIdsAreKeys();
    for i := 0 to |JourneyIds|
      invariant allResults.Keys == set k | 0 <= k < i :: JourneyIds[k]
      invariant forall id :: id in allResults ==> Ok(allResults[id]) == JourneyOutcome(ph, id, socInitial, draws(id))
    {
      var journeyId := JourneyIds[i];
      var result := SimulateJourney(ph, journeyId, socInitial, draws(journeyId));
      allResults := allResults[journeyId := result.value];
      assert (set k | 0 <= k < i + 1 :: JourneyIds[k]) == (set k | 0 <= k < i :: JourneyIds[k]) + {journeyId};
    }
    output := AllJourneys(socInitial, ph.capacity, allResults);
  }
}
