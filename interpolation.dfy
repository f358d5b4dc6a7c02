/** interpolate_time_series, which hotspot-code.py, wifi-code.py and
    blueteeth-code.py each define with the same body: a waypoint sequence
    [(t0, v0), ..., (tn, vn)] is read at time t either numerically (np.interp:
    piecewise-linear, flat outside the range) or categorically (np.argmin of
    |times - t|: the nearest waypoint, the first one on a tie). */
module Interpolation {
  import opened Common

  /** Waypoint times strictly increase, as np.interp requires of its xp. */
  predicate StrictlyIncreasing<V>(s: seq<(real, V)>)
  {
    forall i, j :: 0 <= i < j < |s| ==> s[i].0 < s[j].0
  }

  /** A numeric waypoint sequence np.interp can read: non-empty, with
      strictly increasing times. */
  predicate NumericSeries(s: seq<(real, real)>)
  {
    |s| > 0 && StrictlyIncreasing(s)
  }

  /** The line through (x0, v0) and (x1, v1), read at t. */
  function Lerp(x0: real, v0: real, x1: real, v1: real, t: real): real
    requires x0 < x1
  {
    v0 + (t - x0) * (v1 - v0) / (x1 - x0)
  }

  /** On the closed segment [x0, x1] the line stays between its end values. */
  lemma LerpBetween(x0: real, v0: real, x1: real, v1: real, t: real)
    requires x0 < x1 && x0 <= t <= x1
    ensures Between(Lerp(x0, v0, x1, v1, t), v0, v1)
  {
    var frac := (t - x0) / (x1 - x0);
    FracUnit(t - x0, x1 - x0);
    LerpAsFraction(x0, v0, x1, v1, t);
    DutyBetween(v0, v1, frac);
  }

  /** The line is v0 plus the fraction of the segment covered times the rise. */
  lemma LerpAsFraction(x0: real, v0: real, x1: real, v1: real, t: real)
    requires x0 < x1
    ensures Lerp(x0, v0, x1, v1, t) == v0 + ((t - x0) / (x1 - x0)) * (v1 - v0)
  {
    LerpForm(t - x0, v1 - v0, x1 - x0);
  }

  lemma FracUnit(u: real, d: real)
    requires d > 0.0 && 0.0 <= u <= d
    ensures 0.0 <= u / d <= 1.0
  {
  }

  lemma LerpForm(u: real, w: real, d: real)
    requires d > 0.0
    ensures u * w / d == (u / d) * w
  {
  }

  /** The smallest and largest waypoint values. */
  function MinValue(s: seq<(real, real)>): real
    requires |s| > 0
  {
    if |s| == 1 then s[0].1 else Min(s[0].1, MinValue(s[1..]))
  }

  function MaxValue(s: seq<(real, real)>): real
    requires |s| > 0
  {
    if |s| == 1 then s[0].1 else Max(s[0].1, MaxValue(s[1..]))
  }

  /** Numeric mode (np.interp). The value is the first waypoint's for any t
      up to the first time, and lies within the range of the waypoint values. */
  function InterpolateNumeric(t: real, s: seq<(real, real)>): (r: real)
    requires |s| > 0 && StrictlyIncreasing(s)
    ensures t <= s[0].0 ==> r == s[0].1
    ensures MinValue(s) <= r <= MaxValue(s)
    decreases |s|
  {
    if t <= s[0].0 || |s| == 1 then s[0].1
    else if t <= s[1].0 then
      LerpBetween(s[0].0, s[0].1, s[1].0, s[1].1, t);
      Lerp(s[0].0, s[0].1, s[1].0, s[1].1, t)
    else
      InterpolateNumeric(t, s[1..])
  }

  /** At a waypoint time the numeric mode returns exactly that waypoint's value. */
  lemma {:induction false} InterpolateAtWaypoint(s: seq<(real, real)>, i: nat)
    requires |s| > 0 && StrictlyIncreasing(s) && i < |s|
    ensures InterpolateNumeric(s[i].0, s) == s[i].1
  {
    if i == 1 {
      var x0, x1 := s[0].0, s[1].0;
      assert x0 < x1;
      assert (x1 - x0) * (s[1].1 - s[0].1) / (x1 - x0) == s[1].1 - s[0].1;
      assert Lerp(x0, s[0].1, x1, s[1].1, x1) == s[1].1;
      assert InterpolateNumeric(x1, s) == Lerp(x0, s[0].1, x1, s[1].1, x1);
    } else if i > 1 {
      assert s[0].0 < s[1].0 < s[i].0;
      InterpolateAtWaypoint(s[1..], i - 1);
    }
  }

  /** Strictly between two adjacent waypoints the numeric mode lies on the
      segment joining them, hence between their values. */
  lemma {:induction false} InterpolateBetweenWaypoints(s: seq<(real, real)>, i: nat, t: real)
    requires |s| > 0 && StrictlyIncreasing(s) && i + 1 < |s|
    requires s[i].0 < t < s[i + 1].0
    ensures InterpolateNumeric(t, s) == Lerp(s[i].0, s[i].1, s[i + 1].0, s[i + 1].1, t)
    ensures Between(InterpolateNumeric(t, s), s[i].1, s[i + 1].1)
  {
    LerpBetween(s[i].0, s[i].1, s[i + 1].0, s[i + 1].1, t);
    if i > 0 {
      assert s[0].0 < s[i].0 && s[1].0 <= s[i].0;
      InterpolateBetweenWaypoints(s[1..], i - 1, t);
    }
  }

  /** From the last waypoint time on, the numeric mode returns the last value. */
  lemma {:induction false} InterpolateClampAbove(s: seq<(real, real)>, t: real)
    requires |s| > 0 && StrictlyIncreasing(s)
    requires t >= s[|s| - 1].0
    ensures InterpolateNumeric(t, s) == s[|s| - 1].1
  {
    if |s| > 1 {
      assert s[0].0 < s[1].0 <= s[|s| - 1].0;
      if t == s[1].0 {
        InterpolateAtWaypoint(s, 1);
      } else {
        InterpolateClampAbove(s[1..], t);
      }
    }
  }

  lemma {:induction false} ValuesWithin(s: seq<(real, real)>, lo: real, hi: real)
    requires |s| > 0
    requires forall i :: 0 <= i < |s| ==> lo <= s[i].1 <= hi
    ensures lo <= MinValue(s) && MaxValue(s) <= hi
  {
    if |s| > 1 {
      ValuesWithin(s[1..], lo, hi);
    }
  }

  /** If every waypoint value lies in [lo, hi], so does every interpolated value. */
  lemma InterpolateWithin(s: seq<(real, real)>, t: real, lo: real, hi: real)
    requires |s| > 0 && StrictlyIncreasing(s)
    requires forall i :: 0 <= i < |s| ==> lo <= s[i].1 <= hi
    ensures lo <= InterpolateNumeric(t, s) <= hi
  {
    ValuesWithin(s, lo, hi);
  }

  /** Categorical mode (np.argmin of |times - t|): the index of a waypoint
      nearest to t, and of all nearest waypoints the first. Waypoint order is
      not needed. */
  function NearestIndex<V>(t: real, s: seq<(real, V)>): (i: nat)
    requires |s| > 0
    ensures i < |s|
    ensures forall j :: 0 <= j < |s| ==> Abs(s[i].0 - t) <= Abs(s[j].0 - t)
    ensures forall j :: 0 <= j < i ==> Abs(s[i].0 - t) < Abs(s[j].0 - t)
    decreases |s|
  {
    if |s| == 1 then 0
    else
      var init := s[..|s| - 1];
      var k := NearestIndex(t, init);
      assert forall j :: 0 <= j < |init| ==> init[j] == s[j];
      if Abs(s[|s| - 1].0 - t) < Abs(s[k].0 - t) then |s| - 1 else k
  }

  /** The categorical reading: the value of the nearest waypoint, always one
      of the sequence's own values. */
  function InterpolateCategorical<V(==)>(t: real, s: seq<(real, V)>): (r: V)
    requires |s| > 0
    ensures exists i :: 0 <= i < |s| && s[i].1 == r
  {
    s[NearestIndex(t, s)].1
  }

  /** On an exact tie the earlier waypoint wins: halfway between two
      neighbouring waypoints of an increasing sequence the reading is the
      label of the first of them. */
  lemma CategoricalTieGoesEarlier<V>(s: seq<(real, V)>, i: nat, t: real)
    requires StrictlyIncreasing(s) && i + 1 < |s|
    requires t == (s[i].0 + s[i + 1].0) / 2.0
    ensures InterpolateCategorical(t, s) == s[i].1
  {
    var k := NearestIndex(t, s);
    assert k == i;
  }

  /** The tie rule on two waypoints: halfway between 0 and 2 the reading is
      the value at 0. */
  lemma CategoricalTieExample()
    ensures InterpolateCategorical(1.0, [(0.0, "a"), (2.0, "b")]) == "a"
  {
    CategoricalTieGoesEarlier([(0.0, "a"), (2.0, "b")], 0, 1.0);
  }

  /** If every waypoint carries a label from `labels`, so does every reading. */
  lemma CategoricalWithin<V>(s: seq<(real, V)>, t: real, labels: set<V>)
    requires |s| > 0
    requires forall i :: 0 <= i < |s| ==> s[i].1 in labels
    ensures InterpolateCategorical(t, s) in labels
  {
  }
}
