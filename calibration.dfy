/**
 * The count-rate to dose calibration curve: piecewise-linear interpolation over the table's
 * rows, falling back to the last row's dose, and the adaptive time constant chosen from a dose.
 */
module Calibration {

  /** One row of the table; every value the instrument stores in it is a whole number. */
  datatype Point = Point(cps: nat, dose: nat)

  predicate Within(lower: Point, upper: Point, x: real) {
    lower.cps as real <= x <= upper.cps as real
  }

  /** Linear interpolation on the segment from `lower` to `upper`, computed through the slope. */
  function Lerp(lower: Point, upper: Point, x: real): real
    requires lower.cps < upper.cps
  {
    var slope := (upper.dose as real - lower.dose as real) / (upper.cps as real - lower.cps as real);
    lower.dose as real + (x - lower.cps as real) * slope
  }

  /** Adjacent rows have distinct count rates, so no segment has zero width. */
  predicate AdjacentDistinct(t: seq<Point>) {
    forall i :: 0 <= i < |t| - 1 ==> t[i].cps != t[i + 1].cps
  }

  /** Adjacent rows have strictly increasing count rates. */
  predicate Ascending(t: seq<Point>) {
    forall i :: 0 <= i < |t| - 1 ==> t[i].cps < t[i + 1].cps
  }

  /** The scan from row `i` on meets no zero-width segment before its first match. */
  predicate DefinedFrom(x: real, t: seq<Point>, i: nat)
    decreases |t| - i
  {
    i + 1 >= |t| ||
    if Within(t[i], t[i + 1], x) then t[i].cps < t[i + 1].cps else DefinedFrom(x, t, i + 1)
  }

  /** The scan from row `i`: the first segment containing `x`, else the last row's dose. */
  function ScanFrom(x: real, t: seq<Point>, i: nat): real
    requires |t| > 0 && DefinedFrom(x, t, i)
    decreases |t| - i
  {
    if i + 1 >= |t| then t[|t| - 1].dose as real
    else if Within(t[i], t[i + 1], x) then Lerp(t[i], t[i + 1], x)
    else ScanFrom(x, t, i + 1)
  }

  /** The dose the table gives for count rate `x`. */
  function Interpolate(x: real, t: seq<Point>): real
    requires |t| > 0 && DefinedFrom(x, t, 0)
  {
    ScanFrom(x, t, 0)
  }

  /** The search loop itself: the first segment that contains `x` wins, with an early return. */
  method GetInterpolatedDose(x: real, t: seq<Point>) returns (r: real)
    requires |t| > 0 && DefinedFrom(x, t, 0)
    ensures r == Interpolate(x, t)
  {
    for i := 0 to |t| - 1
      invariant DefinedFrom(x, t, i)
      invariant ScanFrom(x, t, i) == Interpolate(x, t)
    {
      var lower := t[i];
      var upper := t[i + 1];
      if x >= lower.cps as real && x <= upper.cps as real {
        var slope := (upper.dose as real - lower.dose as real) / (upper.cps as real - lower.cps as real);
        return lower.dose as real + (x - lower.cps as real) * slope;
      }
    }
    return t[|t| - 1].dose as real;
  }

  /** When no segment has zero width, interpolation is defined for every count rate. */
  lemma {:induction false} DefinedWhenDistinct(x: real, t: seq<Point>, i: nat)
    requires AdjacentDistinct(t)
    ensures DefinedFrom(x, t, i)
    decreases |t| - i
  {
    if i + 1 < |t| {
      DefinedWhenDistinct(x, t, i + 1);
    }
  }

  /** No count rate at all meets a zero-width segment before its first match. */
  ghost predicate DefinedEverywhere(t: seq<Point>) {
    forall x: real :: DefinedFrom(x, t, 0)
  }

  /** Distinct adjacent count rates are enough for the scan to be defined at every count rate. */
  lemma DistinctDefinedEverywhere(t: seq<Point>)
    requires AdjacentDistinct(t)
    ensures DefinedEverywhere(t)
  {
    forall x: real
      ensures DefinedFrom(x, t, 0)
    {
      DefinedWhenDistinct(x, t, 0);
    }
  }

  lemma AscendingIsDistinct(t: seq<Point>)
    requires Ascending(t)
    ensures AdjacentDistinct(t)
  {
  }

  lemma {:induction false} AscendingMonotone(t: seq<Point>, a: nat, b: nat)
    requires Ascending(t) && a < b < |t|
    ensures t[a].cps < t[b].cps
    decreases b - a
  {
    if a + 1 < b {
      AscendingMonotone(t, a + 1, b);
    }
  }

  /** A segment's line passes through both of its end rows. */
  lemma LerpEnds(lower: Point, upper: Point)
    requires lower.cps < upper.cps
    ensures Lerp(lower, upper, lower.cps as real) == lower.dose as real
    ensures Lerp(lower, upper, upper.cps as real) == upper.dose as real
  {
    var w := upper.cps as real - lower.cps as real;
    var h := upper.dose as real - lower.dose as real;
    assert w * (h / w) == h;
  }

  /** Inside a segment the line stays between the two end doses. */
  lemma LerpBetween(lower: Point, upper: Point, x: real)
    requires lower.cps < upper.cps && Within(lower, upper, x)
    ensures Min(lower.dose, upper.dose) as real <= Lerp(lower, upper, x) <= Max(lower.dose, upper.dose) as real
  {
    var w := upper.cps as real - lower.cps as real;
    var h := upper.dose as real - lower.dose as real;
    var slope := h / w;
    var d := x - lower.cps as real;
    assert w * slope == h;
    assert 0.0 <= d <= w;
    if slope >= 0.0 {
      assert 0.0 <= d * slope <= w * slope;
    } else {
      assert w * slope <= d * slope <= 0.0;
    }
  }

  function Min(a: nat, b: nat): nat { if a <= b then a else b }
  function Max(a: nat, b: nat): nat { if a <= b then b else a }

  lemma {:induction false} ScanReaches(x: real, t: seq<Point>, j: nat, i: nat)
    requires Ascending(t) && j <= i && i + 1 < |t| && Within(t[i], t[i + 1], x)
    ensures DefinedFrom(x, t, j) && ScanFrom(x, t, j) == Lerp(t[i], t[i + 1], x)
    decreases i - j
  {
    AscendingIsDistinct(t);
    DefinedWhenDistinct(x, t, j);
    if j < i {
      if Within(t[j], t[j + 1], x) {
        if j + 1 < i {
          AscendingMonotone(t, j + 1, i);
        }
        assert j + 1 == i && x == t[i].cps as real;
        LerpEnds(t[j], t[i]);
        LerpEnds(t[i], t[i + 1]);
      } else {
        ScanReaches(x, t, j + 1, i);
      }
    }
  }

  /** On an ascending table, a count rate inside segment i gets that segment's line. */
  lemma InterpolateOnSegment(x: real, t: seq<Point>, i: nat)
    requires Ascending(t) && i + 1 < |t| && Within(t[i], t[i + 1], x)
    ensures DefinedFrom(x, t, 0) && Interpolate(x, t) == Lerp(t[i], t[i + 1], x)
  {
    ScanReaches(x, t, 0, i);
  }

  /** On an ascending table, the curve passes through every row. */
  lemma InterpolateAtKnot(t: seq<Point>, i: nat)
    requires Ascending(t) && i < |t|
    ensures DefinedFrom(t[i].cps as real, t, 0) && Interpolate(t[i].cps as real, t) == t[i].dose as real
  {
    var x := t[i].cps as real;
    if i + 1 < |t| {
      InterpolateOnSegment(x, t, i);
      LerpEnds(t[i], t[i + 1]);
    } else if i > 0 {
      InterpolateOnSegment(x, t, i - 1);
      LerpEnds(t[i - 1], t[i]);
    }
  }

  /** On an ascending table, a count rate inside a segment gets a dose between its end doses. */
  lemma InterpolateBetween(x: real, t: seq<Point>, i: nat)
    requires Ascending(t) && i + 1 < |t| && Within(t[i], t[i + 1], x)
    ensures DefinedFrom(x, t, 0)
    ensures Min(t[i].dose, t[i + 1].dose) as real <= Interpolate(x, t) <= Max(t[i].dose, t[i + 1].dose) as real
  {
    InterpolateOnSegment(x, t, i);
    LerpBetween(t[i], t[i + 1], x);
  }

  lemma {:induction false} ScanMisses(x: real, t: seq<Point>, i: nat)
    requires |t| > 0
    requires forall j :: i <= j < |t| - 1 ==> !Within(t[j], t[j + 1], x)
    ensures DefinedFrom(x, t, i) && ScanFrom(x, t, i) == t[|t| - 1].dose as real
    decreases |t| - i
  {
    if i + 1 < |t| {
      ScanMisses(x, t, i + 1);
    }
  }

  /** On an ascending table, a count rate outside the table's range gets the last row's dose. */
  lemma InterpolateOutside(x: real, t: seq<Point>)
    requires Ascending(t) && |t| > 0
    requires x < t[0].cps as real || x > t[|t| - 1].cps as real
    ensures DefinedFrom(x, t, 0) && Interpolate(x, t) == t[|t| - 1].dose as real
  {
    forall j | 0 <= j < |t| - 1
      ensures !Within(t[j], t[j + 1], x)
    {
      if 0 < j {
        AscendingMonotone(t, 0, j);
      }
      if j + 1 < |t| - 1 {
        AscendingMonotone(t, j + 1, |t| - 1);
      }
    }
    ScanMisses(x, t, 0);
  }

  /** The window length and display interval `getTimeConstant` returns. */
  datatype Timing = Timing(tc: nat, updateInterval: nat)

  /** Higher doses get shorter averaging windows: 8 samples up to 100, 4 up to 1000, else 2. */
  function TimeConstant(dose: real): (r: Timing)
    ensures r.tc == 8 || r.tc == 4 || r.tc == 2
    ensures r.tc == 8 <==> dose <= 100.0
    ensures r.tc == 2 <==> 1000.0 < dose
    ensures r.updateInterval == if r.tc == 2 then 2 else 4
  {
    if dose <= 100.0 then Timing(8, 4)
    else if dose <= 1000.0 then Timing(4, 4)
    else Timing(2, 2)
  }

  /** The window never grows when the dose grows. */
  lemma TimeConstantAntitone(d1: real, d2: real)
    requires d1 <= d2
    ensures TimeConstant(d2).tc <= TimeConstant(d1).tc
  {
  }
}
