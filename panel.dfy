/**
 * Pure pieces of the front-panel menu: its option lists, `indexOf`, the nearest-option `reduce`
 * that seeds the alarm set-point list, and the three-digit calibration-factor editor's value.
 */
module Panel {

  /** The display units, in the order the unit list shows them. */
  datatype Unit = MilliRoentgenPerHour | MicroSievertPerHour | CentiGrayPerHour | CountsPerSecond | CountsPerMinute

  /** The label the screen shows and the provider stores for each unit. */
  function Label(u: Unit): string {
    match u
    case MilliRoentgenPerHour => "mR/h"
    case MicroSievertPerHour => "uSv/h"
    case CentiGrayPerHour => "cGy/h"
    case CountsPerSecond => "CPS"
    case CountsPerMinute => "CPM"
  }

  /** The stored label identifies the unit, so looking the label up recovers the unit. */
  lemma LabelInjective(u: Unit, v: Unit)
    ensures Label(u) == Label(v) <==> u == v
  {
  }

  const UnitOptions: seq<Unit> :=
    [MilliRoentgenPerHour, MicroSievertPerHour, CentiGrayPerHour, CountsPerSecond, CountsPerMinute]

  /** Every unit is listed once, so `indexOf` finds each one and labels tell them apart. */
  lemma UnitListed(u: Unit)
    ensures 0 <= IndexOf(UnitOptions, u) && UnitOptions[IndexOf(UnitOptions, u)] == u
  {
    assert UnitOptions[0] == MilliRoentgenPerHour && UnitOptions[1] == MicroSievertPerHour;
    assert UnitOptions[2] == CentiGrayPerHour && UnitOptions[3] == CountsPerSecond;
    assert UnitOptions[4] == CountsPerMinute;
  }

  const AlarmSetPointOptions: seq<real> := [5.0, 50.0, 100.0, 200.0]
  /** Eight entries in the PRG menu, four visible at a time. */
  const PrgOptionCount: int := 8
  const WindowSize: int := 4

  /** `s.indexOf(x)`: the first position of `x`, or -1. */
  function IndexOf<T(==)>(s: seq<T>, x: T): (i: int)
    ensures -1 <= i < |s|
    ensures i == -1 <==> x !in s
    ensures 0 <= i ==> s[i] == x && x !in s[..i]
  {
    if s == [] then -1
    else if s[0] == x then 0
    else
      var j := IndexOf(s[1..], x);
      if j == -1 then -1
      else
        assert s[..j + 1] == [s[0]] + s[1..][..j];
        j + 1
  }

  function Abs(r: real): real {
    if r < 0.0 then -r else r
  }

  /**
   * `options.slice(0, n).reduce((prev, curr, index) =>
   *    |curr - target| < |options[prev] - target| ? index : prev, 0)`.
   */
  function ReduceClosest(options: seq<real>, target: real, n: nat): (k: nat)
    requires 0 < |options| && n <= |options|
    ensures k < |options| && (k < n || k == 0)
    ensures forall j :: 0 <= j < n ==> Abs(options[k] - target) <= Abs(options[j] - target)
    ensures forall j :: 0 <= j < k ==> Abs(options[k] - target) < Abs(options[j] - target)
  {
    if n == 0 then 0
    else
      var prev := ReduceClosest(options, target, n - 1);
      if Abs(options[n - 1] - target) < Abs(options[prev] - target) then n - 1 else prev
  }

  /** The option nearest the target; on a tie the earliest option wins. */
  function Closest(options: seq<real>, target: real): (k: nat)
    requires 0 < |options|
    ensures k < |options|
    ensures forall j :: 0 <= j < |options| ==> Abs(options[k] - target) <= Abs(options[j] - target)
    ensures forall j :: 0 <= j < k ==> Abs(options[k] - target) < Abs(options[j] - target)
  {
    ReduceClosest(options, target, |options|)
  }

  /** The calibration factor in hundredths: digits d0, d1, d2 stand for d0.d1d2. */
  function Hundredths(digits: seq<nat>): nat
    requires |digits| == 3
  {
    100 * digits[0] + 10 * digits[1] + digits[2]
  }

  /** `toFixed(2)` of k/100 with the point removed, as digits (k below 1000). */
  function FactorDigits(k: nat): (digits: seq<nat>)
    requires k < 1000
    ensures |digits| == 3 && digits[0] < 10 && digits[1] < 10 && digits[2] < 10
    ensures Hundredths(digits) == k
  {
    [k / 100, k / 10 % 10, k % 10]
  }

  /** Three decimal digits are recovered from the factor they spell. */
  lemma FactorDigitsOfHundredths(digits: seq<nat>)
    requires |digits| == 3 && digits[0] < 10 && digits[1] < 10 && digits[2] < 10
    ensures FactorDigits(Hundredths(digits)) == digits
  {
    var k := Hundredths(digits);
    assert k / 100 == digits[0];
    assert k / 10 == 10 * digits[0] + digits[1];
  }

  /** The range the EXT key accepts: 0.75 to 1.25, inclusive. */
  predicate ValidFactor(k: nat) {
    75 <= k <= 125
  }
}
