/**
 * The radiation screen: the live configuration and measurement state the screen shares with
 * its provider, the screen's own menu state, its five front-panel button handlers, the
 * lookup-table editor's handlers and the bodies of its effects. Each effect body is a method;
 * the host calls it whenever one of the values it depends on has changed.
 */
module Radiation {
  import opened Wrappers
  import opened Digits
  import opened Telemetry
  import opened Calibration
  import opened Windows
  import opened EventLog
  import opened Lookup
  import opened Panel

  datatype Mode = Auto | Manual

  /** The label of the manual run control: start, stop or restart. */
  datatype ManualButton = Start | Stop | Restart

  /** The lookup-table cell being typed into; column 0 is the count rate, 1 the dose. */
  datatype Cell = Cell(row: nat, col: nat)

  /** Requests handed to the sound player, the haptic engine, dialogs and the exporter. */
  datatype Request =
    | AlarmSoundLoop
    | AlarmSoundStop
    | ErrorHaptic
    | ExportLog(entries: seq<LogEntry>)
    | InvalidCalibrationAlert
    | CalibrationUpdatedAlert

  /** Which branch of UP and DOWN runs, in the order the handlers test the screen flags. */
  datatype ArrowTarget = DigitEditor | AlarmList | UnitList | ResetChoice | ModeChoice | PrgList

  /** Which branch of ENT/SRT runs. */
  datatype EntAction =
    | AdvanceDigit | StageAlarmSetPoint | StageUnit | ConfirmReset | StageMode
    | DismissSave | LookupIgnores | ManualRun | PrgSelect | NoAction

  /** Which branch of EXT/STP runs. */
  datatype ExtAction =
    | CheckCalibration | CloseAlarmList | CloseChoice | CloseLookup | DismissSaveDialog
    | ManualStop | ClosePrg | NoExtAction

  const DefaultTable: seq<Point> := [
    Point(0, 0), Point(20, 2), Point(50, 5), Point(100, 10), Point(500, 50), Point(1000, 100),
    Point(4000, 500), Point(6800, 1000), Point(11000, 2000), Point(17500, 5000),
    Point(20500, 8000), Point(22500, 10000)]

  /** Positions in the five-entry unit list, and the first row of its four-row window. */
  type UnitIndex = i: int | 0 <= i < |UnitOptions|
  type UnitStart = i: int | 0 <= i <= |UnitOptions| - WindowSize

  /** Positions in the eight-entry PRG menu, and the exclusive end of its four-row window. */
  type PrgIndex = i: int | 0 <= i < PrgOptionCount
  type PrgEnd = i: int | WindowSize <= i <= PrgOptionCount witness 4

  type AlarmIndex = i: int | 0 <= i < |AlarmSetPointOptions|

  /** A Yes/No or Auto/Manual highlight. */
  type Choice = i: int | 0 <= i <= 1

  type DigitIndex = i: int | 0 <= i < 3

  /** A calibration factor in hundredths that the EXT key accepts. */
  type Factor = k: nat | ValidFactor(k) witness 100

  /** The lookup editor's buffer, which only ever holds digits. */
  type DigitString = s: string | AllDigits(s) witness ""

  function Count(b: bool): nat {
    if b then 1 else 0
  }

  /** `i > 0 ? i - 1 : n - 1` */
  function Prev(i: int, n: int): int {
    if i > 0 then i - 1 else n - 1
  }

  /** `i < n - 1 ? i + 1 : 0` */
  function Next(i: int, n: int): int {
    if i < n - 1 then i + 1 else 0
  }

  function MaxInt(a: int, b: int): int { if a < b then b else a }
  function MinInt(a: int, b: int): int { if a < b then a else b }

  /** A table dose scaled by a calibration factor given in hundredths. */
  function Calibrated(dose: real, factor: nat): real {
    dose * (factor as real / 100.0)
  }

  /** The dose accrued over `seconds` at a rate given per hour: the rate per second, once a second. */
  function IntervalDose(rate: real, seconds: nat): real {
    if seconds == 0 then 0.0 else IntervalDose(rate, seconds - 1) + rate / 3600.0
  }

  /** The accrued dose is the hourly rate over 3600, times the seconds elapsed. */
  lemma {:induction false} IntervalDoseIsProduct(rate: real, seconds: nat)
    ensures IntervalDose(rate, seconds) == seconds as real * (rate / 3600.0)
  {
    if seconds > 0 {
      IntervalDoseIsProduct(rate, seconds - 1);
      Distribute((seconds - 1) as real, rate / 3600.0);
    }
  }

  /**
   * The scan meets no zero-width segment at the two count rates one dose calculation looks up:
   * the new count itself and the mean of the window it chooses.
   */
  predicate DoseDefined(cps: nat, buffer: seq<nat>, table: seq<Point>) {
    |table| > 0 && DefinedFrom(cps as real, table, 0) &&
    var tc := TimeConstant(Interpolate(cps as real, table)).tc;
    DefinedFrom(Mean(Tail(buffer + [cps], tc)), table, 0)
  }

  /** A table on which no count rate at all meets a zero-width segment admits every calculation. */
  lemma EverywhereDoseDefined(cps: nat, buffer: seq<nat>, table: seq<Point>)
    requires |table| > 0 && DefinedEverywhere(table)
    ensures DoseDefined(cps, buffer, table)
  {
  }

  /**
   * One dose calculation: an instantaneous estimate picks the window length, the window keeps
   * the newest samples, and the calibrated dose is read off the table at the window's mean.
   */
  method CalculateDose(cps: nat, buffer: seq<nat>, table: seq<Point>, factor: nat)
    returns (tc: nat, newBuffer: seq<nat>, dose: real)
    requires DoseDefined(cps, buffer, table)
    ensures DefinedFrom(cps as real, table, 0) && tc == TimeConstant(Interpolate(cps as real, table)).tc
    ensures newBuffer == Tail(buffer + [cps], tc)
    ensures 1 <= |newBuffer| <= tc && newBuffer[|newBuffer| - 1] == cps
    ensures DefinedFrom(Mean(newBuffer), table, 0)
    ensures dose == Calibrated(Interpolate(Mean(newBuffer), table), factor)
  {
    var doseEstimate := GetInterpolatedDose(cps as real, table);
    tc := TimeConstant(doseEstimate).tc;
    newBuffer := Tail(buffer + [cps], tc);
    var avgCps := Mean(newBuffer);
    assert DefinedFrom(avgCps, table, 0);
    dose := GetInterpolatedDose(avgCps, table);
    dose := Calibrated(dose, factor);
  }

  /** Fresh row objects holding the values of `t`. */
  method NewRows(t: seq<Point>) returns (rows: seq<Row>)
    ensures Points(rows) == t
    ensures forall r :: r in rows ==> fresh(r)
  {
    rows := [];
    for i := 0 to |t|
      invariant |rows| == i
      invariant forall j :: 0 <= j < i ==> rows[j].cps == t[j].cps && rows[j].dose == t[j].dose
      invariant forall r :: r in rows ==> fresh(r)
    {
      var r := new Row(t[i].cps, t[i].dose);
      rows := rows + [r];
    }
    var p := Points(rows);
    assert forall j :: 0 <= j < |t| ==> p[j] == t[j];
  }

  class RadiationScreen {
    // Live state shared with the provider.
    var radiationValue: nat          // the last decoded count rate
    var calibrationFactor: Factor    // in hundredths: 100 stands for 1.00
    var alarmSetPoint: real
    var cumulativeDose: real
    var selectedUnit: Unit
    var logData: seq<LogEntry>
    var autoManualMode: Mode
    var isManualDoseActive: bool
    var bufferedDose: real
    var cpsToDoseMap: seq<Row>
    var isAlarmActive: bool

    // Signal conditioning and display.
    var cpsBuffer: seq<nat>
    var interpolatedDose: real
    var manualButtonState: ManualButton
    var currentTc: nat
    var blink: bool

    // Menus.
    var showUnitSelect: bool
    var unitIndex: UnitIndex
    var unitVisibleStart: UnitStart
    var showPrgMenu: bool
    var selectedOption: PrgIndex
    var visibleOptions: PrgEnd       // the PRG window is [visibleOptions - 4, visibleOptions)
    var showCumDoseReset: bool
    var cumDoseResetIndex: Choice    // 0 is "Yes"
    var showCumDoseModeSelect: bool
    var cumDoseModeIndex: Choice     // 0 is "Auto"
    var showSaveConfirmation: bool
    var showCalibrationEdit: bool
    var calibrationDigits: seq<nat>
    var selectedDigitIndex: DigitIndex
    var showAlarmSetPoint: bool
    var alarmSetPointIndex: AlarmIndex
    var alarmSetPointVisibleStart: int
    var showLookupTable: bool
    var lookupData: seq<Row>
    var editingCell: Option<Cell>
    var editValue: DigitString

    // Staged values, written to the live configuration by "Save Parameters".
    var tempUnit: Unit
    var tempAlarmSetPoint: real
    var tempCalibrationFactor: Factor // in hundredths
    var tempCumDoseMode: Mode

    var lastCumDoseUpdate: int       // milliseconds
    var requests: seq<Request>

    /** What every handler relies on and keeps. */
    predicate Valid()
      reads this`cpsToDoseMap, this`selectedOption, this`visibleOptions, this`calibrationDigits
    {
      |cpsToDoseMap| > 0 && PrgCursorOk() && DigitsOk()
    }

    /** The PRG cursor lies in the visible window of four. */
    predicate PrgCursorOk()
      reads this`selectedOption, this`visibleOptions
    {
      visibleOptions - WindowSize <= selectedOption < visibleOptions
    }

    /** The unit cursor lies in the visible window of four. */
    predicate UnitWindowOk()
      reads this`unitIndex, this`unitVisibleStart
    {
      unitVisibleStart <= unitIndex < unitVisibleStart + WindowSize
    }

    /** The digit editor holds one digit before the point (0 or 1) and two after it. */
    predicate DigitsOk()
      reads this`calibrationDigits
    {
      |calibrationDigits| == 3 && calibrationDigits[0] <= 1 &&
      calibrationDigits[1] < 10 && calibrationDigits[2] < 10
    }

    /** How many screen flags are set. */
    function OpenScreens(): nat
      reads this`showPrgMenu, this`showUnitSelect, this`showAlarmSetPoint, this`showCalibrationEdit,
               this`showCumDoseReset, this`showCumDoseModeSelect, this`showLookupTable, this`showSaveConfirmation
    {
      Count(showPrgMenu) + Count(showUnitSelect) + Count(showAlarmSetPoint) +
      Count(showCalibrationEdit) + Count(showCumDoseReset) + Count(showCumDoseModeSelect) +
      Count(showLookupTable) + Count(showSaveConfirmation)
    }

    /** No two screen flags are set at once. */
    predicate AtMostOneScreen()
      reads this`showPrgMenu, this`showUnitSelect, this`showAlarmSetPoint, this`showCalibrationEdit,
               this`showCumDoseReset, this`showCumDoseModeSelect, this`showLookupTable, this`showSaveConfirmation
    {
      (showPrgMenu ==> !(showUnitSelect || showAlarmSetPoint || showCalibrationEdit || showCumDoseReset ||
                         showCumDoseModeSelect || showLookupTable || showSaveConfirmation)) &&
      (showUnitSelect ==> !(showAlarmSetPoint || showCalibrationEdit || showCumDoseReset ||
                            showCumDoseModeSelect || showLookupTable || showSaveConfirmation)) &&
      (showAlarmSetPoint ==> !(showCalibrationEdit || showCumDoseReset || showCumDoseModeSelect ||
                               showLookupTable || showSaveConfirmation)) &&
      (showCalibrationEdit ==> !(showCumDoseReset || showCumDoseModeSelect || showLookupTable || showSaveConfirmation)) &&
      (showCumDoseReset ==> !(showCumDoseModeSelect || showLookupTable || showSaveConfirmation)) &&
      (showCumDoseModeSelect ==> !(showLookupTable || showSaveConfirmation)) &&
      (showLookupTable ==> !showSaveConfirmation)
    }

    /** The pairwise form agrees with the count: no two screens are open exactly when at most one is. */
    lemma AtMostOneScreenCounts()
      ensures AtMostOneScreen() <==> OpenScreens() <= 1
    {
    }

    /** The provider's initial values and the screen's, with the staged values seeded once. */
    constructor (now: int)
      ensures Valid() && OpenScreens() == 0
      ensures Points(cpsToDoseMap) == DefaultTable && forall r :: r in cpsToDoseMap ==> fresh(r)
      ensures radiationValue == 0 && calibrationFactor == 100 && alarmSetPoint == 1000.0
      ensures cumulativeDose == 0.0 && selectedUnit == MilliRoentgenPerHour && logData == []
      ensures autoManualMode == Auto && !isManualDoseActive && bufferedDose == 0.0 && !isAlarmActive
      ensures cpsBuffer == [] && manualButtonState == Start && currentTc == 0 && !blink
      ensures unitIndex == 0 && unitVisibleStart == 0 && selectedOption == 0 && visibleOptions == 4
      ensures cumDoseResetIndex == 0 && cumDoseModeIndex == 0
      ensures calibrationDigits == [1, 0, 0] && selectedDigitIndex == 0
      ensures alarmSetPointIndex == 0 && alarmSetPointVisibleStart == 0
      ensures lookupData == [] && editingCell == None && editValue == ""
      ensures tempUnit == selectedUnit && tempAlarmSetPoint == alarmSetPoint
      ensures tempCalibrationFactor == calibrationFactor && tempCumDoseMode == autoManualMode
      ensures lastCumDoseUpdate == now && requests == [] && interpolatedDose == 0.0
    {
      var rows := NewRows(DefaultTable);
      radiationValue, calibrationFactor, alarmSetPoint, cumulativeDose := 0, 100, 1000.0, 0.0;
      selectedUnit, logData, autoManualMode, isManualDoseActive := MilliRoentgenPerHour, [], Auto, false;
      bufferedDose, cpsToDoseMap, isAlarmActive := 0.0, rows, false;
      cpsBuffer, interpolatedDose, manualButtonState, currentTc, blink := [], 0.0, Start, 0, false;
      showUnitSelect, unitIndex, unitVisibleStart := false, 0, 0;
      showPrgMenu, selectedOption, visibleOptions := false, 0, 4;
      showCumDoseReset, cumDoseResetIndex := false, 0;
      showCumDoseModeSelect, cumDoseModeIndex := false, 0;
      showSaveConfirmation := false;
      showCalibrationEdit, calibrationDigits, selectedDigitIndex := false, [1, 0, 0], 0;
      showAlarmSetPoint, alarmSetPointIndex, alarmSetPointVisibleStart := false, 0, 0;
      showLookupTable, lookupData, editingCell, editValue := false, [], None, "";
      tempUnit, tempAlarmSetPoint, tempCalibrationFactor, tempCumDoseMode := MilliRoentgenPerHour, 1000.0, 100, Auto;
      lastCumDoseUpdate, requests := now, [];
    }

    /** A telemetry frame: a matching frame replaces the count rate, any other is dropped. */
    method ReceiveFrame(frame: string)
      modifies this`radiationValue
      ensures radiationValue == match Decode(frame) case Some(n) => n case None => old(radiationValue)
    {
      var cpsMatch := Decode(frame);
      if cpsMatch.Some? {
        radiationValue := cpsMatch.value;
      }
    }

    /** The dose calculation on the live state; the table is read, not changed. */
    method DoseCalculation()
      requires Valid() && DoseDefined(radiationValue, cpsBuffer, Points(cpsToDoseMap))
      modifies this`currentTc, this`cpsBuffer, this`bufferedDose
      ensures var table := old(Points(cpsToDoseMap));
        DefinedFrom(radiationValue as real, table, 0) &&
        currentTc == TimeConstant(Interpolate(radiationValue as real, table)).tc &&
        cpsBuffer == Tail(old(cpsBuffer) + [radiationValue], currentTc) &&
        1 <= |cpsBuffer| <= currentTc && cpsBuffer[|cpsBuffer| - 1] == radiationValue &&
        DefinedFrom(Mean(cpsBuffer), table, 0) &&
        bufferedDose == Calibrated(Interpolate(Mean(cpsBuffer), table), calibrationFactor)
    {
      var tc, newBuffer, dose := CalculateDose(radiationValue, cpsBuffer, Points(cpsToDoseMap), calibrationFactor);
      currentTc, cpsBuffer, bufferedDose := tc, newBuffer, dose;
    }

    /** The alarm monitor: edge-triggered on the buffered dose against the set point. */
    method AlarmEffect()
      modifies this`isAlarmActive, this`requests
      ensures isAlarmActive == (bufferedDose >= alarmSetPoint)
      ensures requests == old(requests) +
        if !old(isAlarmActive) && isAlarmActive then [AlarmSoundLoop, ErrorHaptic]
        else if old(isAlarmActive) && !isAlarmActive then [AlarmSoundStop]
        else []
    {
      if bufferedDose >= alarmSetPoint && !isAlarmActive {
        isAlarmActive := true;
        requests := requests + [AlarmSoundLoop, ErrorHaptic];
      } else if bufferedDose < alarmSetPoint && isAlarmActive {
        isAlarmActive := false;
        requests := requests + [AlarmSoundStop];
      }
    }

    /** The blink effect: while the alarm is inactive the blink phase is held off. */
    method BlinkEffect()
      modifies this`blink
      ensures !isAlarmActive ==> !blink
      ensures isAlarmActive ==> blink == old(blink)
    {
      if !isAlarmActive {
        blink := false;
      }
    }

    /** One tick of the blink oscillator, which runs only while the alarm is active. */
    method BlinkTick()
      requires isAlarmActive
      modifies this`blink
      ensures blink == !old(blink)
    {
      blink := !blink;
    }

    /**
     * The cumulative-dose integrator and logger: once `currentTc` seconds have passed since its
     * last firing it adds the dose of that interval (in Auto mode, or while a manual run is
     * active) and logs one entry.
     */
    method CumDoseEffect(now: int, rtc: string)
      modifies this`lastCumDoseUpdate, this`cumulativeDose, this`logData, this`interpolatedDose
      ensures interpolatedDose == bufferedDose
      ensures |old(logData)| <= Capacity ==> |logData| <= Capacity
      ensures now - old(lastCumDoseUpdate) < currentTc * 1000 ==>
        lastCumDoseUpdate == old(lastCumDoseUpdate) && cumulativeDose == old(cumulativeDose) &&
        logData == old(logData)
      ensures currentTc * 1000 <= now - old(lastCumDoseUpdate) ==>
        lastCumDoseUpdate == now &&
        cumulativeDose == old(cumulativeDose) +
          (if autoManualMode == Auto || isManualDoseActive then IntervalDose(bufferedDose, currentTc) else 0.0) &&
        logData == Append(old(logData), LogEntry(rtc, radiationValue, bufferedDose, cumulativeDose,
                                                 if bufferedDose >= alarmSetPoint then Alarm else Normal))
    {
      if now - lastCumDoseUpdate >= currentTc * 1000 {
        var inc := if autoManualMode == Auto || isManualDoseActive then IntervalDose(bufferedDose, currentTc) else 0.0;
        Integrate(now, rtc, inc);
      }
      interpolatedDose := bufferedDose;
    }

    /** One firing of the integrator: `inc` is added to the dose and the tick is logged. */
    method Integrate(now: int, rtc: string, inc: real)
      modifies this`lastCumDoseUpdate, this`cumulativeDose, this`logData
      ensures lastCumDoseUpdate == now
      ensures cumulativeDose == old(cumulativeDose) + inc
      ensures logData == Append(old(logData), LogEntry(rtc, radiationValue, bufferedDose, cumulativeDose,
                                                       if bufferedDose >= alarmSetPoint then Alarm else Normal))
    {
      var newCD := cumulativeDose + inc;
      var entry := LogEntry(rtc, radiationValue, bufferedDose, newCD, if bufferedDose >= alarmSetPoint then Alarm else Normal);
      lastCumDoseUpdate, cumulativeDose, logData := now, newCD, Append(logData, entry);
    }

    /** Seeds the digit editor from the staged factor whenever the editor is open. */
    method CalibrationEditEffect()
      requires Valid()
      modifies this`calibrationDigits, this`selectedDigitIndex
      ensures Valid()
      ensures showCalibrationEdit ==>
        calibrationDigits == FactorDigits(tempCalibrationFactor) &&
        Hundredths(calibrationDigits) == tempCalibrationFactor && selectedDigitIndex == 0
      ensures !showCalibrationEdit ==>
        calibrationDigits == old(calibrationDigits) && selectedDigitIndex == old(selectedDigitIndex)
    {
      if showCalibrationEdit {
        calibrationDigits := FactorDigits(tempCalibrationFactor);
        selectedDigitIndex := 0;
      }
    }

    /** Opens the working copy: the live table's own row objects, then two fresh blank rows. */
    method LookupTableEffect()
      modifies this`lookupData
      ensures !showLookupTable ==> lookupData == old(lookupData)
      ensures showLookupTable ==>
        |lookupData| == |cpsToDoseMap| + 2 && lookupData[..|cpsToDoseMap|] == cpsToDoseMap &&
        fresh(lookupData[|cpsToDoseMap|]) && fresh(lookupData[|cpsToDoseMap| + 1]) &&
        Points(lookupData) == Points(cpsToDoseMap) + [Point(0, 0), Point(0, 0)]
    {
      if showLookupTable {
        var first := new Row(0, 0);
        var second := new Row(0, 0);
        lookupData := cpsToDoseMap + [first, second];
        PointsAppend(cpsToDoseMap, [first, second]);
      }
    }

    /** Selecting a cell loads its value, as decimal digits, into the edit buffer. */
    method LookupCellPress(row: nat, col: nat)
      requires row < |lookupData|
      modifies this`editingCell, this`editValue
      ensures editingCell == Some(Cell(row, col))
      ensures editValue == Render(if col == 0 then lookupData[row].cps else lookupData[row].dose)
      ensures Value(editValue) == if col == 0 then lookupData[row].cps else lookupData[row].dose
    {
      editingCell := Some(Cell(row, col));
      if col == 0 {
        editValue := Render(lookupData[row].cps);
      } else {
        editValue := Render(lookupData[row].dose);
      }
      ValueOfRender(if col == 0 then lookupData[row].cps else lookupData[row].dose);
    }

    /** Typing keeps only the digits of the text. */
    method LookupEditChange(text: string)
      modifies this`editValue
      ensures editValue == Strip(text) && AllDigits(editValue)
    {
      editValue := Strip(text);
    }

    /** The row object a commit would write to. */
    function EditTarget(): set<Row>
      reads this`editingCell, this`lookupData
    {
      if editingCell.Some? && editingCell.value.row < |lookupData| then {lookupData[editingCell.value.row]} else {}
    }

    /**
     * Committing the edit buffer writes its number into the selected field of the selected row
     * object, in place; an empty buffer writes nothing. Either way the buffer is cleared.
     */
    method LookupEditComplete()
      requires editingCell.Some? ==> editingCell.value.row < |lookupData|
      modifies this`editingCell, this`editValue, EditTarget()
      ensures editingCell == None && editValue == ""
      ensures lookupData == old(lookupData) && cpsToDoseMap == old(cpsToDoseMap)
      ensures old(editingCell).None? || old(editValue) == "" ==>
        Points(lookupData) == old(Points(lookupData)) && Points(cpsToDoseMap) == old(Points(cpsToDoseMap))
      ensures old(editingCell).Some? && old(editValue) != "" ==>
        var c := old(editingCell).value;
        var target := lookupData[c.row];
        if c.col == 0 then target.cps == Value(old(editValue)) && target.dose == old(target.dose)
        else target.dose == Value(old(editValue)) && target.cps == old(target.cps)
    {
      if editingCell.Some? && editValue != "" {
        var newData := lookupData;
        var value := Value(editValue);
        var target := newData[editingCell.value.row];
        if editingCell.value.col == 0 {
          target.cps := value;
        } else {
          target.dose := value;
        }
      }
      editingCell := None;
      editValue := "";
    }

    /** "Set Calibration": the live table becomes the working copy's kept row objects. */
    method SetLookupTable()
      requires Valid() && showLookupTable && |lookupData| > 0
      modifies this`cpsToDoseMap, this`showLookupTable, this`showPrgMenu, this`requests
      ensures Valid()
      ensures cpsToDoseMap == CompactRows(lookupData)
      ensures forall r :: r in cpsToDoseMap ==> r in lookupData
      ensures Points(cpsToDoseMap) == Compact(Points(lookupData))
      ensures !showLookupTable && showPrgMenu
      ensures requests == old(requests) + [CalibrationUpdatedAlert]
      ensures old(AtMostOneScreen()) ==> AtMostOneScreen()
    {
      var filteredData := CompactRows(lookupData);
      cpsToDoseMap := filteredData;
      requests := requests + [CalibrationUpdatedAlert];
      showLookupTable := false;
      showPrgMenu := true;
      PointsOfCompactRows(lookupData);
    }

    function Arrow(): ArrowTarget
      reads this`showCalibrationEdit, this`showAlarmSetPoint, this`showUnitSelect, this`showCumDoseReset,
               this`showCumDoseModeSelect
    {
      if showCalibrationEdit then DigitEditor
      else if showAlarmSetPoint then AlarmList
      else if showUnitSelect then UnitList
      else if showCumDoseReset then ResetChoice
      else if showCumDoseModeSelect then ModeChoice
      else PrgList
    }

    /**
     * UP: the first open editor in the handler's order takes the key; with none open it moves
     * the PRG cursor, even on the main screen.
     */
    method UpArrow()
      requires Valid()
      modifies this`calibrationDigits, this`alarmSetPointIndex, this`alarmSetPointVisibleStart,
               this`unitIndex, this`unitVisibleStart, this`cumDoseResetIndex, this`cumDoseModeIndex,
               this`selectedOption, this`visibleOptions
      ensures Valid()
      ensures old(UnitWindowOk()) ==> UnitWindowOk()
      ensures var d, i := old(calibrationDigits), old(selectedDigitIndex);
        calibrationDigits ==
          if old(Arrow()) == DigitEditor then d[i := if i == 0 then (if d[0] == 1 then 0 else 1) else (d[i] + 1) % 10]
          else d
      ensures alarmSetPointIndex ==
        if old(Arrow()) == AlarmList then Prev(old(alarmSetPointIndex), |AlarmSetPointOptions|) else old(alarmSetPointIndex)
      ensures alarmSetPointVisibleStart ==
        if old(Arrow()) == AlarmList && alarmSetPointIndex < old(alarmSetPointVisibleStart) then MaxInt(0, alarmSetPointIndex - 3)
        else old(alarmSetPointVisibleStart)
      ensures unitIndex == if old(Arrow()) == UnitList then Prev(old(unitIndex), |UnitOptions|) else old(unitIndex)
      ensures unitVisibleStart ==
        if old(Arrow()) != UnitList then old(unitVisibleStart)
        else if unitIndex < old(unitVisibleStart) then MaxInt(0, unitIndex - 3)
        else if unitIndex == |UnitOptions| - 1 then |UnitOptions| - WindowSize
        else old(unitVisibleStart)
      ensures cumDoseResetIndex == if old(Arrow()) == ResetChoice then Prev(old(cumDoseResetIndex), 2) else old(cumDoseResetIndex)
      ensures cumDoseModeIndex == if old(Arrow()) == ModeChoice then Prev(old(cumDoseModeIndex), 2) else old(cumDoseModeIndex)
      ensures selectedOption == if old(Arrow()) == PrgList then Prev(old(selectedOption), PrgOptionCount) else old(selectedOption)
      ensures visibleOptions ==
        if old(Arrow()) != PrgList then old(visibleOptions)
        else if old(selectedOption) == 0 then PrgOptionCount
        else if selectedOption < old(visibleOptions) - WindowSize then MaxInt(WindowSize, selectedOption + 1)
        else old(visibleOptions)
    {
      if showCalibrationEdit {
        RaiseDigit();
        return;
      }
      if showAlarmSetPoint {
        AlarmCursorUp();
        return;
      }
      if showUnitSelect {
        UnitCursorUp();
        return;
      }
      if showCumDoseReset {
        cumDoseResetIndex := if cumDoseResetIndex > 0 then cumDoseResetIndex - 1 else 1;
        return;
      }
      if showCumDoseModeSelect {
        cumDoseModeIndex := if cumDoseModeIndex > 0 then cumDoseModeIndex - 1 else 1;
        return;
      }
      PrgCursorUp();
    }

    /** DOWN: the mirror image of UP. */
    method DownArrow()
      requires Valid()
      modifies this`calibrationDigits, this`alarmSetPointIndex, this`alarmSetPointVisibleStart,
               this`unitIndex, this`unitVisibleStart, this`cumDoseResetIndex, this`cumDoseModeIndex,
               this`selectedOption, this`visibleOptions
      ensures Valid()
      ensures old(UnitWindowOk()) ==> UnitWindowOk()
      ensures var d, i := old(calibrationDigits), old(selectedDigitIndex);
        calibrationDigits ==
          if old(Arrow()) == DigitEditor then d[i := if i == 0 then (if d[0] == 0 then 1 else 0) else (d[i] + 9) % 10]
          else d
      ensures alarmSetPointIndex ==
        if old(Arrow()) == AlarmList then Next(old(alarmSetPointIndex), |AlarmSetPointOptions|) else old(alarmSetPointIndex)
      ensures alarmSetPointVisibleStart ==
        if old(Arrow()) == AlarmList && alarmSetPointIndex >= old(alarmSetPointVisibleStart) + WindowSize then alarmSetPointIndex - 3
        else old(alarmSetPointVisibleStart)
      ensures unitIndex == if old(Arrow()) == UnitList then Next(old(unitIndex), |UnitOptions|) else old(unitIndex)
      ensures unitVisibleStart ==
        if old(Arrow()) != UnitList then old(unitVisibleStart)
        else if unitIndex >= old(unitVisibleStart) + WindowSize then unitIndex - 3
        else if unitIndex == 0 then 0
        else old(unitVisibleStart)
      ensures cumDoseResetIndex == if old(Arrow()) == ResetChoice then Next(old(cumDoseResetIndex), 2) else old(cumDoseResetIndex)
      ensures cumDoseModeIndex == if old(Arrow()) == ModeChoice then Next(old(cumDoseModeIndex), 2) else old(cumDoseModeIndex)
      ensures selectedOption == if old(Arrow()) == PrgList then Next(old(selectedOption), PrgOptionCount) else old(selectedOption)
      ensures visibleOptions ==
        if old(Arrow()) != PrgList then old(visibleOptions)
        else if old(selectedOption) == PrgOptionCount - 1 then WindowSize
        else if selectedOption >= old(visibleOptions) then MinInt(PrgOptionCount, selectedOption + 1)
        else old(visibleOptions)
    {
      if showCalibrationEdit {
        LowerDigit();
        return;
      }
      if showAlarmSetPoint {
        AlarmCursorDown();
        return;
      }
      if showUnitSelect {
        UnitCursorDown();
        return;
      }
      if showCumDoseReset {
        cumDoseResetIndex := if cumDoseResetIndex < 1 then cumDoseResetIndex + 1 else 0;
        return;
      }
      if showCumDoseModeSelect {
        cumDoseModeIndex := if cumDoseModeIndex < 1 then cumDoseModeIndex + 1 else 0;
        return;
      }
      PrgCursorDown();
    }

    /** UP in the digit editor: digit 0 toggles between 0 and 1, the others count up modulo 10. */
    method RaiseDigit()
      requires DigitsOk()
      modifies this`calibrationDigits
      ensures DigitsOk()
      ensures var d, i := old(calibrationDigits), selectedDigitIndex;
        calibrationDigits == d[i := if i == 0 then (if d[0] == 1 then 0 else 1) else (d[i] + 1) % 10]
    {
      var newDigits := calibrationDigits;
      if selectedDigitIndex == 0 {
        newDigits := newDigits[selectedDigitIndex := if newDigits[selectedDigitIndex] == 1 then 0 else 1];
      } else {
        newDigits := newDigits[selectedDigitIndex := (newDigits[selectedDigitIndex] + 1) % 10];
      }
      calibrationDigits := newDigits;
    }

    /** DOWN in the digit editor: digit 0 toggles between 0 and 1, the others count down modulo 10. */
    method LowerDigit()
      requires DigitsOk()
      modifies this`calibrationDigits
      ensures DigitsOk()
      ensures var d, i := old(calibrationDigits), selectedDigitIndex;
        calibrationDigits == d[i := if i == 0 then (if d[0] == 0 then 1 else 0) else (d[i] + 9) % 10]
    {
      var newDigits := calibrationDigits;
      if selectedDigitIndex == 0 {
        newDigits := newDigits[selectedDigitIndex := if newDigits[selectedDigitIndex] == 0 then 1 else 0];
      } else {
        var lowered: int := (newDigits[selectedDigitIndex] as int - 1 + 10) % 10;
        assert 0 <= lowered;
        newDigits := newDigits[selectedDigitIndex := lowered];
      }
      calibrationDigits := newDigits;
    }

    /** UP in the alarm list: the cursor wraps to the last option; the window follows it upwards. */
    method AlarmCursorUp()
      modifies this`alarmSetPointIndex, this`alarmSetPointVisibleStart
      ensures alarmSetPointIndex == Prev(old(alarmSetPointIndex), |AlarmSetPointOptions|)
      ensures alarmSetPointVisibleStart ==
        if alarmSetPointIndex < old(alarmSetPointVisibleStart) then MaxInt(0, alarmSetPointIndex - 3)
        else old(alarmSetPointVisibleStart)
    {
      var newIndex := if alarmSetPointIndex > 0 then alarmSetPointIndex - 1 else |AlarmSetPointOptions| - 1;
      alarmSetPointIndex := newIndex;
      if newIndex < alarmSetPointVisibleStart {
        alarmSetPointVisibleStart := MaxInt(0, newIndex - 3);
      }
    }

    /** DOWN in the alarm list: the cursor wraps to the first option; the window follows it downwards. */
    method AlarmCursorDown()
      modifies this`alarmSetPointIndex, this`alarmSetPointVisibleStart
      ensures alarmSetPointIndex == Next(old(alarmSetPointIndex), |AlarmSetPointOptions|)
      ensures alarmSetPointVisibleStart ==
        if alarmSetPointIndex >= old(alarmSetPointVisibleStart) + WindowSize then alarmSetPointIndex - 3
        else old(alarmSetPointVisibleStart)
    {
      var newIndex := if alarmSetPointIndex < |AlarmSetPointOptions| - 1 then alarmSetPointIndex + 1 else 0;
      alarmSetPointIndex := newIndex;
      if newIndex >= alarmSetPointVisibleStart + 4 {
        alarmSetPointVisibleStart := newIndex - 3;
      }
    }

    /** UP in the unit list: the cursor wraps to the last unit and the window keeps it in view. */
    method UnitCursorUp()
      modifies this`unitIndex, this`unitVisibleStart
      ensures old(UnitWindowOk()) ==> UnitWindowOk()
      ensures unitIndex == Prev(old(unitIndex), |UnitOptions|)
      ensures unitVisibleStart ==
        if unitIndex < old(unitVisibleStart) then MaxInt(0, unitIndex - 3)
        else if unitIndex == |UnitOptions| - 1 then |UnitOptions| - WindowSize
        else old(unitVisibleStart)
    {
      var newIndex := if unitIndex > 0 then unitIndex - 1 else |UnitOptions| - 1;
      unitIndex := newIndex;
      if newIndex < unitVisibleStart {
        unitVisibleStart := MaxInt(0, newIndex - 3);
      } else if newIndex == |UnitOptions| - 1 {
        unitVisibleStart := MaxInt(0, |UnitOptions| - 4);
      }
    }

    /** DOWN in the unit list: the cursor wraps to the first unit and the window keeps it in view. */
    method UnitCursorDown()
      modifies this`unitIndex, this`unitVisibleStart
      ensures old(UnitWindowOk()) ==> UnitWindowOk()
      ensures unitIndex == Next(old(unitIndex), |UnitOptions|)
      ensures unitVisibleStart ==
        if unitIndex >= old(unitVisibleStart) + WindowSize then unitIndex - 3
        else if unitIndex == 0 then 0
        else old(unitVisibleStart)
    {
      var newIndex := if unitIndex < |UnitOptions| - 1 then unitIndex + 1 else 0;
      unitIndex := newIndex;
      if newIndex >= unitVisibleStart + 4 {
        unitVisibleStart := newIndex - 3;
      } else if newIndex == 0 {
        unitVisibleStart := 0;
      }
    }

    /** UP in the PRG menu: the cursor wraps from the first option to the last, in view. */
    method PrgCursorUp()
      requires PrgCursorOk()
      modifies this`selectedOption, this`visibleOptions
      ensures PrgCursorOk()
      ensures selectedOption == Prev(old(selectedOption), PrgOptionCount)
      ensures visibleOptions ==
        if old(selectedOption) == 0 then PrgOptionCount
        else if selectedOption < old(visibleOptions) - WindowSize then MaxInt(WindowSize, selectedOption + 1)
        else old(visibleOptions)
    {
      var newSel := if selectedOption > 0 then selectedOption - 1 else 7;
      var newVis := visibleOptions;
      if selectedOption == 0 && newSel == 7 {
        newVis := 8;
      } else if newSel < visibleOptions - 4 {
        newVis := MaxInt(4, newSel + 1);
      }
      selectedOption, visibleOptions := newSel, newVis;
    }

    /** DOWN in the PRG menu: the cursor wraps from the last option to the first, in view. */
    method PrgCursorDown()
      requires PrgCursorOk()
      modifies this`selectedOption, this`visibleOptions
      ensures PrgCursorOk()
      ensures selectedOption == Next(old(selectedOption), PrgOptionCount)
      ensures visibleOptions ==
        if old(selectedOption) == PrgOptionCount - 1 then WindowSize
        else if selectedOption >= old(visibleOptions) then MinInt(PrgOptionCount, selectedOption + 1)
        else old(visibleOptions)
    {
      var newSel := if selectedOption < 7 then selectedOption + 1 else 0;
      var newVis := visibleOptions;
      if selectedOption == 7 && newSel == 0 {
        newVis := 4;
      } else if newSel >= visibleOptions {
        newVis := MinInt(8, newSel + 1);
      }
      selectedOption, visibleOptions := newSel, newVis;
    }

    /** PRG toggles the menu flag whatever else is open; opening it resets the cursor. */
    method PrgPress()
      requires Valid()
      modifies this`showPrgMenu, this`selectedOption, this`visibleOptions
      ensures Valid()
      ensures showPrgMenu == !old(showPrgMenu)
      ensures selectedOption == if old(showPrgMenu) then old(selectedOption) else 0
      ensures visibleOptions == if old(showPrgMenu) then old(visibleOptions) else WindowSize
      ensures OpenScreens() == if old(showPrgMenu) then old(OpenScreens()) - 1 else old(OpenScreens()) + 1
    {
      var wasOpen := showPrgMenu;
      showPrgMenu := !showPrgMenu;
      if !wasOpen {
        selectedOption := 0;
        visibleOptions := 4;
      }
    }

    function EntBranch(): EntAction
      reads this`showPrgMenu, this`showUnitSelect, this`showAlarmSetPoint, this`showCalibrationEdit,
               this`showCumDoseReset, this`showCumDoseModeSelect, this`showLookupTable, this`showSaveConfirmation, this`autoManualMode
    {
      if showCalibrationEdit then AdvanceDigit
      else if showAlarmSetPoint then StageAlarmSetPoint
      else if showUnitSelect then StageUnit
      else if showCumDoseReset then ConfirmReset
      else if showCumDoseModeSelect then StageMode
      else if showSaveConfirmation then DismissSave
      else if showLookupTable then LookupIgnores
      else if autoManualMode == Manual && !showPrgMenu then ManualRun
      else if showPrgMenu then PrgSelect
      else NoAction
    }

    /** True when ENT/SRT in the PRG menu acts on option `k`. */
    predicate Picks(k: int)
      reads this`showPrgMenu, this`showUnitSelect, this`showAlarmSetPoint, this`showCalibrationEdit,
               this`showCumDoseReset, this`showCumDoseModeSelect, this`showLookupTable, this`showSaveConfirmation, this`autoManualMode,
               this`selectedOption
    {
      EntBranch() == PrgSelect && selectedOption == k
    }

    /**
     * ENT/SRT: advances the digit cursor, stages a highlighted choice, confirms a reset,
     * dismisses the save dialog, runs the manual control on the main screen, or acts on the
     * highlighted PRG option (open an editor, export the log, save the staged values).
     */
    method EntSrtPress()
      modifies this`selectedDigitIndex, this`tempAlarmSetPoint, this`showAlarmSetPoint, this`showPrgMenu,
               this`tempUnit, this`showUnitSelect, this`cumulativeDose, this`showCumDoseReset,
               this`tempCumDoseMode, this`showCumDoseModeSelect, this`showSaveConfirmation,
               this`isManualDoseActive, this`manualButtonState, this`unitIndex, this`alarmSetPointIndex,
               this`showCalibrationEdit, this`cumDoseModeIndex, this`showLookupTable, this`requests,
               this`selectedUnit, this`alarmSetPoint, this`calibrationFactor, this`autoManualMode
      ensures selectedDigitIndex ==
        if old(EntBranch()) == AdvanceDigit then (if old(selectedDigitIndex) < 2 then old(selectedDigitIndex) + 1 else 0)
        else old(selectedDigitIndex)
      ensures tempAlarmSetPoint ==
        if old(EntBranch()) == StageAlarmSetPoint then AlarmSetPointOptions[old(alarmSetPointIndex)] else old(tempAlarmSetPoint)
      ensures tempUnit == if old(EntBranch()) == StageUnit then UnitOptions[old(unitIndex)] else old(tempUnit)
      ensures tempCumDoseMode ==
        if old(EntBranch()) == StageMode then (if old(cumDoseModeIndex) == 0 then Auto else Manual) else old(tempCumDoseMode)
      ensures showPrgMenu ==
        if old(EntBranch()) in {StageAlarmSetPoint, StageUnit, ConfirmReset, StageMode} then true
        else if old(EntBranch()) == PrgSelect then false
        else old(showPrgMenu)
      ensures showAlarmSetPoint == (old(Picks(1)) || (old(showAlarmSetPoint) && old(EntBranch()) != StageAlarmSetPoint))
      ensures showUnitSelect == (old(Picks(0)) || (old(showUnitSelect) && old(EntBranch()) != StageUnit))
      ensures showCalibrationEdit == (old(Picks(2)) || old(showCalibrationEdit))
      ensures showCumDoseReset == (old(Picks(3)) || (old(showCumDoseReset) && old(EntBranch()) != ConfirmReset))
      ensures showCumDoseModeSelect == (old(Picks(4)) || (old(showCumDoseModeSelect) && old(EntBranch()) != StageMode))
      ensures showLookupTable == (old(Picks(5)) || old(showLookupTable))
      ensures showSaveConfirmation == (old(Picks(7)) || (old(showSaveConfirmation) && old(EntBranch()) != DismissSave))
      ensures cumulativeDose ==
        if old(EntBranch()) == ConfirmReset && old(cumDoseResetIndex) == 0 then 0.0
        else if old(EntBranch()) == ManualRun && (old(isManualDoseActive) || old(manualButtonState) == Restart) then 0.0
        else old(cumulativeDose)
      ensures isManualDoseActive == (old(EntBranch()) == ManualRun || old(isManualDoseActive))
      ensures manualButtonState ==
        if old(EntBranch()) == ManualRun && !old(isManualDoseActive) then Stop else old(manualButtonState)
      ensures unitIndex == if old(Picks(0)) then IndexOf(UnitOptions, old(tempUnit)) else old(unitIndex)
      ensures UnitOptions[unitIndex] == if old(Picks(0)) then old(tempUnit) else UnitOptions[old(unitIndex)]
      ensures alarmSetPointIndex ==
        if old(Picks(1)) then Closest(AlarmSetPointOptions, old(tempAlarmSetPoint)) else old(alarmSetPointIndex)
      ensures cumDoseModeIndex ==
        if old(Picks(4)) then (if old(tempCumDoseMode) == Auto then 0 else 1) else old(cumDoseModeIndex)
      ensures requests == if old(Picks(6)) then old(requests) + [ExportLog(old(logData))] else old(requests)
      ensures selectedUnit == if old(Picks(7)) then old(tempUnit) else old(selectedUnit)
      ensures alarmSetPoint == if old(Picks(7)) then old(tempAlarmSetPoint) else old(alarmSetPoint)
      ensures calibrationFactor == if old(Picks(7)) then old(tempCalibrationFactor) else old(calibrationFactor)
      ensures autoManualMode == if old(Picks(7)) then old(tempCumDoseMode) else old(autoManualMode)
      ensures old(AtMostOneScreen()) ==> AtMostOneScreen()
    {
      if showCalibrationEdit {
        if selectedDigitIndex < 2 {
          selectedDigitIndex := selectedDigitIndex + 1;
        } else {
          selectedDigitIndex := 0;
        }
        return;
      }
      if showAlarmSetPoint || showUnitSelect || showCumDoseReset || showCumDoseModeSelect {
        TakeChoice();
        return;
      }
      EntMainScreen();
    }

    /**
     * ENT/SRT with no editor or choice list open: dismisses the save dialog, is ignored by the
     * lookup table, runs the manual control on the main screen, or acts on the PRG option.
     */
    method EntMainScreen()
      requires !(showCalibrationEdit || showAlarmSetPoint || showUnitSelect || showCumDoseReset || showCumDoseModeSelect)
      modifies this`showPrgMenu, this`showUnitSelect, this`unitIndex, this`showAlarmSetPoint,
               this`alarmSetPointIndex, this`showCalibrationEdit, this`showCumDoseReset,
               this`showCumDoseModeSelect, this`cumDoseModeIndex, this`showLookupTable, this`requests,
               this`selectedUnit, this`alarmSetPoint, this`calibrationFactor, this`autoManualMode,
               this`showSaveConfirmation, this`cumulativeDose, this`isManualDoseActive, this`manualButtonState
      ensures showPrgMenu == if old(EntBranch()) == PrgSelect then false else old(showPrgMenu)
      ensures showUnitSelect == old(Picks(0))
      ensures showAlarmSetPoint == old(Picks(1))
      ensures showCalibrationEdit == old(Picks(2))
      ensures showCumDoseReset == old(Picks(3))
      ensures showCumDoseModeSelect == old(Picks(4))
      ensures showLookupTable == (old(Picks(5)) || old(showLookupTable))
      ensures showSaveConfirmation == (old(Picks(7)) || (old(showSaveConfirmation) && old(EntBranch()) != DismissSave))
      ensures cumulativeDose ==
        if old(EntBranch()) == ManualRun && (old(isManualDoseActive) || old(manualButtonState) == Restart) then 0.0
        else old(cumulativeDose)
      ensures isManualDoseActive == (old(EntBranch()) == ManualRun || old(isManualDoseActive))
      ensures manualButtonState ==
        if old(EntBranch()) == ManualRun && !old(isManualDoseActive) then Stop else old(manualButtonState)
      ensures unitIndex == if old(Picks(0)) then IndexOf(UnitOptions, old(tempUnit)) else old(unitIndex)
      ensures alarmSetPointIndex ==
        if old(Picks(1)) then Closest(AlarmSetPointOptions, old(tempAlarmSetPoint)) else old(alarmSetPointIndex)
      ensures cumDoseModeIndex ==
        if old(Picks(4)) then (if old(tempCumDoseMode) == Auto then 0 else 1) else old(cumDoseModeIndex)
      ensures requests == if old(Picks(6)) then old(requests) + [ExportLog(old(logData))] else old(requests)
      ensures selectedUnit == if old(Picks(7)) then old(tempUnit) else old(selectedUnit)
      ensures alarmSetPoint == if old(Picks(7)) then old(tempAlarmSetPoint) else old(alarmSetPoint)
      ensures calibrationFactor == if old(Picks(7)) then old(tempCalibrationFactor) else old(calibrationFactor)
      ensures autoManualMode == if old(Picks(7)) then old(tempCumDoseMode) else old(autoManualMode)
      ensures old(AtMostOneScreen()) ==> AtMostOneScreen()
    {
      if showSaveConfirmation {
        showSaveConfirmation := false;
        return;
      }
      if showLookupTable {
        return;
      }
      if autoManualMode == Manual && !showPrgMenu {
        StartManualRun();
        return;
      }
      if showPrgMenu {
        SelectPrgOption();
      }
    }

    /**
     * ENT/SRT in one of the four choice lists: stages the highlighted entry (or, in the reset
     * dialog, clears the dose on "Yes") and returns to the PRG menu. The lists are tested in the
     * handler's order.
     */
    method TakeChoice()
      requires !showCalibrationEdit
      modifies this`tempAlarmSetPoint, this`showAlarmSetPoint, this`tempUnit, this`showUnitSelect,
               this`cumulativeDose, this`showCumDoseReset, this`tempCumDoseMode, this`showCumDoseModeSelect,
               this`showPrgMenu
      ensures tempAlarmSetPoint ==
        if old(EntBranch()) == StageAlarmSetPoint then AlarmSetPointOptions[old(alarmSetPointIndex)] else old(tempAlarmSetPoint)
      ensures tempUnit == if old(EntBranch()) == StageUnit then UnitOptions[old(unitIndex)] else old(tempUnit)
      ensures tempCumDoseMode ==
        if old(EntBranch()) == StageMode then (if old(cumDoseModeIndex) == 0 then Auto else Manual) else old(tempCumDoseMode)
      ensures cumulativeDose ==
        if old(EntBranch()) == ConfirmReset && old(cumDoseResetIndex) == 0 then 0.0 else old(cumulativeDose)
      ensures showPrgMenu == (old(EntBranch()) in {StageAlarmSetPoint, StageUnit, ConfirmReset, StageMode} || old(showPrgMenu))
      ensures showAlarmSetPoint == (old(showAlarmSetPoint) && old(EntBranch()) != StageAlarmSetPoint)
      ensures showUnitSelect == (old(showUnitSelect) && old(EntBranch()) != StageUnit)
      ensures showCumDoseReset == (old(showCumDoseReset) && old(EntBranch()) != ConfirmReset)
      ensures showCumDoseModeSelect == (old(showCumDoseModeSelect) && old(EntBranch()) != StageMode)
      ensures old(AtMostOneScreen()) ==> AtMostOneScreen()
    {
      if showAlarmSetPoint {
        tempAlarmSetPoint := AlarmSetPointOptions[alarmSetPointIndex];
        showAlarmSetPoint := false;
        showPrgMenu := true;
        return;
      }
      if showUnitSelect {
        tempUnit := UnitOptions[unitIndex];
        showUnitSelect := false;
        showPrgMenu := true;
        return;
      }
      if showCumDoseReset {
        if cumDoseResetIndex == 0 {
          cumulativeDose := 0.0;
        }
        showCumDoseReset := false;
        showPrgMenu := true;
        return;
      }
      if showCumDoseModeSelect {
        tempCumDoseMode := if cumDoseModeIndex == 0 then Auto else Manual;
        showCumDoseModeSelect := false;
        showPrgMenu := true;
      }
    }

    /**
     * The manual run control on the main screen: START begins a run, RESTART clears the dose
     * and begins a new one, and pressing it during a run clears the dose and keeps running.
     */
    method StartManualRun()
      modifies this`cumulativeDose, this`isManualDoseActive, this`manualButtonState
      ensures isManualDoseActive
      ensures manualButtonState == if old(isManualDoseActive) then old(manualButtonState) else Stop
      ensures cumulativeDose ==
        if old(isManualDoseActive) || old(manualButtonState) == Restart then 0.0 else old(cumulativeDose)
    {
      if !isManualDoseActive {
        if manualButtonState == Restart {
          cumulativeDose := 0.0;
        }
        isManualDoseActive := true;
        manualButtonState := Stop;
      } else {
        cumulativeDose := 0.0;
        isManualDoseActive := true;
      }
    }

    /**
     * ENT/SRT with the PRG menu on top: opens the highlighted option's editor (seeding its cursor
     * from the staged value), exports the log, or saves the staged values; every option closes
     * the menu.
     */
    method SelectPrgOption()
      requires EntBranch() == PrgSelect
      modifies this`showPrgMenu, this`showUnitSelect, this`unitIndex, this`showAlarmSetPoint,
               this`alarmSetPointIndex, this`showCalibrationEdit, this`showCumDoseReset,
               this`showCumDoseModeSelect, this`cumDoseModeIndex, this`showLookupTable, this`requests,
               this`selectedUnit, this`alarmSetPoint, this`calibrationFactor, this`autoManualMode,
               this`showSaveConfirmation
      ensures !showPrgMenu
      ensures showUnitSelect == (old(Picks(0)) || old(showUnitSelect))
      ensures showAlarmSetPoint == (old(Picks(1)) || old(showAlarmSetPoint))
      ensures showCalibrationEdit == (old(Picks(2)) || old(showCalibrationEdit))
      ensures showCumDoseReset == (old(Picks(3)) || old(showCumDoseReset))
      ensures showCumDoseModeSelect == (old(Picks(4)) || old(showCumDoseModeSelect))
      ensures showLookupTable == (old(Picks(5)) || old(showLookupTable))
      ensures showSaveConfirmation == (old(Picks(7)) || old(showSaveConfirmation))
      ensures unitIndex == if old(Picks(0)) then IndexOf(UnitOptions, old(tempUnit)) else old(unitIndex)
      ensures alarmSetPointIndex ==
        if old(Picks(1)) then Closest(AlarmSetPointOptions, old(tempAlarmSetPoint)) else old(alarmSetPointIndex)
      ensures cumDoseModeIndex ==
        if old(Picks(4)) then (if old(tempCumDoseMode) == Auto then 0 else 1) else old(cumDoseModeIndex)
      ensures requests == if old(Picks(6)) then old(requests) + [ExportLog(old(logData))] else old(requests)
      ensures selectedUnit == if old(Picks(7)) then old(tempUnit) else old(selectedUnit)
      ensures alarmSetPoint == if old(Picks(7)) then old(tempAlarmSetPoint) else old(alarmSetPoint)
      ensures calibrationFactor == if old(Picks(7)) then old(tempCalibrationFactor) else old(calibrationFactor)
      ensures autoManualMode == if old(Picks(7)) then old(tempCumDoseMode) else old(autoManualMode)
    {
      if selectedOption < 6 {
        OpenEditor();
      } else if selectedOption == 6 {
        requests := requests + [ExportLog(logData)];
        showPrgMenu := false;
      } else {
        SaveParameters();
      }
    }

    /** PRG options 0 to 5 open their editor, seeding the cursor from the staged value. */
    method OpenEditor()
      requires selectedOption < 6
      modifies this`showPrgMenu, this`showUnitSelect, this`unitIndex, this`showAlarmSetPoint,
               this`alarmSetPointIndex, this`showCalibrationEdit, this`showCumDoseReset,
               this`showCumDoseModeSelect, this`cumDoseModeIndex, this`showLookupTable
      ensures !showPrgMenu
      ensures showUnitSelect == (old(selectedOption) == 0 || old(showUnitSelect))
      ensures showAlarmSetPoint == (old(selectedOption) == 1 || old(showAlarmSetPoint))
      ensures showCalibrationEdit == (old(selectedOption) == 2 || old(showCalibrationEdit))
      ensures showCumDoseReset == (old(selectedOption) == 3 || old(showCumDoseReset))
      ensures showCumDoseModeSelect == (old(selectedOption) == 4 || old(showCumDoseModeSelect))
      ensures showLookupTable == (old(selectedOption) == 5 || old(showLookupTable))
      ensures unitIndex == if old(selectedOption) == 0 then IndexOf(UnitOptions, old(tempUnit)) else old(unitIndex)
      ensures alarmSetPointIndex ==
        if old(selectedOption) == 1 then Closest(AlarmSetPointOptions, old(tempAlarmSetPoint)) else old(alarmSetPointIndex)
      ensures cumDoseModeIndex ==
        if old(selectedOption) == 4 then (if old(tempCumDoseMode) == Auto then 0 else 1) else old(cumDoseModeIndex)
    {
      if selectedOption == 0 {
        showUnitSelect := true;
        showPrgMenu := false;
        UnitListed(tempUnit);
        unitIndex := IndexOf(UnitOptions, tempUnit);
      } else if selectedOption == 1 {
        showAlarmSetPoint := true;
        showPrgMenu := false;
        alarmSetPointIndex := Closest(AlarmSetPointOptions, tempAlarmSetPoint);
      } else if selectedOption == 2 {
        showCalibrationEdit := true;
        showPrgMenu := false;
      } else if selectedOption == 3 {
        showCumDoseReset := true;
        showPrgMenu := false;
      } else if selectedOption == 4 {
        showCumDoseModeSelect := true;
        showPrgMenu := false;
        cumDoseModeIndex := if tempCumDoseMode == Auto then 0 else 1;
      } else {
        showLookupTable := true;
        showPrgMenu := false;
      }
    }

    /** PRG option 7 commits the four staged values to the live configuration. */
    method SaveParameters()
      modifies this`selectedUnit, this`alarmSetPoint, this`calibrationFactor, this`autoManualMode,
               this`showPrgMenu, this`showSaveConfirmation
      ensures selectedUnit == old(tempUnit) && alarmSetPoint == old(tempAlarmSetPoint)
      ensures calibrationFactor == old(tempCalibrationFactor) && autoManualMode == old(tempCumDoseMode)
      ensures !showPrgMenu && showSaveConfirmation
    {
      selectedUnit := tempUnit;
      alarmSetPoint := tempAlarmSetPoint;
      calibrationFactor := tempCalibrationFactor;
      autoManualMode := tempCumDoseMode;
      showPrgMenu := false;
      showSaveConfirmation := true;
    }

    function ExtBranch(): ExtAction
      reads this`showPrgMenu, this`showUnitSelect, this`showAlarmSetPoint, this`showCalibrationEdit,
               this`showCumDoseReset, this`showCumDoseModeSelect, this`showLookupTable, this`showSaveConfirmation, this`autoManualMode
    {
      if showCalibrationEdit then CheckCalibration
      else if showAlarmSetPoint then CloseAlarmList
      else if showUnitSelect || showCumDoseReset || showCumDoseModeSelect then CloseChoice
      else if showLookupTable then CloseLookup
      else if showSaveConfirmation then DismissSaveDialog
      else if autoManualMode == Manual && !showPrgMenu then ManualStop
      else if showPrgMenu then ClosePrg
      else NoExtAction
    }

    /**
     * EXT/STP: validates and stages the digit editor's factor, closes the open editor back to
     * the PRG menu (keeping nothing staged), dismisses the save dialog, stops a manual run, or
     * closes the PRG menu.
     */
    method ExtStpPress()
      requires DigitsOk()
      modifies this`requests, this`tempCalibrationFactor, this`showCalibrationEdit, this`showPrgMenu,
               this`showAlarmSetPoint, this`showUnitSelect, this`showCumDoseReset, this`showCumDoseModeSelect,
               this`showLookupTable, this`showSaveConfirmation, this`isManualDoseActive, this`manualButtonState
      ensures old(AtMostOneScreen()) ==> AtMostOneScreen()
      ensures old(ExtBranch()) == CheckCalibration ==>
        (ValidFactor(Hundredths(old(calibrationDigits))) <==> !showCalibrationEdit && showPrgMenu)
      ensures tempCalibrationFactor ==
        if old(ExtBranch()) == CheckCalibration && ValidFactor(Hundredths(old(calibrationDigits)))
        then Hundredths(old(calibrationDigits)) else old(tempCalibrationFactor)
      ensures requests ==
        if old(ExtBranch()) == CheckCalibration && !ValidFactor(Hundredths(old(calibrationDigits)))
        then old(requests) + [InvalidCalibrationAlert] else old(requests)
      ensures showCalibrationEdit ==
        (old(showCalibrationEdit) && !ValidFactor(Hundredths(old(calibrationDigits))))
      ensures showPrgMenu ==
        if old(ExtBranch()) == CheckCalibration then ValidFactor(Hundredths(old(calibrationDigits))) || old(showPrgMenu)
        else if old(ExtBranch()) in {CloseAlarmList, CloseChoice, CloseLookup} then true
        else if old(ExtBranch()) == ClosePrg then false
        else old(showPrgMenu)
      ensures showAlarmSetPoint == (old(showAlarmSetPoint) && old(ExtBranch()) != CloseAlarmList)
      ensures showUnitSelect == (old(showUnitSelect) && old(ExtBranch()) != CloseChoice)
      ensures showCumDoseReset == (old(showCumDoseReset) && old(ExtBranch()) != CloseChoice)
      ensures showCumDoseModeSelect == (old(showCumDoseModeSelect) && old(ExtBranch()) != CloseChoice)
      ensures showLookupTable == (old(showLookupTable) && old(ExtBranch()) != CloseLookup)
      ensures showSaveConfirmation == (old(showSaveConfirmation) && old(ExtBranch()) != DismissSaveDialog)
      ensures isManualDoseActive == (old(isManualDoseActive) && old(ExtBranch()) != ManualStop)
      ensures manualButtonState == if old(ExtBranch()) == ManualStop then Restart else old(manualButtonState)
    {
      if showCalibrationEdit {
        var newValue := Hundredths(calibrationDigits);
        if newValue < 75 || newValue > 125 {
          requests := requests + [InvalidCalibrationAlert];
          return;
        }
        tempCalibrationFactor := newValue;
        showCalibrationEdit := false;
        showPrgMenu := true;
        return;
      }
      if showAlarmSetPoint {
        showAlarmSetPoint := false;
        showPrgMenu := true;
        return;
      }
      if showUnitSelect || showCumDoseReset || showCumDoseModeSelect {
        showUnitSelect := false;
        showCumDoseReset := false;
        showCumDoseModeSelect := false;
        showPrgMenu := true;
      } else if showLookupTable {
        showLookupTable := false;
        showPrgMenu := true;
      } else if showSaveConfirmation {
        showSaveConfirmation := false;
      } else if autoManualMode == Manual && !showPrgMenu {
        isManualDoseActive := false;
        manualButtonState := Restart;
      } else if showPrgMenu {
        showPrgMenu := false;
      }
    }
  }
}
