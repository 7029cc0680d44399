# Radiation monitor: a Dafny model of the screen logic

The app reads count-rate frames from a Bluetooth radiation probe. It turns them into a calibrated
dose rate through a count-rate to dose table, raises an alarm above a set point, and integrates
the dose into a cumulative total with a capped event log. It is driven by a five-key front panel:
UP, DOWN, PRG, ENT/SRT and EXT/STP. Its menus edit the unit, the alarm set point, a three-digit
calibration factor, the cumulative-dose reset and mode, and the calibration table itself.

This project models the sequential logic of that screen, `App.tsx`:

- **Pure pieces.** These are functions with lemmas:
  - the `Cnts:<digits>!` frame decoder (`Telemetry`);
  - digit strings, i.e. `parseInt`, `toString` and the non-digit filter (`Digits`);
  - the piecewise-linear interpolation search and the time-constant choice (`Calibration`);
  - `slice(-n)` and the window mean (`Windows`);
  - the 1000-entry log (`EventLog`);
  - the option lists, `indexOf` and the nearest-option `reduce` (`Panel`);
  - the lookup-table filter (`Lookup`).
- **The screen.** This is a class, `Radiation.RadiationScreen`:
  - its fields are the provider's shared state and the screen's own state;
  - its methods are the button handlers, the lookup-table editor handlers and the bodies of the effects;
  - each method's `ensures` states its whole new state in terms of the old one.
- **Table rows.** These are heap objects (`Lookup.Row`). The editor's working copy holds the same row objects as the live table, and commits write into them in place. So edits to existing rows reach the live table even when the editor is left with EXT.
- **Worked examples.** `Scenarios` replays short runs: PRG-cursor wrap, alarm edges, the factor range, the digit editor, the shared rows, PRG over an open list, integrator firings, decoding and interpolation values, and log eviction.

Representation choices:
- All doses and averages are exact `real`s; table cells and counts are `nat`.
- The calibration factor is kept in integer hundredths (100 stands for 1.00). Every factor the app can hold is either its initial 1 or a validated value d0.d1d2. The live multiplier is k/100.
- The integrator's increment `(bufferedDose / 3600) * currentTc` is defined one second at a time (`IntervalDose`). `IntervalDoseIsProduct` proves it equals the product.
- Each effect body is a method. The host calls it whenever one of the values the effect depends on has changed.
- The ENT/SRT handler is split along its own branches into `TakeChoice`, `EntMainScreen`, `StartManualRun`, `SelectPrgOption`, `OpenEditor` and `SaveParameters`. Each helper's contract is stated in terms of the branch the whole handler takes (`EntBranch`, `Picks`).

Three behaviours of the code that the model keeps:
- PRG toggles the menu flag even while an editor or list is open, so it can leave two screens flagged (`PrgPress`, `Scenarios.PrgOverAnEditor`).
- Moving the PRG cursor above the top of its window re-anchors the window at `max(4, cursor + 1)`, rather than keeping the cursor in the first row.
- Entering the unit list sets only `unitIndex`; it does not reset `unitVisibleStart`. So only UP and DOWN are shown to keep the unit window invariant, as an implication.

## Model

| member | source | states |
|---|---|---|
| Digits.Render | App.tsx:593-598 | `toString` of a count: a non-empty digit string with no leading zero unless the count is 0 |
| Digits.ValueOfRender | App.tsx:606-610 | `parseInt` of the rendered count gives the count back: a cell's value survives being loaded into the edit buffer |
| Digits.Strip | App.tsx:601-604 | the filter keeps only digits and never lengthens the text |
| Digits.StripAppend | App.tsx:601-604 | the filter works piecewise: digits are kept in order |
| Digits.StripDigitsOnly | App.tsx:601-604 | text that holds only digits is left as it is |
| Digits.StripIdempotent | App.tsx:601-604 | filtering twice is filtering once |
| Telemetry.DigitRun | App.tsx:320 | the greedy `\d+` run: every character in it is a digit and the next one is not |
| Telemetry.FirstMatch | App.tsx:320 | the leftmost position where `Cnts:(\d+)!` matches; no earlier position matches, and None means none matches at all |
| Telemetry.Decode | App.tsx:320-323 | None exactly when the pattern matches nowhere; otherwise the count of the leftmost match |
| Telemetry.DecodeFrame | App.tsx:320-323 | a device frame `Cnts:<n>!` followed by anything decodes to n |
| Calibration.GetInterpolatedDose | App.tsx:50-61 | the search loop with its early return computes the interpolation function |
| Calibration.DefinedWhenDistinct | App.tsx:55 | when adjacent rows have distinct count rates, the division on line 55 never divides by zero |
| Calibration.DistinctDefinedEverywhere | App.tsx:50-58 | on a table without equal adjacent count rates, no count rate reaches a zero division |
| Calibration.LerpEnds | App.tsx:55-56 | a segment's line passes through both end rows |
| Calibration.LerpBetween | App.tsx:55-56 | inside a segment the line stays between its two end doses |
| Calibration.InterpolateOnSegment | App.tsx:51-58 | on an ascending table, a count rate inside segment i gets segment i's line |
| Calibration.InterpolateAtKnot | App.tsx:50-61 | on an ascending table, at a row's count rate the dose is that row's dose |
| Calibration.InterpolateBetween | App.tsx:51-58 | on an ascending table, inside a segment the dose lies between its end doses |
| Calibration.InterpolateOutside | App.tsx:60 | on an ascending table, outside the table's range the dose is the last row's dose |
| Calibration.TimeConstant | App.tsx:63-67 | the window is 8, 4 or 2; it is 8 exactly up to dose 100 and 2 exactly above 1000; the display interval is 2 for window 2, else 4 |
| Calibration.TimeConstantAntitone | App.tsx:63-67 | a higher dose never gets a longer window |
| Windows.Tail | App.tsx:888 | `slice(-n)`: the last n elements, or all of a shorter sequence, always a suffix |
| Windows.TailAppend | App.tsx:922 | keeping 999 and then appending equals appending and keeping 1000 |
| Windows.TailTail | App.tsx:922 | trimming before appending more does not change what the final trim keeps |
| Windows.MeanAtLeast | App.tsx:889 | the mean of samples that are all at least lo is at least lo |
| Windows.MeanAtMost | App.tsx:889 | the mean of samples that are all at most hi is at most hi |
| Windows.MeanBounds | App.tsx:889 | the window mean lies between its smallest and its largest sample |
| EventLog.Append | App.tsx:922 | the log keeps the newest 1000 of old entries plus the new one; it ends with the new entry, and below capacity nothing is dropped |
| EventLog.AppendAllKeepsNewest | App.tsx:922 | after any number of appends, the log is the newest 1000 of everything logged, in order |
| EventLog.AppendAllEvictsOldest | App.tsx:922 | once 1000 or more entries arrive, nothing older remains: the log is the newest 1000 of them |
| Lookup.Row.constructor | App.tsx:520 | a new row object holds the given cells |
| Lookup.Points | App.tsx:518 | the values the row objects hold now, row by row |
| Lookup.DropBlank | App.tsx:626-628 | the filter leaves no blank row and never lengthens the table |
| Lookup.DropBlankMultiset | App.tsx:626-628 | the filter removes every blank row and keeps every other row as often as it occurs |
| Lookup.DropBlankAppend | App.tsx:626-628 | the filter works piecewise, so kept rows keep their order |
| Lookup.DropBlankNone | App.tsx:626-628 | a table without blank rows passes the filter unchanged |
| Lookup.Compact | App.tsx:626-628 | the committed table is empty only for an empty copy; row 0 is kept, and later rows are the filtered ones |
| Lookup.CompactIdempotent | App.tsx:624-633 | committing a committed table keeps it as it is |
| Lookup.DropBlankRows | App.tsx:626-628 | filtering the row objects keeps the very objects, not copies |
| Lookup.CompactRows | App.tsx:626-628 | the committed rows are objects of the working copy |
| Lookup.PointsAppend | App.tsx:518-521 | reading the rows of a concatenation reads each part |
| Lookup.PointsOfDropBlankRows | App.tsx:626-628 | filtering the objects and then reading them equals filtering the values |
| Lookup.PointsOfCompactRows | App.tsx:626-628 | committing the rows and then reading them equals committing the values |
| Panel.UnitListed | App.tsx:788 | `indexOf` finds every unit in the unit list |
| Panel.LabelInjective | App.tsx:451 | two units share a label exactly when they are the same unit, so the stored label string identifies the unit |
| Panel.IndexOf | App.tsx:788 | `indexOf`: -1 exactly when the item is absent; otherwise the item's first position |
| Panel.ReduceClosest | App.tsx:793-800 | the `reduce` over the first n options returns one no farther from the target than any of them, and strictly nearer than every earlier one |
| Panel.Closest | App.tsx:793-800 | the set point list opens on the nearest option; on a tie the earliest wins |
| Panel.FactorDigits | App.tsx:506-507 | `toFixed(2)` without the point: three decimal digits that spell the factor |
| Panel.FactorDigitsOfHundredths | App.tsx:845 | three digits are recovered from the factor they spell, so seeding the editor is the inverse of reading it |
| Radiation.IntervalDoseIsProduct | App.tsx:915 | the accrued dose is the hourly rate over 3600, times the window's seconds |
| Radiation.CalculateDose | App.tsx:883-893 | whenever neither the new count nor the chosen window's mean reaches a zero-width segment: the window is the time constant of the instantaneous estimate; the buffer is the last tc samples ending with the new count; the dose is the table at the buffer's mean, times the factor |
| Radiation.EverywhereDoseDefined | App.tsx:883-890 | on a table where no count rate meets a zero-width segment, every dose calculation is defined |
| Radiation.NewRows | App.tsx:183-196 | fresh row objects holding the given table |
| Radiation.RadiationScreen.AtMostOneScreenCounts | App.tsx:450-481 | "no two screen flags set" holds exactly when at most one flag is set |
| Radiation.RadiationScreen.constructor | App.tsx:442-487 | the initial screen state and the provider's initial values (App.tsx:171-196); the staged values are seeded from the live ones, the interpolated dose starts at 0, and no screen is open |
| Radiation.RadiationScreen.ReceiveFrame | App.tsx:320-323 | a matching frame replaces the count rate; any other frame leaves it |
| Radiation.RadiationScreen.DoseCalculation | App.tsx:883-893 | the dose-calculation effect on the live state, whenever neither the count nor the window's mean reaches a zero-width segment of the live table; the table is read, not changed |
| Radiation.RadiationScreen.AlarmEffect | App.tsx:527-543 | afterwards the alarm is active exactly when the dose is at least the set point; sound and haptic start only on a rise, stop only on a fall |
| Radiation.RadiationScreen.BlinkEffect | App.tsx:546-555 | blink is off whenever the alarm is inactive |
| Radiation.RadiationScreen.BlinkTick | App.tsx:548-550 | one oscillator tick flips the blink phase while the alarm is active |
| Radiation.RadiationScreen.CumDoseEffect | App.tsx:909-925 | before tc seconds have passed nothing changes; otherwise the stamp is now, the dose grows by the interval dose exactly in Auto mode or during a manual run, and one entry is logged with ALARM exactly at or above the set point; the log stays within 1000 |
| Radiation.RadiationScreen.Integrate | App.tsx:911-922 | one firing: the stamp, the increased dose, and the log with the new entry appended |
| Radiation.RadiationScreen.CalibrationEditEffect | App.tsx:504-512 | while the editor is open its digits spell the staged factor and the cursor is on digit 0 |
| Radiation.RadiationScreen.LookupTableEffect | App.tsx:515-524 | the working copy is the live table's own row objects followed by two fresh blank rows |
| Radiation.RadiationScreen.LookupCellPress | App.tsx:591-599 | the selected cell is recorded, and the buffer holds the cell's value as digits, which parse back to it |
| Radiation.RadiationScreen.LookupEditChange | App.tsx:601-604 | the buffer becomes the digits of the typed text, so it holds digits only |
| Radiation.RadiationScreen.LookupEditComplete | App.tsx:606-622 | an empty buffer or no selection writes nothing; otherwise the selected field of the selected row object gets the buffer's number and the other field is kept; the selection and buffer are cleared |
| Radiation.RadiationScreen.SetLookupTable | App.tsx:624-633 | the live table becomes the committed working copy, which is kept non-empty; the menu returns, the alert is requested, and at most one screen stays open |
| Radiation.RadiationScreen.UpArrow | App.tsx:636-675 | the first open editor takes the key (digit toggle or +1 mod 10, list and choice cursors wrap upward, the alarm and unit windows follow their cursors), else the PRG cursor wraps with its window; every field in the frame gets its new value, and the PRG window and the unit window stay around their cursors |
| Radiation.RadiationScreen.DownArrow | App.tsx:677-715 | the mirror image: digit toggle or -1 mod 10, cursors wrap downward, the alarm window moves down to keep its cursor in view; every field in the frame gets its new value, and the PRG window and the unit window stay around their cursors |
| Radiation.RadiationScreen.RaiseDigit | App.tsx:640-649 | digit 0 toggles between 0 and 1, digits 1 and 2 count up modulo 10, and the digits stay well formed (`DigitsOk`: the first digit is 0 or 1) |
| Radiation.RadiationScreen.LowerDigit | App.tsx:681-690 | digit 0 toggles between 0 and 1, digits 1 and 2 count down modulo 10, and the digits stay well formed (`DigitsOk`: the first digit is 0 or 1) |
| Radiation.RadiationScreen.AlarmCursorUp | App.tsx:652-657 | the set-point cursor wraps from the first option to the last; the window moves up only when the cursor leaves it above |
| Radiation.RadiationScreen.AlarmCursorDown | App.tsx:693-698 | the set-point cursor wraps from the last option to the first; the window moves down only when the cursor leaves it below |
| Radiation.RadiationScreen.UnitCursorUp | App.tsx:659-665 | the unit cursor wraps upward; the window follows it, jumps to the last four on a wrap, and keeps the cursor in view |
| Radiation.RadiationScreen.UnitCursorDown | App.tsx:700-705 | the unit cursor wraps downward; the window follows it, returns to the top on a wrap, and keeps the cursor in view |
| Radiation.RadiationScreen.PrgCursorUp | App.tsx:669-673 | the PRG cursor wraps from the first option to the last (window [4, 8)), re-anchors at `max(4, cursor + 1)` above the window, and stays in view |
| Radiation.RadiationScreen.PrgCursorDown | App.tsx:709-713 | the PRG cursor wraps from the last option to the first (window [0, 4)), re-anchors at `min(8, cursor + 1)` below the window, and stays in view |
| Radiation.RadiationScreen.PrgPress | App.tsx:717-721 | the menu flag toggles whatever else is open; opening resets the cursor to 0 and the window to 4; the open-screen count moves by one |
| Radiation.RadiationScreen.EntSrtPress | App.tsx:723-839 | every field after ENT/SRT as a function of the branch taken; at most one screen stays open |
| Radiation.RadiationScreen.TakeChoice | App.tsx:737-759 | the open list's entry is staged (or the dose is cleared on "Yes"), the list closes and the menu returns |
| Radiation.RadiationScreen.EntMainScreen | App.tsx:761-836 | the save dialog, the lookup table, the manual control and the PRG menu, in that order, with the new state for each |
| Radiation.RadiationScreen.StartManualRun | App.tsx:768-780 | a run becomes active; START begins one, RESTART clears the dose first, and a press during a run clears the dose |
| Radiation.RadiationScreen.SelectPrgOption | App.tsx:783-831 | the highlighted option opens its editor with the cursor seeded, exports the log, or saves; every option closes the menu |
| Radiation.RadiationScreen.OpenEditor | App.tsx:785-819 | options 0 to 5 open their editor; units by `indexOf`, set points by nearest option, mode by the staged mode |
| Radiation.RadiationScreen.SaveParameters | App.tsx:824-831 | the four staged values become the live configuration and the save dialog opens |
| Radiation.RadiationScreen.ExtStpPress | App.tsx:841-880 | in the digit editor the factor is staged and the menu returns exactly when it lies in 0.75 to 1.25, else an alert is requested and nothing else changes; other screens close as the handler orders them; a manual run stops to RESTART; at most one screen stays open |
| Scenarios.CommitDropsBlankRows | App.tsx:624-633 | the default table's working copy commits to the default table |
| Scenarios.FirstFrameWins | App.tsx:320-323 | of two frames in one chunk the first count is taken |
| Scenarios.TagWithoutDigits | App.tsx:320-323 | a tag with no digits carries no count |
| Scenarios.InterpolationExamples | App.tsx:50-61 | count rate 10 gives dose 1 on the default table, and count rate 100 gives dose 10 |
| Scenarios.EvictionExample | App.tsx:922 | after 1005 appends to an empty log, entries 6 to 1005 remain |
| Scenarios.ShadowedZeroWidth | App.tsx:50-61 | rows 0-2 of the default table with row 2's count rate edited to 20, [(0,0),(20,2),(20,5)], has two equal adjacent count rates yet still gives a dose at every count rate, 2 at count rate 20 |
| Scenarios.BlankedRowKeptByExt | App.tsx:50-61 | the default table with row 1 blanked in place meets a zero-width segment at count rate 0, yet a first count of 10 is a defined calculation and gets dose 1 |

## Left out

- Bluetooth scanning, connection, device validation and base64 decoding. These are device and network I/O; only the pattern match on a decoded frame is modelled (`ReceiveFrame`).
- Export: permissions, file writing, sharing and the CSV text. These are I/O and foreign calls; the export is recorded as a request carrying the log entries.
- Sounds, the alarm haptic and alert dialogs. These are foreign calls; the alarm's looping sound, its stop, its `notificationError` haptic, the export and the two calibration alerts appear as requests appended to `requests`, and the `alarmSound` null check is not modelled.
- Button haptics: the `impactLight`, `impactMedium` and `impactHeavy` triggers at the start of the lookup-cell press and the UP, DOWN, PRG, ENT/SRT and EXT/STP handlers (App.tsx:592, 637, 678, 718, 724, 842) are dropped. They are effects on the device only, and no state of the screen depends on them.
- `formatDose`, `toFixed` display formatting and the RTC stamp. These are floating-point formatting and wall-clock reads; the RTC string is a parameter of the integrator.
- Timers: the display-throttle interval and the 500 ms blink oscillator. These are `setInterval` concurrency; a single oscillator tick is `BlinkTick`.
- React scheduling. The rule that an effect re-runs only when its dependencies change is the host's business; each effect body is a method.
- Floating point. All arithmetic is exact, and `parseInt` and `parseFloat` precision are not modelled.
- The `default` branch of the PRG switch. It is unreachable because the cursor type is 0 to 7.
- Rendering, navigation and styles.
- Unit labels: units are an enumeration with their labels (`Panel.Label`); the stored value is the unit itself rather than its label string.
- Radiation.RadiationScreen.UpArrow: the unit window invariant is stated as an implication from the old state, because entering the unit list can break it.
- Radiation.RadiationScreen.DownArrow: the unit window invariant is stated as an implication from the old state, for the same reason.
- Radiation.CalculateDose: requires `DoseDefined`: the scan at the new count and at the chosen window's mean meets no zero-width segment before its first matching segment. At a count rate that does meet one, the source divides by zero (App.tsx:55) and carries NaN into the window choice or the dose; the model computes no dose for that call. Other count rates on the same table are not affected: after row 1 is blanked and EXT is pressed the live table starts (0,0), (0,0), count rate 0 is excluded, yet count rate 10 still gets its dose (`Scenarios.BlankedRowKeptByExt`).
- Radiation.RadiationScreen.DoseCalculation: requires `DoseDefined` of the live count, buffer and table, for the same reason.
- Radiation.RadiationScreen.UpArrow: "leaves the screen flags and the live table alone" is given by the method's frame, not by an `ensures`; the same holds for DownArrow and for the table under ENT/SRT and EXT/STP.
