/**
 * Worked examples on the model: short runs of the screen's handlers from any state meeting each
 * example's requires, and values of the pure pieces at particular inputs.
 */
module Scenarios {
  import opened Wrappers
  import opened Digits
  import opened Telemetry
  import opened Calibration
  import opened Windows
  import opened EventLog
  import opened Lookup
  import opened Panel
  import opened Radiation

  /** PRG opens the menu at option 0; UP wraps to option 7 and DOWN wraps back to option 0. */
  method PrgCursorWraps(s: RadiationScreen)
    requires s.Valid() && s.OpenScreens() == 0
    modifies s
  {
    s.PrgPress();
    assert s.showPrgMenu && s.selectedOption == 0 && s.visibleOptions == 4;
    s.UpArrow();
    assert s.selectedOption == 7 && s.visibleOptions == 8;
    s.DownArrow();
    assert s.selectedOption == 0 && s.visibleOptions == 4;
  }

  /** The alarm sounds once at the set point, stays on above it, and stops only below it. */
  method AlarmEdges(s: RadiationScreen)
    requires !s.isAlarmActive && s.alarmSetPoint == 1000.0 && s.requests == []
    modifies s
  {
    s.bufferedDose := 900.0;
    s.AlarmEffect();
    assert !s.isAlarmActive && s.requests == [];
    s.bufferedDose := 1000.0;
    s.AlarmEffect();
    assert s.isAlarmActive && s.requests == [AlarmSoundLoop, ErrorHaptic];
    s.bufferedDose := 1100.0;
    s.AlarmEffect();
    assert s.isAlarmActive && s.requests == [AlarmSoundLoop, ErrorHaptic];
    s.bufferedDose := 999.0;
    s.AlarmEffect();
    assert !s.isAlarmActive && s.requests == [AlarmSoundLoop, ErrorHaptic, AlarmSoundStop];
  }

  /** EXT rejects 1.30 and keeps the editor open; it accepts 1.10 and stages it. */
  method CalibrationRange(s: RadiationScreen)
    requires s.showCalibrationEdit && s.tempCalibrationFactor == 100 && s.requests == []
    modifies s
  {
    s.calibrationDigits := [1, 3, 0];
    s.ExtStpPress();
    assert s.showCalibrationEdit && s.requests == [InvalidCalibrationAlert] && s.tempCalibrationFactor == 100;
    s.calibrationDigits := [1, 1, 0];
    s.ExtStpPress();
    assert !s.showCalibrationEdit && s.showPrgMenu && s.tempCalibrationFactor == 110;
  }

  /** In the digit editor UP toggles the first digit, and DOWN on a later 0 wraps it to 9. */
  method DigitEditorWraps(s: RadiationScreen)
    requires s.Valid() && s.showCalibrationEdit && s.calibrationDigits == [1, 0, 0]
    modifies s
  {
    s.selectedDigitIndex := 0;
    s.UpArrow();
    assert s.calibrationDigits == [0, 0, 0];
    s.selectedDigitIndex := 1;
    s.DownArrow();
    assert s.calibrationDigits == [0, 9, 0];
  }

  /** The working copy opens on the live table's own row objects. */
  method WorkingCopySharesRows(s: RadiationScreen)
    requires |s.cpsToDoseMap| > 1
    modifies s
  {
    s.showLookupTable := true;
    s.LookupTableEffect();
    assert s.lookupData[1] == s.cpsToDoseMap[1];
  }

  /**
   * So committing an edit of an existing row reaches the live table at once: row 1 of the live
   * table counts 99 before "Set Calibration" is chosen, and EXT, which leaves the editor, changes
   * no row.
   */
  method EditReachesLiveTable(s: RadiationScreen)
    requires |s.cpsToDoseMap| > 1 && |s.lookupData| > 1 && s.lookupData[1] == s.cpsToDoseMap[1]
    requires s.editingCell == Some(Cell(1, 0)) && s.editValue == "99"
    modifies s, s.lookupData[1]
  {
    var row := s.lookupData[1];
    var dose := row.dose;
    assert Value("99") == 99;
    s.LookupEditComplete();
    assert s.cpsToDoseMap[1] == row && row.cps == 99 && row.dose == dose;
  }

  /** PRG pressed over an open list opens the menu on top of it: two screens are flagged. */
  method PrgOverAnEditor(s: RadiationScreen)
    requires s.Valid() && s.OpenScreens() == 1 && s.showAlarmSetPoint
    modifies s
  {
    s.PrgPress();
    assert s.OpenScreens() == 2 && !s.AtMostOneScreen();
  }

  /** One firing at 120 per hour over a four-second window adds 2/15 and logs it. */
  method IntegratorFires(s: RadiationScreen)
    requires s.bufferedDose == 120.0 && s.currentTc == 4 && s.autoManualMode == Auto
    requires s.lastCumDoseUpdate == 0 && s.cumulativeDose == 0.0 && s.logData == []
    requires s.radiationValue == 0 && s.alarmSetPoint == 1000.0
    modifies s
  {
    IntervalDoseIsProduct(120.0, 4);
    s.CumDoseEffect(4000, "t1");
    assert s.cumulativeDose == 2.0 / 15.0 && s.lastCumDoseUpdate == 4000;
    assert s.logData == [LogEntry("t1", 0, 120.0, 2.0 / 15.0, Normal)];
  }

  /** Before the window has elapsed the integrator neither adds nor logs. */
  method IntegratorWaits(s: RadiationScreen)
    requires s.currentTc == 4 && s.lastCumDoseUpdate == 0
    modifies s
  {
    var dose, log := s.cumulativeDose, s.logData;
    s.CumDoseEffect(3999, "t1");
    assert s.cumulativeDose == dose && s.logData == log && s.lastCumDoseUpdate == 0;
  }

  /** The blank rows of the default table's working copy are dropped when it is committed. */
  lemma CommitDropsBlankRows()
    ensures Compact(DefaultTable + [Point(0, 0), Point(0, 0)]) == DefaultTable
  {
    var t := DefaultTable + [Point(0, 0), Point(0, 0)];
    DropBlankAppend(DefaultTable[1..], [Point(0, 0), Point(0, 0)]);
    DropBlankNone(DefaultTable[1..]);
    assert t[1..] == DefaultTable[1..] + [Point(0, 0), Point(0, 0)];
  }

  /** Of two frames in one chunk, the first one's count is taken. */
  lemma FirstFrameWins()
    ensures Decode(Frame(123) + Frame(7)) == Some(123)
  {
    DecodeFrame(123, Frame(7));
  }

  /** A tag with no digits after it carries no count. */
  lemma TagWithoutDigits()
    ensures Decode("Cnts:!") == None
  {
    var f := "Cnts:!";
    assert MatchAt(f, 0).None? by { assert DigitRun(f, 5) == 0; }
    assert MatchAt(f, 1).None? by { assert f[1..6][0] == 'n'; }
    assert forall p :: 2 <= p <= |f| ==> MatchAt(f, p).None?;
  }

  /** Halfway between the knots (0, 0) and (20, 2) the dose is 1, and at a knot it is the knot's. */
  lemma InterpolationExamples()
    ensures Interpolate(10.0, DefaultTable) == 1.0
    ensures Interpolate(100.0, DefaultTable) == 10.0
  {
    InterpolateOnSegment(10.0, DefaultTable, 0);
    InterpolateAtKnot(DefaultTable, 3);
  }

  /**
   * Editing row 2's count rate of the default table from 50 to 20 leaves two equal adjacent
   * rows, yet no count rate reaches that zero-width segment: segment 0 already contains 20.
   */
  lemma ShadowedZeroWidth()
    ensures !AdjacentDistinct([Point(0, 0), Point(20, 2), Point(20, 5)])
    ensures DefinedEverywhere([Point(0, 0), Point(20, 2), Point(20, 5)])
    ensures Interpolate(20.0, [Point(0, 0), Point(20, 2), Point(20, 5)]) == 2.0
  {
    var t := [Point(0, 0), Point(20, 2), Point(20, 5)];
    assert t[1].cps == t[2].cps;
    forall x: real
      ensures DefinedFrom(x, t, 0)
    {
      if !Within(t[0], t[1], x) {
        assert !Within(t[1], t[2], x);
        assert DefinedFrom(x, t, 2);
      }
    }
  }

  /**
   * Blanking row 1 in the editor writes the live row object in place, and EXT leaves without
   * compacting: the live table starts (0, 0), (0, 0). Count rate 0 meets that zero-width segment,
   * yet a first count of 10 still gets a dose, 1.
   */
  lemma BlankedRowKeptByExt()
    ensures !DefinedEverywhere(DefaultTable[1 := Point(0, 0)])
    ensures DoseDefined(10, [], DefaultTable[1 := Point(0, 0)])
    ensures Interpolate(10.0, DefaultTable[1 := Point(0, 0)]) == 1.0
  {
    var t := DefaultTable[1 := Point(0, 0)];
    assert !DefinedFrom(0.0, t, 0) by {
      assert Within(t[0], t[1], 0.0) && t[0].cps == t[1].cps;
    }
    assert DefinedFrom(10.0, t, 0) by {
      assert !Within(t[0], t[1], 10.0) && Within(t[1], t[2], 10.0);
    }
    assert Interpolate(10.0, t) == 1.0 by {
      assert ScanFrom(10.0, t, 0) == ScanFrom(10.0, t, 1) == Lerp(t[1], t[2], 10.0);
    }
    assert TimeConstant(1.0).tc == 8;
    assert Tail([10], 8) == [10];
    assert Mean([10]) == 10.0 by {
      assert Sum([10]) == 10;
    }
  }

  /** After 1005 appends to an empty log, entries 6 to 1005 remain. */
  lemma EvictionExample(entries: seq<LogEntry>)
    requires |entries| == 1005
    ensures AppendAll([], entries) == entries[5..]
  {
    AppendAllEvictsOldest([], entries);
  }
}
