/**
 * The event log: one entry per integrator firing, kept as a first-in first-out store of at most
 * 1000 entries (`[...prev.slice(-999), entry]`).
 */
module EventLog {
  import opened Windows

  /** The alert column: "ALARM" or "NORMAL". */
  datatype Alert = Alarm | Normal

  /** One logged tick; `rtc` is the wall-clock stamp the host supplies. */
  datatype LogEntry = LogEntry(rtc: string, cps: nat, doseRate: real, cumDose: real, alert: Alert)

  const Capacity: nat := 1000

  /** Appends one entry, dropping the oldest once 1000 are held. */
  function Append(log: seq<LogEntry>, entry: LogEntry): (r: seq<LogEntry>)
    ensures r == Tail(log + [entry], Capacity)
    ensures 0 < |r| <= Capacity && r[|r| - 1] == entry
    ensures |log| < Capacity ==> r == log + [entry]
  {
    TailAppend(log, entry, Capacity);
    Tail(log, Capacity - 1) + [entry]
  }

  /** The log after appending `entries` one at a time, oldest first. */
  function AppendAll(log: seq<LogEntry>, entries: seq<LogEntry>): seq<LogEntry>
    decreases |entries|
  {
    if entries == [] then log else AppendAll(Append(log, entries[0]), entries[1..])
  }

  /** However many entries arrive, the log holds the newest 1000 of everything, in order. */
  lemma {:induction false} AppendAllKeepsNewest(log: seq<LogEntry>, entries: seq<LogEntry>)
    requires |log| <= Capacity
    ensures AppendAll(log, entries) == Tail(log + entries, Capacity)
    decreases |entries|
  {
    if entries == [] {
      assert log + entries == log;
    } else {
      var next := Append(log, entries[0]);
      calc {
        AppendAll(log, entries);
        AppendAll(next, entries[1..]);
        { AppendAllKeepsNewest(next, entries[1..]); }
        Tail(next + entries[1..], Capacity);
        { TailTail(log + [entries[0]], entries[1..], Capacity); }
        Tail(log + [entries[0]] + entries[1..], Capacity);
        { assert log + [entries[0]] + entries[1..] == log + entries; }
        Tail(log + entries, Capacity);
      }
    }
  }

  /**
   * Once 1000 or more entries have arrived, nothing logged before them remains: the log is the
   * newest 1000 of the new entries, in order (after 1005 appends to an empty log, entries 6 to
   * 1005).
   */
  lemma AppendAllEvictsOldest(log: seq<LogEntry>, entries: seq<LogEntry>)
    requires |log| <= Capacity <= |entries|
    ensures AppendAll(log, entries) == entries[|entries| - Capacity..]
  {
    var all := log + entries;
    assert AppendAll(log, entries) == Tail(all, Capacity) by {
      AppendAllKeepsNewest(log, entries);
    }
    assert Tail(all, Capacity) == all[|all| - Capacity..] by {
      TailOfLonger(all, Capacity);
    }
    assert all[|all| - Capacity..] == entries[|entries| - Capacity..];
  }
}
