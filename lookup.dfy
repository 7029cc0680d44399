/**
 * The calibration table as the lookup-table editor handles it. Rows are objects: the editor's
 * working copy is a new list that holds the same row objects as the live table, so editing a
 * cell of an existing row changes the live table too. "Set Calibration" keeps row 0 and drops
 * every later row whose two cells are 0.
 */
module Lookup {
  import opened Calibration

  /** A row object `{ cps, dose }`, updated in place by the editor. */
  class Row {
    var cps: nat
    var dose: nat

    constructor (cps: nat, dose: nat)
      ensures this.cps == cps && this.dose == dose
    {
      this.cps := cps;
      this.dose := dose;
    }
  }

  /** The values the rows hold now. */
  function Points(rows: seq<Row>): (r: seq<Point>)
    reads rows
    ensures |r| == |rows|
    ensures forall i :: 0 <= i < |rows| ==> r[i] == Point(rows[i].cps, rows[i].dose)
  {
    if rows == [] then [] else [Point(rows[0].cps, rows[0].dose)] + Points(rows[1..])
  }

  /** An unused row: both cells are 0. */
  predicate Blank(p: Point) {
    p.cps == 0 && p.dose == 0
  }

  /** `filter(item => item.cps !== 0 || item.dose !== 0)` on values. */
  function DropBlank(s: seq<Point>): (r: seq<Point>)
    ensures |r| <= |s|
    ensures forall i :: 0 <= i < |r| ==> !Blank(r[i])
  {
    if s == [] then [] else (if Blank(s[0]) then [] else [s[0]]) + DropBlank(s[1..])
  }

  /** Dropping blanks removes every blank row and keeps every other row, as often as it occurs. */
  lemma {:induction false} DropBlankMultiset(s: seq<Point>)
    ensures multiset(DropBlank(s)) == multiset(s)[Point(0, 0) := 0]
  {
    if s != [] {
      assert s == [s[0]] + s[1..];
      DropBlankMultiset(s[1..]);
    }
  }

  /** The committed table: row 0 always, then the later rows that are not blank. */
  function Compact(t: seq<Point>): (r: seq<Point>)
    ensures t == [] <==> r == []
    ensures t != [] ==> r[0] == t[0] && r[1..] == DropBlank(t[1..])
  {
    if t == [] then [] else [t[0]] + DropBlank(t[1..])
  }

  /** Dropping blanks works piecewise, so the rows kept stay in their original order. */
  lemma {:induction false} DropBlankAppend(a: seq<Point>, b: seq<Point>)
    ensures DropBlank(a + b) == DropBlank(a) + DropBlank(b)
  {
    if a == [] {
      assert a + b == b;
    } else {
      assert (a + b)[0] == a[0] && (a + b)[1..] == a[1..] + b;
      DropBlankAppend(a[1..], b);
    }
  }

  /** A list without blank rows is kept as it is. */
  lemma {:induction false} DropBlankNone(s: seq<Point>)
    requires forall i :: 0 <= i < |s| ==> !Blank(s[i])
    ensures DropBlank(s) == s
  {
    if s != [] {
      DropBlankNone(s[1..]);
    }
  }

  /** Committing twice keeps what the first commit kept. */
  lemma CompactIdempotent(t: seq<Point>)
    ensures Compact(Compact(t)) == Compact(t)
  {
    if t != [] {
      var r := Compact(t);
      DropBlankNone(r[1..]);
    }
  }

  /** The same filter on the row objects: it keeps the very objects, not copies of them. */
  function DropBlankRows(rows: seq<Row>): (r: seq<Row>)
    reads rows
    ensures forall x :: x in r ==> x in rows
  {
    if rows == [] then []
    else
      var rest := DropBlankRows(rows[1..]);
      assert forall x :: x in rest ==> x in rows;
      (if rows[0].cps == 0 && rows[0].dose == 0 then [] else [rows[0]]) + rest
  }

  /** The committed rows: row 0, then the later rows that are not blank. */
  function CompactRows(rows: seq<Row>): (r: seq<Row>)
    reads rows
    ensures forall x :: x in r ==> x in rows
  {
    if rows == [] then [] else [rows[0]] + DropBlankRows(rows[1..])
  }

  lemma PointsAppend(a: seq<Row>, b: seq<Row>)
    ensures Points(a + b) == Points(a) + Points(b)
  {
  }

  /** Filtering the objects and then reading them gives the filtered values. */
  lemma {:induction false} PointsOfDropBlankRows(rows: seq<Row>)
    ensures Points(DropBlankRows(rows)) == DropBlank(Points(rows))
  {
    if rows != [] {
      var p := Points(rows);
      assert p[1..] == Points(rows[1..]);
      PointsOfDropBlankRows(rows[1..]);
      var head := if rows[0].cps == 0 && rows[0].dose == 0 then [] else [rows[0]];
      PointsAppend(head, DropBlankRows(rows[1..]));
    }
  }

  /** Committing the rows and then reading them gives the committed table. */
  lemma PointsOfCompactRows(rows: seq<Row>)
    ensures Points(CompactRows(rows)) == Compact(Points(rows))
  {
    if rows != [] {
      assert Points(rows)[1..] == Points(rows[1..]);
      PointsOfDropBlankRows(rows[1..]);
      PointsAppend([rows[0]], DropBlankRows(rows[1..]));
    }
  }
}
