/** The growth-curve table of `State_Data_Generator`: one column per state and
    one row per relative day 1..100 since the state's onset. A column holds the
    state's cumulative positives from its onset date on, optionally per million
    people; after the batch run, rows with no value are dropped and the
    remaining holes are marked with the empty string. */
module Curves {
  import opened Wrappers
  import opened Dates
  import opened Observations
  import opened Metrics

  /** The table has rows for the relative days 1 .. CurveDays. */
  const CurveDays := 100

  /** A cell: a number, a hole (pandas NaN), or the `''` that replaces a hole
      once the table is finished. */
  datatype Cell = Num(value: real) | Undefined | EmptyMarker

  /** One row of the table: its relative day and a cell per state column. */
  datatype CurveRow = CurveRow(day: int, cells: map<string, Cell>)

  /** The columns in insertion order and the rows in index order. */
  datatype CurveTable = CurveTable(columns: seq<string>, rows: seq<CurveRow>)

  /** Every row has exactly one cell per column. */
  predicate Shaped(t: CurveTable) {
    forall i :: 0 <= i < |t.rows| ==> t.rows[i].cells.Keys == set s | s in t.columns
  }

  /** Every row is a relative day between 1 and 100. */
  predicate DaysInRange(t: CurveTable) {
    forall i :: 0 <= i < |t.rows| ==> 1 <= t.rows[i].day <= CurveDays
  }

  /** The rows are in strictly increasing day order. */
  predicate DaysIncreasing(rows: seq<CurveRow>) {
    forall i, j :: 0 <= i < j < |rows| ==> rows[i].day < rows[j].day
  }

  /** `DataFrame(index=range(1,101), columns=keys)`: days 1..100, every cell a
      hole. */
  function EmptyTable(keys: seq<string>): (t: CurveTable)
    ensures t.columns == keys && |t.rows| == CurveDays
    ensures forall i :: 0 <= i < CurveDays ==> t.rows[i].day == i + 1
    ensures forall i, s :: 0 <= i < CurveDays && s in t.rows[i].cells ==> t.rows[i].cells[s] == Undefined
    ensures Shaped(t) && DaysInRange(t) && DaysIncreasing(t.rows)
  {
    CurveTable(keys, seq(CurveDays, i requires 0 <= i < CurveDays => CurveRow(i + 1, map s | s in keys :: Undefined)))
  }

  /** `df[df['date'] >= start_date]`: the rows dated on or after the onset, in
      their original order. */
  function PostOnset(rows: seq<Observation>, onset: Date): (r: seq<Observation>)
    ensures forall o :: multiset(r)[o] == if NotAfter(onset, o.date) then multiset(rows)[o] else 0
    ensures forall i :: 0 <= i < |r| ==> NotAfter(onset, r[i].date)
  {
    if rows == [] then []
    else
      var rest := PostOnset(rows[1..], onset);
      assert rows == [rows[0]] + rows[1..];
      if NotAfter(onset, rows[0].date) then [rows[0]] + rest else rest
  }

  /** Filtering rows in date order leaves them in date order. */
  lemma {:induction false} PostOnsetSorted(rows: seq<Observation>, onset: Date)
    requires SortedByDate(rows)
    ensures SortedByDate(PostOnset(rows, onset))
  {
    if rows != [] {
      var rest := PostOnset(rows[1..], onset);
      PostOnsetSorted(rows[1..], onset);
      assert rows == [rows[0]] + rows[1..];
      if NotAfter(onset, rows[0].date) {
        NoneBeforeSubset(rows[0].date, rest, rows[1..]);
        ConsSorted(rows[0], rest);
      }
    }
  }

  /** Sorting rows already in date order changes nothing. */
  lemma {:induction false} SortByDateSorted(s: seq<Observation>)
    requires SortedByDate(s)
    ensures SortByDate(s) == s
  {
    if s != [] {
      SortByDateSorted(s[1..]);
      assert s == [s[0]] + s[1..];
    }
  }

  /** `state_100 /= (population / 1000000.0)`: the count per million people,
      a hole for a zero population. */
  function Adjusted(count: int, population: int): (c: Cell)
    ensures c.Undefined? <==> population == 0
    ensures c.Num? ==> c.value * population as real == (count * PerMillion) as real
    ensures c != EmptyMarker
  {
    match PerMillionOf(count, population)
    case None => Undefined
    case Some(v) => Num(v)
  }

  /** `df[df['date'] >= start_date].sort_values('date')`: the rows that make
      up a state's curve, in date order. */
  function CurveRows(rows: seq<Observation>, onset: Date): (r: seq<Observation>)
    ensures SortedByDate(r)
    ensures forall i :: 0 <= i < |r| ==> NotAfter(onset, r[i].date)
    ensures forall o :: multiset(r)[o] == if NotAfter(onset, o.date) then multiset(rows)[o] else 0
  {
    SortByDate(PostOnset(rows, onset))
  }

  /** The curve of one state, day 1 first: the positives of the given rows,
      each divided by the population in millions when `popAdj` holds. */
  function CurveValues(post: seq<Observation>, population: int, popAdj: bool): seq<Cell> {
    seq(|post|, k requires 0 <= k < |post| =>
      if popAdj then Adjusted(post[k].positive, population) else Num(post[k].positive as real))
  }

  /** Entry k of a curve comes from row k of its rows. */
  lemma CurveValuesAt(post: seq<Observation>, population: int, popAdj: bool, k: int)
    requires 0 <= k < |post|
    ensures var cells := CurveValues(post, population, popAdj);
      && |cells| == |post|
      && cells[k] == if popAdj then Adjusted(post[k].positive, population) else Num(post[k].positive as real)
  {
  }

  /** The curve `growth_curve_calc` builds for one state with an onset. */
  function CurveCells(rows: seq<Observation>, onset: Date, population: int, popAdj: bool): (r: seq<Cell>)
    ensures |r| == |CurveRows(rows, onset)|
  {
    CurveValues(CurveRows(rows, onset), population, popAdj)
  }

  /** The cell the series `vals`, re-indexed from 1, puts on a row of `day`:
      index alignment leaves a hole where the series has no entry. */
  function DayCell(vals: seq<Cell>, day: int): Cell {
    if 1 <= day <= |vals| then vals[day - 1] else Undefined
  }

  /** `growth_curves[state] = state_100`: the column `state` (added at the end
      when new) takes the series aligned on the day index; the rows, their
      days and the other columns stay as they are. */
  function SetColumn(t: CurveTable, state: string, vals: seq<Cell>): (r: CurveTable)
    ensures r.columns == if state in t.columns then t.columns else t.columns + [state]
    ensures |r.rows| == |t.rows|
    ensures forall i :: 0 <= i < |t.rows| ==> r.rows[i].day == t.rows[i].day
    ensures forall i, s :: 0 <= i < |t.rows| && s != state ==>
      (s in r.rows[i].cells <==> s in t.rows[i].cells)
      && (s in t.rows[i].cells ==> r.rows[i].cells[s] == t.rows[i].cells[s])
    ensures forall i :: 0 <= i < |t.rows| ==>
      state in r.rows[i].cells && r.rows[i].cells[state] == DayCell(vals, t.rows[i].day)
    ensures Shaped(t) ==> Shaped(r)
  {
    CurveTable(if state in t.columns then t.columns else t.columns + [state],
               seq(|t.rows|, i requires 0 <= i < |t.rows| =>
                 CurveRow(t.rows[i].day, t.rows[i].cells[state := DayCell(vals, t.rows[i].day)])))
  }

  /** `growth_curve_calc` for one state: nothing without an onset, otherwise
      the state's curve goes into its column. */
  function StateCurve(t: CurveTable, state: string, rows: seq<Observation>, onset: Option<Date>,
                      population: int, popAdj: bool): CurveTable
  {
    match onset
    case None => t
    case Some(d) => SetColumn(t, state, CurveCells(rows, d, population, popAdj))
  }

  /** Day k of the curve is the k-th row on or after the onset in date order
      (its positives, per million when adjusted); days past the last such row
      are holes, and rows after the 100th never reach the table. */
  lemma CurveDay(keys: seq<string>, state: string, rows: seq<Observation>, onset: Date,
                 population: int, popAdj: bool, k: int)
    requires 1 <= k <= CurveDays
    ensures var post := CurveRows(rows, onset);
      var t := SetColumn(EmptyTable(keys), state, CurveCells(rows, onset, population, popAdj));
      && |t.rows| == CurveDays && t.rows[k - 1].day == k && state in t.rows[k - 1].cells
      && (k <= |post| && !popAdj ==> t.rows[k - 1].cells[state] == Num(post[k - 1].positive as real))
      && (k <= |post| && popAdj ==> t.rows[k - 1].cells[state] == Adjusted(post[k - 1].positive, population))
      && (k > |post| ==> t.rows[k - 1].cells[state] == Undefined)
  {
    var post := CurveRows(rows, onset);
    if k <= |post| {
      CurveValuesAt(post, population, popAdj, k - 1);
    }
  }

  /** Rows of one state never repeat a date. */
  predicate DistinctDates(rows: seq<Observation>) {
    forall i, j :: 0 <= i < j < |rows| ==> rows[i].date != rows[j].date
  }

  /** With one row per date, the first row of a curve is the onset row. */
  lemma FirstCurveRow(rows: seq<Observation>, onset: Date)
    requires DistinctDates(rows)
    requires Onset(rows) == Some(onset)
    ensures var post := CurveRows(rows, onset);
      |post| > 0 && post[0].date == onset && post[0].positive >= OutbreakThreshold
  {
    var i :| 0 <= i < |rows| && rows[i].positive >= OutbreakThreshold && rows[i].date == onset;
    CurveRowsHead(rows, onset, rows[i]);
    SameDateSameRow(rows, CurveRows(rows, onset)[0], rows[i]);
  }

  /** A row on or after the onset puts a first row into the curve, and that
      first row is a row of the state not dated after it. */
  lemma CurveRowsHead(rows: seq<Observation>, onset: Date, x: Observation)
    requires x in rows && NotAfter(onset, x.date)
    ensures var s := CurveRows(rows, onset);
      |s| > 0 && s[0] in rows && NotAfter(s[0].date, x.date)
  {
    var s := CurveRows(rows, onset);
    assert multiset(s)[x] == multiset(rows)[x] > 0;
    assert x in s;
    var j :| 0 <= j < |s| && s[j] == x;
    if j > 0 { assert NotAfter(s[0].date, s[j].date); }
    assert multiset(rows)[s[0]] == multiset(s)[s[0]] > 0;
  }

  /** Two rows of a state with one row per date that share a date are the
      same row. */
  lemma SameDateSameRow(rows: seq<Observation>, x: Observation, y: Observation)
    requires DistinctDates(rows)
    requires x in rows && y in rows && x.date == y.date
    ensures x == y
  {
    var m :| 0 <= m < |rows| && rows[m] == x;
    var n :| 0 <= n < |rows| && rows[n] == y;
    assert m == n;
  }

  /** With one row per date, an unadjusted curve starts on the onset row, so
      its day-1 value is at least 100. */
  lemma FirstDayAtLeastThreshold(rows: seq<Observation>, population: int)
    requires DistinctDates(rows)
    requires Onset(rows).Some?
    ensures var cells := CurveCells(rows, Onset(rows).value, population, false);
      |cells| > 0 && cells[0].Num? && cells[0].value >= OutbreakThreshold as real
  {
    FirstCurveRow(rows, Onset(rows).value);
  }

  /** For rows already in date order, the curve is the post-onset rows in
      their own order: day k holds the k-th of them. */
  lemma CurveOfSortedRows(rows: seq<Observation>, onset: Date, population: int, popAdj: bool, k: int)
    requires SortedByDate(rows)
    requires 0 <= k < |PostOnset(rows, onset)|
    ensures var post := PostOnset(rows, onset);
      var cells := CurveCells(rows, onset, population, popAdj);
      && |cells| == |post|
      && cells[k] == if popAdj then Adjusted(post[k].positive, population) else Num(post[k].positive as real)
  {
    PostOnsetSorted(rows, onset);
    SortByDateSorted(PostOnset(rows, onset));
  }

  // ------------------------------------------------ dropna / fillna('')

  /** `fillna('')` on one cell. The marker is not a number, so it is never
      confused with a count of 0. */
  function Mark(c: Cell): (m: Cell)
    ensures m != Undefined
    ensures c != Undefined ==> m == c
    ensures c == Undefined ==> m == EmptyMarker && m != Num(0.0)
  {
    if c == Undefined then EmptyMarker else c
  }

  /** A row with at least one cell that is not a hole. */
  predicate HasValue(r: CurveRow) {
    exists s :: s in r.cells && r.cells[s] != Undefined
  }

  /** `fillna('')` on one row. */
  function MarkRow(r: CurveRow): CurveRow {
    CurveRow(r.day, map s | s in r.cells :: Mark(r.cells[s]))
  }

  /** `dropna(how='all').fillna('')` on the rows: a row all of whose cells are
      holes goes; every other row stays, with its holes marked. */
  function DropEmptyRows(rows: seq<CurveRow>): (r: seq<CurveRow>)
    ensures |r| <= |rows|
    ensures forall j, s :: 0 <= j < |r| && s in r[j].cells ==> r[j].cells[s] != Undefined
  {
    if rows == [] then []
    else
      var rest := DropEmptyRows(rows[1..]);
      if HasValue(rows[0]) then [MarkRow(rows[0])] + rest else rest
  }

  /** Every row that stays is a row that had a value, with its holes
      marked. */
  lemma {:induction false} DropEmptyRowsSound(rows: seq<CurveRow>, x: CurveRow)
    requires x in DropEmptyRows(rows)
    ensures exists i :: 0 <= i < |rows| && HasValue(rows[i]) && x == MarkRow(rows[i])
  {
    if x != MarkRow(rows[0]) || !HasValue(rows[0]) {
      DropEmptyRowsSound(rows[1..], x);
      var i :| 0 <= i < |rows[1..]| && HasValue(rows[1..][i]) && x == MarkRow(rows[1..][i]);
      assert rows[1..][i] == rows[i + 1];
    }
  }

  /** Every row that had a value stays, with its holes marked. */
  lemma {:induction false} DropEmptyRowsComplete(rows: seq<CurveRow>, i: int)
    requires 0 <= i < |rows| && HasValue(rows[i])
    ensures MarkRow(rows[i]) in DropEmptyRows(rows)
  {
    if i > 0 {
      DropEmptyRowsComplete(rows[1..], i - 1);
    }
  }

  /** Every row is dated after day d. */
  predicate DaysAbove(d: int, rows: seq<CurveRow>) {
    forall i :: 0 <= i < |rows| ==> d < rows[i].day
  }

  /** Dropping rows keeps a lower bound on the days. */
  lemma {:induction false} DropEmptyRowsAbove(rows: seq<CurveRow>, d: int)
    requires DaysAbove(d, rows)
    ensures DaysAbove(d, DropEmptyRows(rows))
  {
    if rows != [] {
      DropEmptyRowsAbove(rows[1..], d);
    }
  }

  /** Dropping rows keeps the others in their order. */
  lemma {:induction false} DropEmptyRowsOrder(rows: seq<CurveRow>)
    requires DaysIncreasing(rows)
    ensures DaysIncreasing(DropEmptyRows(rows))
  {
    if rows != [] {
      var rest := DropEmptyRows(rows[1..]);
      DropEmptyRowsOrder(rows[1..]);
      DropEmptyRowsAbove(rows[1..], rows[0].day);
      if HasValue(rows[0]) {
        var r := [MarkRow(rows[0])] + rest;
        forall a, b | 0 <= a < b < |r| ensures r[a].day < r[b].day {
          assert r[b] == rest[b - 1];
          if a > 0 { assert r[a] == rest[a - 1]; }
        }
      }
    }
  }

  /** The table as `data_calc` leaves it. */
  function Finalize(t: CurveTable): (r: CurveTable)
    ensures r.columns == t.columns
    ensures forall i, s :: 0 <= i < |r.rows| && s in r.rows[i].cells ==> r.rows[i].cells[s] != Undefined
  {
    CurveTable(t.columns, DropEmptyRows(t.rows))
  }

  /** The finished table still has one cell per column in every row, and
      only days 1..100. */
  lemma FinalizeShape(t: CurveTable)
    requires Shaped(t) && DaysInRange(t)
    ensures Shaped(Finalize(t)) && DaysInRange(Finalize(t))
  {
    var r := Finalize(t).rows;
    forall j | 0 <= j < |r|
      ensures r[j].cells.Keys == (set s | s in t.columns) && 1 <= r[j].day <= CurveDays
    {
      DropEmptyRowsSound(t.rows, r[j]);
    }
  }

  /** A day survives the finishing step exactly when its row had a value, and
      the surviving days keep their order. */
  lemma FinalizeKeepsDay(t: CurveTable, day: int)
    requires DaysIncreasing(t.rows)
    ensures DaysIncreasing(Finalize(t).rows)
    ensures (exists i :: 0 <= i < |t.rows| && t.rows[i].day == day && HasValue(t.rows[i]))
        <==> (exists j :: 0 <= j < |Finalize(t).rows| && Finalize(t).rows[j].day == day)
  {
    DropEmptyRowsOrder(t.rows);
    var r := Finalize(t).rows;
    if i :| 0 <= i < |t.rows| && t.rows[i].day == day && HasValue(t.rows[i]) {
      DropEmptyRowsComplete(t.rows, i);
      assert MarkRow(t.rows[i]) in r;
    }
    if j :| 0 <= j < |r| && r[j].day == day {
      DropEmptyRowsSound(t.rows, r[j]);
    }
  }

  /** The growth-curve table after the per-state steps for `states`, in
      order, where `curves` holds the curve of every state that has an onset
      (a state without one leaves the table alone). */
  function CurvesAfter(t: CurveTable, curves: map<string, seq<Cell>>, states: seq<string>): (r: CurveTable)
    ensures |r.rows| == |t.rows|
    ensures forall i :: 0 <= i < |t.rows| ==> r.rows[i].day == t.rows[i].day
  {
    if states == [] then t
    else
      var n := |states| - 1;
      var prev := CurvesAfter(t, curves, states[..n]);
      if states[n] in curves then SetColumn(prev, states[n], curves[states[n]]) else prev
  }

  /** After the per-state steps, the column of a processed state with a curve
      holds that curve on the day index, and every other column is as it
      was. */
  lemma {:induction false} CurvesAfterColumn(t: CurveTable, curves: map<string, seq<Cell>>, states: seq<string>,
                                             i: int, s: string)
    requires 0 <= i < |t.rows|
    ensures var r := CurvesAfter(t, curves, states);
      && (s in states && s in curves ==>
            s in r.rows[i].cells && r.rows[i].cells[s] == DayCell(curves[s], t.rows[i].day))
      && (!(s in states && s in curves) ==>
            (s in r.rows[i].cells <==> s in t.rows[i].cells)
            && (s in t.rows[i].cells ==> r.rows[i].cells[s] == t.rows[i].cells[s]))
  {
    if states != [] {
      var n := |states| - 1;
      CurvesAfterColumn(t, curves, states[..n], i, s);
      LastMember(states, s);
    }
  }

  /** The per-state steps keep the table's shape when every processed state
      already has a column. */
  lemma {:induction false} CurvesAfterShaped(t: CurveTable, curves: map<string, seq<Cell>>, states: seq<string>)
    requires Shaped(t)
    requires forall k :: 0 <= k < |states| ==> states[k] in t.columns
    ensures Shaped(CurvesAfter(t, curves, states)) && CurvesAfter(t, curves, states).columns == t.columns
  {
    if states != [] {
      CurvesAfterShaped(t, curves, states[..|states| - 1]);
    }
  }

  /** Membership in a non-empty sequence: in the part before the last
      element, or the last element. */
  lemma LastMember(states: seq<string>, s: string)
    requires states != []
    ensures s in states <==> s in states[..|states| - 1] || s == states[|states| - 1]
  {
    assert states == states[..|states| - 1] + [states[|states| - 1]];
  }
}
