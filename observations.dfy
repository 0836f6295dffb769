/** The daily state observations of the Covid Tracking Project table, the date
    rewrite of `prep_covid_data`, and the per-state selection `data_calc` makes
    (the rows of one state, ordered by date). */
module Observations {
  import opened Wrappers
  import opened Dates
  import opened DateDecoding

  /** A row of the raw table: state code, `YYYYMMDD` date, and the cumulative
      positive, death and total-test counts. */
  datatype RawObservation = RawObservation(state: string, date: int, positive: int, death: int, total: int)

  /** The same row once its date is a calendar date. */
  datatype Observation = Observation(state: string, date: Date, positive: int, death: int, total: int)

  /** The row with its `date` cell replaced by `d`; no other cell changes. */
  function WithDate(r: RawObservation, d: Date): Observation {
    Observation(r.state, d, r.positive, r.death, r.total)
  }

  /** `prep_covid_data`: map every `date` value through `date_convert`. The
      first value that does not decode raises, and nothing is returned. */
  function PrepCovidData(raw: seq<RawObservation>): (r: Result<seq<Observation>, DateError>)
    ensures r.Success? <==> forall i :: 0 <= i < |raw| ==> DateConvert(raw[i].date).Success?
    ensures r.Success? ==> (|r.value| == |raw|
                            && forall i :: 0 <= i < |raw| ==> r.value[i] == WithDate(raw[i], DateConvert(raw[i].date).value))
    ensures r.Failure? ==> exists i :: (0 <= i < |raw| && DateConvert(raw[i].date) == Failure(r.error)
                                        && forall j :: 0 <= j < i ==> DateConvert(raw[j].date).Success?)
  {
    if raw == [] then Success([])
    else
      match DateConvert(raw[0].date)
      case Failure(e) => Failure(e)
      case Success(d) =>
        match PrepCovidData(raw[1..])
        case Failure(e) =>
          assert exists i :: (0 <= i < |raw[1..]| && DateConvert(raw[1..][i].date) == Failure(e)
                              && forall j :: 0 <= j < i ==> DateConvert(raw[1..][j].date).Success?);
          var i :| 0 <= i < |raw[1..]| && DateConvert(raw[1..][i].date) == Failure(e)
                   && forall j :: 0 <= j < i ==> DateConvert(raw[1..][j].date).Success?;
          assert forall j :: 0 <= j < i + 1 ==> DateConvert(raw[j].date).Success? by {
            forall j | 0 <= j < i + 1 ensures DateConvert(raw[j].date).Success? {
              if j > 0 { assert raw[j] == raw[1..][j - 1]; }
            }
          }
          Failure(e)
        case Success(rest) => Success([WithDate(raw[0], d)] + rest)
  }

  /** `covid_data[covid_data['state'] == state]`: the rows of one state, in
      table order. */
  function FilterState(data: seq<Observation>, state: string): (r: seq<Observation>)
    ensures |r| <= |data|
    ensures forall i :: 0 <= i < |r| ==> r[i].state == state
  {
    if data == [] then []
    else
      var rest := FilterState(data[1..], state);
      if data[0].state == state then [data[0]] + rest else rest
  }

  /** The filter keeps every row of the state, as often as the table holds
      it, and no other row. */
  lemma {:induction false} FilterStateSelects(data: seq<Observation>, state: string)
    ensures forall o :: multiset(FilterState(data, state))[o] == if o.state == state then multiset(data)[o] else 0
  {
    if data != [] {
      FilterStateSelects(data[1..], state);
      assert data == [data[0]] + data[1..];
    }
  }

  /** Rows in ascending date order. */
  predicate SortedByDate(s: seq<Observation>) {
    forall i, j :: 0 <= i < j < |s| ==> NotAfter(s[i].date, s[j].date)
  }

  /** No row of `s` is dated before `d`. */
  predicate NoneBefore(d: Date, s: seq<Observation>) {
    forall i :: 0 <= i < |s| ==> NotAfter(d, s[i].date)
  }

  /** A lower bound on the dates of some rows bounds every sub-multiset. */
  lemma NoneBeforeSubset(d: Date, r: seq<Observation>, s: seq<Observation>)
    requires multiset(r) <= multiset(s) && NoneBefore(d, s)
    ensures NoneBefore(d, r)
  {
    forall i | 0 <= i < |r| ensures NotAfter(d, r[i].date) {
      assert r[i] in multiset(r);
      var j :| 0 <= j < |s| && s[j] == r[i];
    }
  }

  /** A row not after any row of a sorted sequence can go in front of it. */
  lemma ConsSorted(x: Observation, s: seq<Observation>)
    requires SortedByDate(s) && NoneBefore(x.date, s)
    ensures SortedByDate([x] + s)
  {
    var r := [x] + s;
    forall a, b | 0 <= a < b < |r| ensures NotAfter(r[a].date, r[b].date) {
      assert r[b] == s[b - 1];
      if a > 0 { assert r[a] == s[a - 1]; }
    }
  }

  /** Insert a row into rows sorted by date, ahead of the rows of the same date. */
  function InsertByDate(x: Observation, s: seq<Observation>): (r: seq<Observation>)
    requires SortedByDate(s)
    ensures SortedByDate(r)
    ensures multiset(r) == multiset(s) + multiset{x}
  {
    if s == [] then [x]
    else if NotAfter(x.date, s[0].date) then
      ConsSorted(x, s);
      [x] + s
    else
      var rest := InsertByDate(x, s[1..]);
      assert s == [s[0]] + s[1..];
      NoneBeforeSubset(s[0].date, rest, s[1..] + [x]);
      ConsSorted(s[0], rest);
      [s[0]] + rest
  }

  /** `sort_values('date')`: the same rows in ascending date order. */
  function SortByDate(s: seq<Observation>): (r: seq<Observation>)
    ensures SortedByDate(r)
    ensures multiset(r) == multiset(s)
  {
    if s == [] then []
    else
      assert s == [s[0]] + s[1..];
      InsertByDate(s[0], SortByDate(s[1..]))
  }

  /** The series `data_calc` hands to every metric of one state: its rows,
      sorted by date. */
  function StateRows(data: seq<Observation>, state: string): (r: seq<Observation>)
    ensures SortedByDate(r)
    ensures forall i :: 0 <= i < |r| ==> r[i].state == state
  {
    var f := FilterState(data, state);
    var r := SortByDate(f);
    assert forall i :: 0 <= i < |r| ==> r[i].state == state by {
      forall i | 0 <= i < |r| ensures r[i].state == state {
        assert r[i] in multiset(f);
      }
    }
    r
  }

  /** The selected series holds exactly the rows of the state, each as often
      as the table does. */
  lemma StateRowsSelects(data: seq<Observation>, state: string)
    ensures forall o :: multiset(StateRows(data, state))[o] == if o.state == state then multiset(data)[o] else 0
  {
    FilterStateSelects(data, state);
  }
}
