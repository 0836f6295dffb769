/** `State_Data_Generator`: per-state result dictionaries filled by the batch
    driver `data_calc`, and the snapshot table and urgency rule of
    `generate_dot_plot`. `today` is a parameter instead of a clock read. */
module Tracker {
  import opened Wrappers
  import opened Dates
  import opened Population
  import opened Observations
  import Metrics
  import opened Curves

  // ------------------------------------------------------ urgency rule

  /** The marker colours of the dot plot, most urgent first. */
  datatype Colour = Red | Orange | Yellow | GreenYellow | Green

  /** The colour buckets by days since the onset: 21 and more, 14..20,
      7..13, 1..6, and everything below 1. */
  function Urgency(days: int): (c: Colour)
    ensures c == Red <==> days >= 21
    ensures c == Orange <==> 14 <= days < 21
    ensures c == Yellow <==> 7 <= days < 14
    ensures c == GreenYellow <==> 1 <= days < 7
    ensures c == Green <==> days < 1
  {
    if days >= 21 then Red
    else if 14 <= days then Orange
    else if 7 <= days then Yellow
    else if 1 <= days then GreenYellow
    else Green
  }

  /** Urgency as a number: 0 for green up to 4 for red. */
  function Rank(c: Colour): (n: int)
    ensures 0 <= n <= 4
  {
    match c
    case Green => 0
    case GreenYellow => 1
    case Yellow => 2
    case Orange => 3
    case Red => 4
  }

  /** More days since the onset never make a marker less urgent. */
  lemma UrgencyMonotone(days: int, later: int)
    requires days <= later
    ensures Rank(Urgency(days)) <= Rank(Urgency(later))
  {
  }

  /** `days_since ** 2`: the marker area. */
  function MarkerSize(days: int): (s: int)
    ensures s >= 0
    ensures s == 0 <==> days == 0
    ensures days >= 1 ==> s >= days
  {
    Square(days);
    days * days
  }

  lemma Square(n: int)
    ensures n * n >= 0 && (n * n == 0 <==> n == 0) && (n >= 1 ==> n * n >= n)
  {
    if n >= 1 {
      assert n * n == n * (n - 1) + n;
      assert n * (n - 1) >= 0;
    } else if n <= -1 {
      assert n * n == (-n) * (-n);
      assert (-n) * (-n) >= -n;
    }
  }

  // ---------------------------------------------------------- snapshot

  /** Which metric a snapshot error is about. */
  datatype Axis = X | Y

  /** The errors building the snapshot table raises: a state without a days
      count (KeyError), a metric dictionary without the state (KeyError), or
      an empty series (IndexError of `iloc[-1]`). */
  datatype SnapshotError =
    | MissingDays(state: string)
    | MissingSeries(axis: Axis, state: string)
    | EmptySeries(axis: Axis, state: string)

  /** One row of the snapshot table with its marker. */
  datatype SnapshotRow = SnapshotRow(state: string, days: int, x: Option<real>, y: Option<real>,
                                     colour: Colour, size: int)

  /** The state has a non-empty series in the dictionary. */
  predicate HasSeries(v: map<string, seq<Metrics.Point>>, state: string) {
    state in v && |v[state]| > 0
  }

  /** `series.iloc[-1]`: the value of the last entry, absent or not. */
  function LastValue(s: seq<Metrics.Point>): Option<real>
    requires |s| > 0
  {
    s[|s| - 1].value
  }

  /** The position of the first state that `ok` rejects. */
  function FirstFailing(states: seq<string>, ok: string -> bool): (r: Option<nat>)
    ensures r.None? <==> forall i :: 0 <= i < |states| ==> ok(states[i])
    ensures r.Some? ==> (r.value < |states| && !ok(states[r.value])
                         && forall j :: 0 <= j < r.value ==> ok(states[j]))
  {
    if states == [] then None
    else if !ok(states[0]) then Some(0)
    else match FirstFailing(states[1..], ok)
      case None => None
      case Some(i) => Some(i + 1)
  }

  /** The error for a state without a usable series on `axis`. */
  function SeriesError(v: map<string, seq<Metrics.Point>>, axis: Axis, state: string): SnapshotError {
    if state !in v then MissingSeries(axis, state) else EmptySeries(axis, state)
  }

  /** The table `generate_dot_plot` prints and plots: one row per listed state
      with its days since the onset, the last entry of each chosen series,
      and the marker colour and size. The days column is filled first, then
      the x column, then the y column, so the first failure in that order is
      the one raised. */
  function Snapshot(days: map<string, int>, xVar: map<string, seq<Metrics.Point>>,
                    yVar: map<string, seq<Metrics.Point>>, states: seq<string>): (r: Result<seq<SnapshotRow>, SnapshotError>)
    ensures r.Success? <==> forall i :: 0 <= i < |states| ==>
      states[i] in days && HasSeries(xVar, states[i]) && HasSeries(yVar, states[i])
    ensures r.Success? ==> |r.value| == |states| && forall i :: 0 <= i < |states| ==>
      var s := states[i];
      && r.value[i].state == s && r.value[i].days == days[s]
      && r.value[i].x == xVar[s][|xVar[s]| - 1].value && r.value[i].y == yVar[s][|yVar[s]| - 1].value
      && r.value[i].colour == Urgency(days[s]) && r.value[i].size == days[s] * days[s]
    ensures r.Failure? ==> (exists i ::
      0 <= i < |states| && r.error.state == states[i] &&
      ( (r.error.MissingDays? && states[i] !in days
         && forall j :: 0 <= j < i ==> states[j] in days)
      || (!r.error.MissingDays? && r.error.axis == X && (forall j :: 0 <= j < |states| ==> states[j] in days)
          && !HasSeries(xVar, states[i]) && (r.error.MissingSeries? <==> states[i] !in xVar)
          && forall j :: 0 <= j < i ==> HasSeries(xVar, states[j]))
      || (!r.error.MissingDays? && r.error.axis == Y
          && (forall j :: 0 <= j < |states| ==> states[j] in days && HasSeries(xVar, states[j]))
          && !HasSeries(yVar, states[i]) && (r.error.MissingSeries? <==> states[i] !in yVar)
          && forall j :: 0 <= j < i ==> HasSeries(yVar, states[j]))))
  {
    match FirstFailing(states, s => s in days)
    case Some(i) => Failure(MissingDays(states[i]))
    case None =>
      match FirstFailing(states, s => HasSeries(xVar, s))
      case Some(i) => Failure(SeriesError(xVar, X, states[i]))
      case None =>
        match FirstFailing(states, s => HasSeries(yVar, s))
        case Some(i) => Failure(SeriesError(yVar, Y, states[i]))
        case None =>
          Success(seq(|states|, i requires 0 <= i < |states| =>
            var s := states[i];
            SnapshotRow(s, days[s], LastValue(xVar[s]), LastValue(yVar[s]), Urgency(days[s]), MarkerSize(days[s]))))
  }

  // ---------------------------------------------------------- generator

  /** The seven result dictionaries of the generator, as one value. */
  datatype Records = Records(onsets: map<string, Option<Date>>, days: map<string, int>,
                             testRates: map<string, seq<Metrics.Point>>,
                             growthRates: map<string, seq<Metrics.Point>>,
                             positiveRates: map<string, seq<Metrics.Point>>,
                             deathRates: map<string, seq<Metrics.Point>>,
                             curves: CurveTable)

  /** What one pass of the `data_calc` loop computes for one state: its
      onset, the days since it, its four series, and its curve column when it
      has an onset. */
  datatype StateValues = StateValues(onset: Option<Date>, days: int, testRate: seq<Metrics.Point>,
                                     growthRate: seq<Metrics.Point>, positiveRate: seq<Metrics.Point>,
                                     deathRate: seq<Metrics.Point>, curve: Option<seq<Cell>>)

  /** One pass: every dictionary takes the state's entry, and the state's
      curve, if any, becomes its column. */
  function Step(r: Records, state: string, v: StateValues): Records {
    Records(r.onsets[state := v.onset], r.days[state := v.days],
            r.testRates[state := v.testRate], r.growthRates[state := v.growthRate],
            r.positiveRates[state := v.positiveRate], r.deathRates[state := v.deathRate],
            if v.curve.Some? then SetColumn(r.curves, state, v.curve.value) else r.curves)
  }

  /** One pass for each of `states`, in order, with the values in `vals`. */
  function Steps(r: Records, states: seq<string>, vals: map<string, StateValues>): Records
    requires forall k :: 0 <= k < |states| ==> states[k] in vals
  {
    if states == [] then r
    else
      var n := |states| - 1;
      Step(Steps(r, states[..n], vals), states[n], vals[states[n]])
  }

  /** The passes for one more state are one more pass. */
  lemma StepsSnoc(r: Records, states: seq<string>, i: int, vals: map<string, StateValues>)
    requires 0 <= i < |states|
    requires forall k :: 0 <= k < |states| ==> states[k] in vals
    ensures Steps(r, states[..i + 1], vals) == Step(Steps(r, states[..i], vals), states[i], vals[states[i]])
  {
    assert states[..i + 1][..i] == states[..i];
  }

  /** After the passes for `states`, each dictionary maps every listed state
      to that state's value. */
  lemma {:induction false} StepsListed(r: Records, states: seq<string>, vals: map<string, StateValues>, s: string)
    requires forall k :: 0 <= k < |states| ==> states[k] in vals
    requires s in states
    ensures var q := Steps(r, states, vals);
      && s in q.onsets && q.onsets[s] == vals[s].onset
      && s in q.days && q.days[s] == vals[s].days
      && s in q.testRates && q.testRates[s] == vals[s].testRate
      && s in q.growthRates && q.growthRates[s] == vals[s].growthRate
      && s in q.positiveRates && q.positiveRates[s] == vals[s].positiveRate
      && s in q.deathRates && q.deathRates[s] == vals[s].deathRate
    decreases |states|
  {
    var n := |states| - 1;
    if states[n] != s {
      assert s in states[..n] by {
        var k :| 0 <= k < |states| && states[k] == s;
        assert states[..n][k] == s;
      }
      StepsListed(r, states[..n], vals, s);
    }
  }

  /** The passes for `states` keep every entry of a state not listed. */
  lemma {:induction false} StepsUnlisted(r: Records, states: seq<string>, vals: map<string, StateValues>, s: string)
    requires forall k :: 0 <= k < |states| ==> states[k] in vals
    requires s !in states
    ensures var q := Steps(r, states, vals);
      && (s in q.onsets <==> s in r.onsets) && (s in r.onsets ==> q.onsets[s] == r.onsets[s])
      && (s in q.days <==> s in r.days) && (s in r.days ==> q.days[s] == r.days[s])
      && (s in q.testRates <==> s in r.testRates) && (s in r.testRates ==> q.testRates[s] == r.testRates[s])
      && (s in q.growthRates <==> s in r.growthRates) && (s in r.growthRates ==> q.growthRates[s] == r.growthRates[s])
      && (s in q.positiveRates <==> s in r.positiveRates)
      && (s in r.positiveRates ==> q.positiveRates[s] == r.positiveRates[s])
      && (s in q.deathRates <==> s in r.deathRates) && (s in r.deathRates ==> q.deathRates[s] == r.deathRates[s])
    decreases |states|
  {
    if states != [] {
      var n := |states| - 1;
      assert s !in states[..n];
      StepsUnlisted(r, states[..n], vals, s);
    }
  }

  /** The snapshot of test rate against positivity over the states just
      processed: it succeeds exactly when each state's two series are
      non-empty, and colours each state by its recorded days. */
  lemma SnapshotAfterSteps(r: Records, states: seq<string>, vals: map<string, StateValues>)
    requires forall k :: 0 <= k < |states| ==> states[k] in vals
    ensures var q := Finished(Steps(r, states, vals));
      var sn := Snapshot(q.days, q.testRates, q.positiveRates, states);
      && (sn.Success? <==> forall i :: 0 <= i < |states| ==>
            |vals[states[i]].testRate| > 0 && |vals[states[i]].positiveRate| > 0)
      && (sn.Success? ==> forall i :: 0 <= i < |sn.value| ==> sn.value[i].colour == Urgency(vals[states[i]].days))
  {
    var q := Finished(Steps(r, states, vals));
    forall i | 0 <= i < |states|
      ensures states[i] in q.days && q.days[states[i]] == vals[states[i]].days
      ensures states[i] in q.testRates && q.testRates[states[i]] == vals[states[i]].testRate
      ensures states[i] in q.positiveRates && q.positiveRates[states[i]] == vals[states[i]].positiveRate
    {
      StepsListed(r, states, vals, states[i]);
    }
  }

  /** The curves of the states that have one. */
  function CurvesOf(vals: map<string, StateValues>): map<string, seq<Cell>> {
    map s | s in vals && vals[s].curve.Some? :: vals[s].curve.value
  }

  /** The curve table after the passes is the curve fold over the same
      states. */
  lemma {:induction false} StepsCurves(r: Records, states: seq<string>, vals: map<string, StateValues>)
    requires forall k :: 0 <= k < |states| ==> states[k] in vals
    ensures Steps(r, states, vals).curves == CurvesAfter(r.curves, CurvesOf(vals), states)
    decreases |states|
  {
    if states != [] {
      var n := |states| - 1;
      StepsCurves(r, states[..n], vals);
    }
  }

  /** The end of `data_calc`: empty curve rows dropped, holes marked. */
  function Finished(r: Records): Records {
    r.(curves := Finalize(r.curves))
  }

  class StateDataGenerator {
    /** The registry of postal codes and populations. */
    const statePop: PopDict
    /** The observation table, dates already decoded. */
    const covidData: seq<Observation>
    /** Whether the growth curves are divided by the population in millions. */
    const popAdj: bool

    var stateOutbreakDate: map<string, Option<Date>>
    var daysSince100: map<string, int>
    var stateTestRate: map<string, seq<Metrics.Point>>
    var stateGrowthRate: map<string, seq<Metrics.Point>>
    var statePositiveRate: map<string, seq<Metrics.Point>>
    var stateDeathRate: map<string, seq<Metrics.Point>>
    var growthCurves: CurveTable

    /** The registry is a dictionary: each code once, every code mapped. */
    predicate Valid() {
      statePop.WellFormed()
    }

    /** `__init__`: empty result dictionaries and a growth-curve table with
        days 1..100 and a hole in every cell of every registry column. */
    constructor(statePopulation: PopDict, covidProjectData: seq<Observation>, popAdj: bool)
      requires statePopulation.WellFormed()
      ensures Valid()
      ensures statePop == statePopulation && covidData == covidProjectData && this.popAdj == popAdj
      ensures stateOutbreakDate == map[] && daysSince100 == map[]
      ensures stateTestRate == map[] && stateGrowthRate == map[] && statePositiveRate == map[] && stateDeathRate == map[]
      ensures growthCurves == EmptyTable(statePopulation.codes)
    {
      statePop := statePopulation;
      covidData := covidProjectData;
      this.popAdj := popAdj;
      stateOutbreakDate := map[];
      daysSince100 := map[];
      stateTestRate := map[];
      stateGrowthRate := map[];
      statePositiveRate := map[];
      stateDeathRate := map[];
      growthCurves := EmptyTable(statePopulation.codes);
    }

    /** The registry population of a state; 0 for a state the registry lacks
        (only read where the source reads the registry). */
    function PopulationOf(state: string): int {
      if state in statePop.pop then statePop.pop[state] else 0
    }

    /** The rows `data_calc` hands to every step for one state. */
    function RowsOf(state: string): seq<Observation> {
      StateRows(covidData, state)
    }

    /** `outbreak_date(df, state)`: record the onset and the days since it. */
    method OutbreakDate(df: seq<Observation>, state: string, today: Date)
      modifies this`stateOutbreakDate, this`daysSince100
      ensures stateOutbreakDate == old(stateOutbreakDate)[state := Metrics.Onset(df)]
      ensures daysSince100 == old(daysSince100)[state := Metrics.DaysSinceOnset(Metrics.Onset(df), today)]
    {
      var onset := Metrics.Onset(df);
      stateOutbreakDate := stateOutbreakDate[state := onset];
      daysSince100 := daysSince100[state := Metrics.DaysSinceOnset(onset, today)];
    }

    /** `test_rate(df, state)`; the state must be in the registry. */
    method TestRate(df: seq<Observation>, state: string)
      requires state in statePop.pop
      modifies this`stateTestRate
      ensures stateTestRate == old(stateTestRate)[state := Metrics.TestRate(df, statePop.pop[state])]
    {
      stateTestRate := stateTestRate[state := Metrics.TestRate(df, statePop.pop[state])];
    }

    /** `growth_rate(df, state)`. */
    method GrowthRate(df: seq<Observation>, state: string)
      modifies this`stateGrowthRate
      ensures stateGrowthRate == old(stateGrowthRate)[state := Metrics.GrowthRate(df)]
    {
      stateGrowthRate := stateGrowthRate[state := Metrics.GrowthRate(df)];
    }

    /** `positive_rate(df, state)`. */
    method PositiveRate(df: seq<Observation>, state: string)
      modifies this`statePositiveRate
      ensures statePositiveRate == old(statePositiveRate)[state := Metrics.PositiveRate(df)]
    {
      statePositiveRate := statePositiveRate[state := Metrics.PositiveRate(df)];
    }

    /** `death_rate(df, state)`. */
    method DeathRate(df: seq<Observation>, state: string)
      modifies this`stateDeathRate
      ensures stateDeathRate == old(stateDeathRate)[state := Metrics.DeathRate(df)]
    {
      stateDeathRate := stateDeathRate[state := Metrics.DeathRate(df)];
    }

    /** `growth_curve_calc(df, state, pop_adj)`: the state's recorded onset
        decides; the registry is read only for an adjusted curve. */
    method GrowthCurveCalc(df: seq<Observation>, state: string, popAdj: bool)
      requires state in stateOutbreakDate
      requires popAdj ==> state in statePop.pop
      modifies this`growthCurves
      ensures growthCurves == StateCurve(old(growthCurves), state, df, stateOutbreakDate[state], PopulationOf(state), popAdj)
    {
      match stateOutbreakDate[state]
      case None =>
      case Some(start) =>
        growthCurves := SetColumn(growthCurves, state, CurveCells(df, start, PopulationOf(state), popAdj));
    }

    /** The result dictionaries. */
    function Recorded(): Records
      reads this
    {
      Records(stateOutbreakDate, daysSince100, stateTestRate, stateGrowthRate,
              statePositiveRate, stateDeathRate, growthCurves)
    }

    /** What the per-state steps compute for `state`, on its rows sorted by
        date: `outbreak_date`, `test_rate`, the three window rates, and the
        curve `growth_curve_calc` writes when there is an onset. */
    function ValuesOf(state: string, today: Date): StateValues {
      var rows := RowsOf(state);
      var onset := Metrics.Onset(rows);
      StateValues(onset, Metrics.DaysSinceOnset(onset, today), Metrics.TestRate(rows, PopulationOf(state)),
                  Metrics.GrowthRate(rows), Metrics.PositiveRate(rows), Metrics.DeathRate(rows),
                  if onset.Some? then Some(CurveCells(rows, onset.value, PopulationOf(state), popAdj)) else None)
    }

    /** The values of every registry state. */
    function AllValues(today: Date): map<string, StateValues> {
      map s | s in statePop.pop :: ValuesOf(s, today)
    }

    /** Every registry state has values, and only those. */
    lemma AllValuesKeys(today: Date)
      ensures AllValues(today).Keys == statePop.pop.Keys
    {
    }

    /** One pass of the `data_calc` loop, as the source runs it: the state's
        rows sorted by date, then the six per-state steps on them. */
    method CalcState(state: string, today: Date)
      requires state in statePop.pop
      modifies this`stateOutbreakDate, this`daysSince100, this`stateTestRate, this`stateGrowthRate,
               this`statePositiveRate, this`stateDeathRate, this`growthCurves
      ensures Recorded() == Step(old(Recorded()), state, ValuesOf(state, today))
    {
      var subset := RowsOf(state);
      OutbreakDate(subset, state, today);
      TestRate(subset, state);
      GrowthRate(subset, state);
      PositiveRate(subset, state);
      DeathRate(subset, state);
      GrowthCurveCalc(subset, state, popAdj);
    }

    /** `data_calc(today)`: one pass for every registry state, in registry
        order; then the empty rows of the curve table go and its holes are
        marked. */
    method DataCalc(today: Date)
      requires Valid()
      modifies this`stateOutbreakDate, this`daysSince100, this`stateTestRate, this`stateGrowthRate,
               this`statePositiveRate, this`stateDeathRate, this`growthCurves
      ensures Recorded() == Finished(Steps(old(Recorded()), statePop.codes, AllValues(today)))
    {
      var codes := statePop.codes;
      ghost var vals := AllValues(today);
      AllValuesKeys(today);
      var i := 0;
      while i < |codes|
        invariant 0 <= i <= |codes|
        invariant Recorded() == Steps(old(Recorded()), codes[..i], vals)
      {
        assert vals[codes[i]] == ValuesOf(codes[i], today);
        CalcState(codes[i], today);
        StepsSnoc(old(Recorded()), codes, i, vals);
        i := i + 1;
      }
      assert codes[..i] == codes;
      growthCurves := Finalize(growthCurves);
    }

    /** What `data_calc` leaves for a registry state: its entry in every
        dictionary is the metric of its rows sorted by date. */
    lemma DataCalcEntries(r0: Records, today: Date, s: string)
      requires Valid()
      requires s in statePop.pop
      ensures var q := Finished(Steps(r0, statePop.codes, AllValues(today)));
        var rows := StateRows(covidData, s);
        && s in q.onsets && q.onsets[s] == Metrics.Onset(rows)
        && s in q.days && q.days[s] == Metrics.DaysSinceOnset(Metrics.Onset(rows), today)
        && s in q.testRates && q.testRates[s] == Metrics.TestRate(rows, statePop.pop[s])
        && s in q.growthRates && q.growthRates[s] == Metrics.GrowthRate(rows)
        && s in q.positiveRates && q.positiveRates[s] == Metrics.PositiveRate(rows)
        && s in q.deathRates && q.deathRates[s] == Metrics.DeathRate(rows)
    {
      StepsListed(r0, statePop.codes, AllValues(today), s);
    }

    /** `data_calc` leaves the entries of a state outside the registry as
        they were. */
    lemma DataCalcKeeps(r0: Records, today: Date, s: string)
      requires Valid()
      requires s !in statePop.pop
      ensures var q := Finished(Steps(r0, statePop.codes, AllValues(today)));
        && (s in q.onsets <==> s in r0.onsets) && (s in r0.onsets ==> q.onsets[s] == r0.onsets[s])
        && (s in q.days <==> s in r0.days) && (s in r0.days ==> q.days[s] == r0.days[s])
        && (s in q.testRates <==> s in r0.testRates) && (s in r0.testRates ==> q.testRates[s] == r0.testRates[s])
        && (s in q.growthRates <==> s in r0.growthRates)
        && (s in r0.growthRates ==> q.growthRates[s] == r0.growthRates[s])
        && (s in q.positiveRates <==> s in r0.positiveRates)
        && (s in r0.positiveRates ==> q.positiveRates[s] == r0.positiveRates[s])
        && (s in q.deathRates <==> s in r0.deathRates)
        && (s in r0.deathRates ==> q.deathRates[s] == r0.deathRates[s])
    {
      StepsUnlisted(r0, statePop.codes, AllValues(today), s);
    }

    /** The curve table `data_calc` leaves is the finished curve fold over the
        registry, where a state has a curve exactly when it has an onset, and
        the curve is that of its rows from the onset on. */
    lemma DataCalcCurves(r0: Records, today: Date, s: string)
      requires Valid()
      ensures Finished(Steps(r0, statePop.codes, AllValues(today))).curves
        == Finalize(CurvesAfter(r0.curves, CurvesOf(AllValues(today)), statePop.codes))
      ensures s in CurvesOf(AllValues(today)) <==> s in statePop.pop && Metrics.Onset(StateRows(covidData, s)).Some?
      ensures s in CurvesOf(AllValues(today)) ==>
        var rows := StateRows(covidData, s);
        CurvesOf(AllValues(today))[s] == CurveCells(rows, Metrics.Onset(rows).value, statePop.pop[s], popAdj)
    {
      StepsCurves(r0, statePop.codes, AllValues(today));
    }

    /** The registry states, or the given list. */
    function PlotStates(stateList: Option<seq<string>>): seq<string> {
      match stateList
      case None => statePop.codes
      case Some(l) => l
    }

    /** `generate_dot_plot(x_var, y_var, ...)` up to the drawing: the
        snapshot table over the listed states, by default every registry
        state in registry order. */
    function GenerateDotPlot(xVar: map<string, seq<Metrics.Point>>, yVar: map<string, seq<Metrics.Point>>,
                             stateList: Option<seq<string>>): (r: Result<seq<SnapshotRow>, SnapshotError>)
      reads this
      ensures r.Success? ==> |r.value| == |PlotStates(stateList)|
      ensures r.Success? ==> forall i :: 0 <= i < |r.value| ==>
        (r.value[i].state == PlotStates(stateList)[i] && r.value[i].state in daysSince100
         && r.value[i].days == daysSince100[r.value[i].state] && r.value[i].colour == Urgency(r.value[i].days))
      ensures r.Success? <==> forall s :: s in PlotStates(stateList) ==>
        s in daysSince100 && HasSeries(xVar, s) && HasSeries(yVar, s)
    {
      Snapshot(daysSince100, xVar, yVar, PlotStates(stateList))
    }
  }
}
