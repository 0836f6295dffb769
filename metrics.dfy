/** The per-state metrics of `State_Data_Generator`: the outbreak onset and the
    days since it, the testing rate, and the three trailing four-sample window
    metrics (growth, positivity, death). Every series is computed over the
    state's rows in ascending date order and has one entry per row. */
module Metrics {
  import opened Wrappers
  import opened Dates
  import opened Observations

  /** Cumulative positives that mark the onset of the outbreak. */
  const OutbreakThreshold := 100
  /** Rates are per million people. */
  const PerMillion := 1000000
  /** Rolling windows hold this many samples: the current row and three before. */
  const WindowSize := 4

  /** One entry of a metric series: the row's date and the value, absent
      where pandas would hold NaN or an infinity. */
  datatype Point = Point(date: Date, value: Option<real>)

  /** The three cumulative counters of a row. */
  datatype Counter = Positive | Death | Total

  function Count(o: Observation, c: Counter): int {
    match c
    case Positive => o.positive
    case Death => o.death
    case Total => o.total
  }

  /** One counter column of the rows, in row order. */
  function Column(rows: seq<Observation>, c: Counter): seq<int> {
    seq(|rows|, i requires 0 <= i < |rows| => Count(rows[i], c))
  }

  // ---------------------------------------------------------------- onset

  /** `outbreak_date`: the least date among the rows with at least 100
      cumulative positives, or None when no row has that many. (The source
      stores pandas' NaN for "none"; None is what that NaN stands for.) */
  function Onset(rows: seq<Observation>): (r: Option<Date>)
    ensures r.None? <==> forall i :: 0 <= i < |rows| ==> rows[i].positive < OutbreakThreshold
    ensures r.Some? ==> exists i :: 0 <= i < |rows| && rows[i].positive >= OutbreakThreshold && rows[i].date == r.value
    ensures r.Some? ==> forall i :: 0 <= i < |rows| && rows[i].positive >= OutbreakThreshold ==> NotAfter(r.value, rows[i].date)
  {
    if rows == [] then None
    else
      var rest := Onset(rows[1..]);
      assert forall i :: 1 <= i < |rows| ==> rows[i] == rows[1..][i - 1];
      if rows[0].positive < OutbreakThreshold then rest
      else match rest
        case None => Some(rows[0].date)
        case Some(d) => Some(Earlier(rows[0].date, d))
  }

  /** `days_since`: the days from the onset to `today`, or 0 when there is no
      onset (the `TypeError` branch). */
  function DaysSinceOnset(onset: Option<Date>, today: Date): int {
    match onset
    case None => 0
    case Some(d) => DaysBetween(d, today)
  }

  /** The days since the onset are zero without an onset, never negative for
      an onset not after today, and zero for an onset today. */
  lemma DaysSinceOnsetSign(onset: Option<Date>, today: Date)
    ensures onset.None? ==> DaysSinceOnset(onset, today) == 0
    ensures onset.Some? ==> (NotAfter(onset.value, today) <==> DaysSinceOnset(onset, today) >= 0)
    ensures onset.Some? ==> (DaysSinceOnset(onset, today) == 0 <==> onset.value == today)
  {
    if onset.Some? {
      DaysBetweenSign(onset.value, today);
    }
  }

  /** Positives 50, 120, 140 on 2020-03-01..03: the onset is 2020-03-02, the
      first date with at least 100. */
  lemma OnsetExample()
    ensures Onset([Observation("CA", Ymd(2020, 3, 1), 50, 0, 0),
                   Observation("CA", Ymd(2020, 3, 2), 120, 0, 0),
                   Observation("CA", Ymd(2020, 3, 3), 140, 0, 0)]) == Some(Ymd(2020, 3, 2))
  {
    var rows := [Observation("CA", Ymd(2020, 3, 1), 50, 0, 0),
                 Observation("CA", Ymd(2020, 3, 2), 120, 0, 0),
                 Observation("CA", Ymd(2020, 3, 3), 140, 0, 0)];
    assert rows[1..][1..][1..] == [];
    assert Onset(rows[1..][1..]) == Some(Ymd(2020, 3, 3));
  }

  // ------------------------------------------------------------ test rate

  /** `count * 1000000 / population`; absent for a zero population, where
      pandas gives an infinity or NaN. */
  function PerMillionOf(count: int, population: int): (r: Option<real>)
    ensures r.Some? <==> population != 0
    ensures r.Some? ==> r.value * population as real == (count * PerMillion) as real
  {
    if population == 0 then None else Some((count * PerMillion) as real / population as real)
  }

  /** `test_rate`: the cumulative tests per million people, one entry per row,
      dated like the row. */
  function TestRate(rows: seq<Observation>, population: int): (r: seq<Point>)
    ensures |r| == |rows|
    ensures forall i :: 0 <= i < |rows| ==> r[i].date == rows[i].date
    ensures forall i :: 0 <= i < |rows| ==> (r[i].value.Some? <==> population != 0)
    ensures forall i :: 0 <= i < |rows| && population != 0 ==>
      r[i].value.value * population as real == (rows[i].total * PerMillion) as real
  {
    seq(|rows|, i requires 0 <= i < |rows| => Point(rows[i].date, PerMillionOf(rows[i].total, population)))
  }

  /** A state of one million people with 5000 tests has 5000 tests per million. */
  lemma TestRateExample(d: Date)
    ensures TestRate([Observation("CA", d, 0, 0, 5000)], 1000000) == [Point(d, Some(5000.0))]
  {
  }

  // ------------------------------------------------------- rolling windows

  function MaxOf(s: seq<int>): (m: int)
    requires |s| > 0
    ensures m in s && forall i :: 0 <= i < |s| ==> s[i] <= m
  {
    if |s| == 1 then s[0]
    else
      var rest := MaxOf(s[1..]);
      assert forall i :: 1 <= i < |s| ==> s[i] == s[1..][i - 1];
      if s[0] >= rest then s[0] else rest
  }

  function MinOf(s: seq<int>): (m: int)
    requires |s| > 0
    ensures m in s && forall i :: 0 <= i < |s| ==> m <= s[i]
  {
    if |s| == 1 then s[0]
    else
      var rest := MinOf(s[1..]);
      assert forall i :: 1 <= i < |s| ==> s[i] == s[1..][i - 1];
      if s[0] <= rest then s[0] else rest
  }

  /** The trailing window ending at row i: rows i-3 .. i. */
  function Window(values: seq<int>, i: int): seq<int>
    requires WindowSize - 1 <= i < |values|
  {
    values[i - (WindowSize - 1)..i + 1]
  }

  /** `(max - min) / min + 1` over a window: the quantity under the cube root
      of the growth and death rates. Absent when the minimum is 0. */
  function GrowthBase(w: seq<int>): (r: Option<real>)
    requires |w| > 0
    ensures r.Some? <==> MinOf(w) != 0
    ensures r.Some? ==> r.value == MaxOf(w) as real / MinOf(w) as real
  {
    var mx, mn := MaxOf(w), MinOf(w);
    if mn == 0 then None
    else
      RatioShift(mx as real, mn as real);
      Some((mx - mn) as real / mn as real + 1.0)
  }

  /** `(a - b) / b + 1` is `a / b`. */
  lemma RatioShift(a: real, b: real)
    requires b != 0.0
    ensures (a - b) / b + 1.0 == a / b
  {
    assert (a - b) / b == a / b - b / b;
  }

  /** A quotient of a number by a smaller positive one is at least 1. */
  lemma RatioAtLeastOne(a: real, b: real)
    requires 0.0 < b <= a
    ensures a / b >= 1.0
  {
    DivMul(a, b);
  }

  /** q is the exact ratio num / den. */
  predicate IsRatio(q: real, num: int, den: int) {
    q * den as real == num as real
  }

  /** `a / b` in floating point, taken exactly. */
  function Quotient(a: int, b: int): real
    requires b != 0
  {
    a as real / b as real
  }

  /** The quotient times the divisor gives back the dividend. */
  lemma QuotientIsRatio(a: int, b: int)
    requires b != 0
    ensures IsRatio(Quotient(a, b), a, b)
  {
    DivMul(a as real, b as real);
  }

  /** Dividing and multiplying back by the same non-zero number. */
  lemma DivMul(a: real, b: real)
    requires b != 0.0
    ensures a / b * b == a
  {
  }

  /** `(max positives - min positives) / (max tests - min tests)` over a
      window: new positives per new test. Absent when the tests did not move
      (pandas gives an infinity or NaN there); otherwise the value times the
      tests' range is the positives' range. */
  function PositivityOf(p: seq<int>, t: seq<int>): (r: Option<real>)
    requires |p| > 0 && |t| > 0
    ensures r.Some? <==> MaxOf(t) != MinOf(t)
    ensures r.Some? ==> IsRatio(r.value, MaxOf(p) - MinOf(p), MaxOf(t) - MinOf(t))
  {
    var num, den := MaxOf(p) - MinOf(p), MaxOf(t) - MinOf(t);
    if den == 0 then None
    else
      QuotientIsRatio(num, den);
      Some(Quotient(num, den))
  }

  /** The growth-base series of one counter: absent for the first three rows,
      then the window's `GrowthBase`. The growth rate and the death rate are
      this one definition applied to the positive and the death column. */
  function RollingGrowthBase(rows: seq<Observation>, c: Counter): (r: seq<Point>)
    ensures |r| == |rows|
    ensures forall i :: 0 <= i < |rows| ==> r[i].date == rows[i].date
    ensures forall i :: 0 <= i < |rows| && i < WindowSize - 1 ==> r[i].value.None?
  {
    var values := Column(rows, c);
    seq(|rows|, i requires 0 <= i < |rows| =>
      Point(rows[i].date, if i < WindowSize - 1 then None else GrowthBase(Window(values, i))))
  }

  /** `growth_rate` (up to the cube root). */
  function GrowthRate(rows: seq<Observation>): seq<Point> {
    RollingGrowthBase(rows, Positive)
  }

  /** `death_rate` (up to the cube root). */
  function DeathRate(rows: seq<Observation>): seq<Point> {
    RollingGrowthBase(rows, Death)
  }

  /** `positive_rate`: absent for the first three rows, then the window's
      positivity. */
  function PositiveRate(rows: seq<Observation>): (r: seq<Point>)
    ensures |r| == |rows|
    ensures forall i :: 0 <= i < |rows| ==> r[i].date == rows[i].date
    ensures forall i :: 0 <= i < |rows| && i < WindowSize - 1 ==> r[i].value.None?
  {
    var p, t := Column(rows, Positive), Column(rows, Total);
    seq(|rows|, i requires 0 <= i < |rows| =>
      Point(rows[i].date, if i < WindowSize - 1 then None else PositivityOf(Window(p, i), Window(t, i))))
  }

  /** From row 3 on, a growth-base entry is defined exactly when its window's
      minimum is not 0, and it is then the window's max / min. */
  lemma RollingGrowthBaseAt(rows: seq<Observation>, c: Counter, i: int)
    requires WindowSize - 1 <= i < |rows|
    ensures var w := Window(Column(rows, c), i);
      && (RollingGrowthBase(rows, c)[i].value.Some? <==> MinOf(w) != 0)
      && (MinOf(w) != 0 ==> RollingGrowthBase(rows, c)[i].value.value == MaxOf(w) as real / MinOf(w) as real)
  {
  }

  /** From row 3 on, a positivity entry is defined exactly when the window's
      tests moved, and it then times the tests' range gives the positives'
      range. */
  lemma PositiveRateAt(rows: seq<Observation>, i: int)
    requires WindowSize - 1 <= i < |rows|
    ensures var p, t := Window(Column(rows, Positive), i), Window(Column(rows, Total), i);
      && (PositiveRate(rows)[i].value.Some? <==> MaxOf(t) != MinOf(t))
      && (MaxOf(t) != MinOf(t) ==>
            IsRatio(PositiveRate(rows)[i].value.value, MaxOf(p) - MinOf(p), MaxOf(t) - MinOf(t)))
  {
    var p, t := Window(Column(rows, Positive), i), Window(Column(rows, Total), i);
    assert PositiveRate(rows)[i].value == PositivityOf(p, t);
  }

  /** A window entry reads nothing but rows i-3 .. i: two row sequences that
      agree on those rows' counters agree on the entry. */
  lemma RollingLocal(rows: seq<Observation>, other: seq<Observation>, i: int)
    requires WindowSize - 1 <= i < |rows| && i < |other|
    requires rows[i].date == other[i].date
    requires forall k :: i - (WindowSize - 1) <= k <= i ==>
      rows[k].positive == other[k].positive && rows[k].death == other[k].death && rows[k].total == other[k].total
    ensures GrowthRate(rows)[i] == GrowthRate(other)[i]
    ensures DeathRate(rows)[i] == DeathRate(other)[i]
    ensures PositiveRate(rows)[i] == PositiveRate(other)[i]
  {
    forall c: Counter ensures Window(Column(rows, c), i) == Window(Column(other, c), i) {
    }
  }

  /** A window of non-decreasing values has its first sample as minimum and
      its last as maximum. */
  lemma MonotoneWindow(w: seq<int>)
    requires |w| > 0
    requires forall k, l :: 0 <= k <= l < |w| ==> w[k] <= w[l]
    ensures MinOf(w) == w[0] && MaxOf(w) == w[|w| - 1]
  {
  }

  /** For counters that only grow, the growth base at row i is the ratio of
      row i's count to the count three rows earlier, and at least 1. */
  lemma GrowthBaseOfCumulative(rows: seq<Observation>, c: Counter, i: int)
    requires WindowSize - 1 <= i < |rows|
    requires forall k, l :: i - (WindowSize - 1) <= k <= l <= i ==> Count(rows[k], c) <= Count(rows[l], c)
    requires Count(rows[i - (WindowSize - 1)], c) > 0
    ensures RollingGrowthBase(rows, c)[i].value
      == Some(Count(rows[i], c) as real / Count(rows[i - (WindowSize - 1)], c) as real)
    ensures RollingGrowthBase(rows, c)[i].value.value >= 1.0
  {
    var w := Window(Column(rows, c), i);
    MonotoneWindow(w);
    var hi, lo := Count(rows[i], c), Count(rows[i - (WindowSize - 1)], c);
    assert MaxOf(w) == hi && MinOf(w) == lo;
    GrowthBaseOfSpan(w, hi, lo);
    assert RollingGrowthBase(rows, c)[i].value == GrowthBase(w);
    RatioAtLeastOne(hi as real, lo as real);
  }

  /** The growth base in terms of the window's extremes, once they are known. */
  lemma GrowthBaseOfSpan(w: seq<int>, hi: int, lo: int)
    requires |w| > 0 && MaxOf(w) == hi && MinOf(w) == lo && lo > 0
    ensures GrowthBase(w) == Some(hi as real / lo as real)
  {
  }

  /** Over windows of non-decreasing counts, positivity is the rise in
      positives over the rise in tests, first sample to last. */
  lemma PositivityOfMonotone(p: seq<int>, t: seq<int>, num: int, den: int)
    requires |p| > 0 && |t| > 0
    requires forall k, l :: 0 <= k <= l < |p| ==> p[k] <= p[l]
    requires forall k, l :: 0 <= k <= l < |t| ==> t[k] <= t[l]
    requires num == p[|p| - 1] - p[0] && den == t[|t| - 1] - t[0] && den > 0
    ensures PositivityOf(p, t).Some? && IsRatio(PositivityOf(p, t).value, num, den)
  {
    MonotoneWindow(p);
    MonotoneWindow(t);
    PositivityOfSpans(p, t, num, den);
  }

  /** Positivity in terms of the two spans, once they are known. */
  lemma PositivityOfSpans(p: seq<int>, t: seq<int>, num: int, den: int)
    requires |p| > 0 && |t| > 0
    requires num == MaxOf(p) - MinOf(p) && den == MaxOf(t) - MinOf(t) && den != 0
    ensures PositivityOf(p, t).Some? && IsRatio(PositivityOf(p, t).value, num, den)
  {
  }

  /** For counters that only grow, positivity at row i is the positives added
      over the last three rows divided by the tests added over them. */
  lemma PositivityOfCumulative(rows: seq<Observation>, i: int, num: int, den: int)
    requires WindowSize - 1 <= i < |rows|
    requires forall k, l :: i - (WindowSize - 1) <= k <= l <= i ==>
      rows[k].positive <= rows[l].positive && rows[k].total <= rows[l].total
    requires num == rows[i].positive - rows[i - (WindowSize - 1)].positive
    requires den == rows[i].total - rows[i - (WindowSize - 1)].total
    requires den > 0
    ensures PositiveRate(rows)[i].value.Some? && IsRatio(PositiveRate(rows)[i].value.value, num, den)
  {
    var p, t := Window(Column(rows, Positive), i), Window(Column(rows, Total), i);
    PositivityOfMonotone(p, t, num, den);
    assert PositiveRate(rows)[i].value == PositivityOf(p, t);
  }

  /** Positives 100, 110, 121, 133 give a growth base of 1.33 at the fourth
      row (a daily growth of about 10%). */
  lemma GrowthExample(d0: Date, d1: Date, d2: Date, d3: Date)
    ensures GrowthRate([Observation("CA", d0, 100, 0, 0), Observation("CA", d1, 110, 0, 0),
                        Observation("CA", d2, 121, 0, 0), Observation("CA", d3, 133, 0, 0)])[3].value
      == Some(Quotient(133, 100))
  {
    var rows := [Observation("CA", d0, 100, 0, 0), Observation("CA", d1, 110, 0, 0),
                 Observation("CA", d2, 121, 0, 0), Observation("CA", d3, 133, 0, 0)];
    GrowthBaseOfCumulative(rows, Positive, 3);
  }
}
