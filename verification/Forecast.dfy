/** Weekly demand signals, the demand index and the trend line (backend/analytics/forecast.py), over exact reals. */
module Forecast {
  import opened Common
  import opened TrendLine

  const LOOKBACK_WEEKS := 12
  const MIN_SIGNAL := 3
  const RECENT_WEEKS := 4

  /** One week in microseconds; every time below is a count of microseconds. */
  const WEEK := 7 * 24 * 3600 * 1_000_000

  // ---------------------------------------------------------------- the three signal tables

  /** A wishlist save or a booking: the area of its room and its `created_at`. */
  datatype Row = Row(area: string, at: int)

  datatype Event = Event(kind: string, roomId: Option<int>, area: Option<string>, path: string, at: int)

  datatype Tables = Tables(saves: seq<Row>, bookings: seq<Row>, events: seq<Event>)

  function RowTimes(rows: seq<Row>, area: string): seq<int> {
    if rows == [] then []
    else RowTimes(rows[..|rows| - 1], area) + if rows[|rows| - 1].area == area then [rows[|rows| - 1].at] else []
  }

  /** `icontains(path, area)` is the database's case-insensitive containment. */
  predicate CountsFor(icontains: (string, string) -> bool, event: Event, area: string) {
    event.kind in ["booking_requested", "room_view"] && event.roomId.Some?
    && (event.area == Some(area) || icontains(event.path, area))
  }

  function EventTimes(icontains: (string, string) -> bool, events: seq<Event>, area: string): seq<int> {
    if events == [] then []
    else
      var last := events[|events| - 1];
      EventTimes(icontains, events[..|events| - 1], area) + if CountsFor(icontains, last, area) then [last.at] else []
  }

  /** `filter(created_at__gte=start, created_at__lt=end).count()` */
  function Count(times: seq<int>, start: int, end: int): nat {
    if times == [] then 0
    else Count(times[..|times| - 1], start, end) + if start <= times[|times| - 1] < end then 1 else 0
  }

  /** All the signals of one area between two moments. */
  function SignalsBetween(icontains: (string, string) -> bool, tables: Tables, area: string, start: int,
      end: int): nat
  {
    Count(RowTimes(tables.saves, area), start, end)
    + Count(RowTimes(tables.bookings, area), start, end)
    + Count(EventTimes(icontains, tables.events, area), start, end)
  }

  /** A row of the area created between two moments. */
  predicate Falls(row: Row, area: string, start: int, end: int) {
    row.area == area && start <= row.at < end
  }

  /** A booking request or a view of a room, counted for its room's area or for the area its path names. */
  predicate Signals(icontains: (string, string) -> bool, e: Event, area: string, start: int, end: int) {
    && (e.kind == "room_view" || e.kind == "booking_requested") && e.roomId.Some? && start <= e.at < end
    && (icontains(e.path, area) || e.area == Some(area))
  }

  lemma CountMore(times: seq<int>, t: int, start: int, end: int)
    ensures Count(times + [t], start, end) == Count(times, start, end) + if start <= t < end then 1 else 0
  {
    assert (times + [t])[..|times|] == times;
  }

  lemma {:induction false} RowsCount(rows: seq<Row>, area: string, start: int, end: int)
    ensures Count(RowTimes(rows, area), start, end)
         == |set i | 0 <= i < |rows| && Falls(rows[i], area, start, end)|
  {
    hide Count;
    var found := set i | 0 <= i < |rows| && Falls(rows[i], area, start, end);
    if rows == [] {
      assert found == {};
      NoneCounted(start, end);
    } else {
      var n := |rows| - 1;
      var before := set i | 0 <= i < n && Falls(rows[..n][i], area, start, end);
      RowsCount(rows[..n], area, start, end);
      CountMore(RowTimes(rows[..n], area), rows[n].at, start, end);
      assert RowTimes(rows[..n], area) + [] == RowTimes(rows[..n], area);
      assert found == before + if Falls(rows[n], area, start, end) then {n} else {};
    }
  }

  lemma NoneCounted(start: int, end: int)
    ensures Count([], start, end) == 0
  {
  }

  lemma {:induction false} EventsCount(icontains: (string, string) -> bool, events: seq<Event>, area: string,
      start: int, end: int)
    ensures Count(EventTimes(icontains, events, area), start, end)
         == |set i | 0 <= i < |events| && Signals(icontains, events[i], area, start, end)|
  {
    hide Count;
    var found := set i | 0 <= i < |events| && Signals(icontains, events[i], area, start, end);
    if events == [] {
      assert found == {};
      NoneCounted(start, end);
    } else {
      var n := |events| - 1;
      var before := set i | 0 <= i < n && Signals(icontains, events[..n][i], area, start, end);
      EventsCount(icontains, events[..n], area, start, end);
      CountMore(EventTimes(icontains, events[..n], area), events[n].at, start, end);
      assert EventTimes(icontains, events[..n], area) + [] == EventTimes(icontains, events[..n], area);
      assert found == before + if Signals(icontains, events[n], area, start, end) then {n} else {};
    }
  }

  /** Each save, booking and counted event of the area in the window is one signal. */
  lemma SignalsAreTheRows(icontains: (string, string) -> bool, tables: Tables, area: string, start: int, end: int)
    ensures SignalsBetween(icontains, tables, area, start, end)
         == |set i | 0 <= i < |tables.saves| && Falls(tables.saves[i], area, start, end)|
            + |set i | 0 <= i < |tables.bookings| && Falls(tables.bookings[i], area, start, end)|
            + |set i | 0 <= i < |tables.events| && Signals(icontains, tables.events[i], area, start, end)|
  {
    hide Count, RowTimes, EventTimes;
    RowsCount(tables.saves, area, start, end);
    RowsCount(tables.bookings, area, start, end);
    EventsCount(icontains, tables.events, area, start, end);
  }

  /** Where week i of the series, oldest first, begins; the next one begins where it ends. */
  function WeekStart(now: int, weeks: nat, i: int): int {
    now - (weeks - i) * WEEK
  }

  ghost predicate WeekByWeek(icontains: (string, string) -> bool, tables: Tables, area: string, now: int, weeks: nat,
      series: seq<nat>)
  {
    && |series| == weeks
    && forall i :: 0 <= i < weeks ==>
         series[i] == SignalsBetween(icontains, tables, area, WeekStart(now, weeks, i), WeekStart(now, weeks, i + 1))
  }

  /** `_weekly_series`: oldest first. */
  method WeeklySeries(icontains: (string, string) -> bool, tables: Tables, area: string, now: int, weeks: nat)
    returns (series: seq<nat>)
    ensures WeekByWeek(icontains, tables, area, now, weeks, series)
  {
    hide Count, RowTimes, EventTimes;
    series := [];
    for w := weeks downto 0
      invariant |series| == weeks - w
      invariant forall i :: 0 <= i < |series| ==>
        series[i] == SignalsBetween(icontains, tables, area, WeekStart(now, weeks, i), WeekStart(now, weeks, i + 1))
    {
      var start := now - (w + 1) * WEEK;
      var end := now - w * WEEK;
      var n := 0;
      n := n + Count(RowTimes(tables.saves, area), start, end);
      n := n + Count(RowTimes(tables.bookings, area), start, end);
      n := n + Count(EventTimes(icontains, tables.events, area), start, end);
      series := series + [n];
    }
  }

  lemma {:induction false} CountSplits(times: seq<int>, a: int, b: int, c: int)
    requires a <= b <= c
    ensures Count(times, a, c) == Count(times, a, b) + Count(times, b, c)
  {
    if times != [] {
      CountSplits(times[..|times| - 1], a, b, c);
    }
  }

  lemma SignalsSplit(icontains: (string, string) -> bool, tables: Tables, area: string, a: int, b: int, c: int)
    requires a <= b <= c
    ensures SignalsBetween(icontains, tables, area, a, c)
         == SignalsBetween(icontains, tables, area, a, b) + SignalsBetween(icontains, tables, area, b, c)
  {
    CountSplits(RowTimes(tables.saves, area), a, b, c);
    CountSplits(RowTimes(tables.bookings, area), a, b, c);
    CountSplits(EventTimes(icontains, tables.events, area), a, b, c);
  }

  lemma {:induction false} FirstWeeksConserve(icontains: (string, string) -> bool, tables: Tables, area: string,
      now: int, weeks: nat, series: seq<nat>, k: nat)
    requires WeekByWeek(icontains, tables, area, now, weeks, series) && k <= weeks
    ensures Sum(series[..k]) == SignalsBetween(icontains, tables, area, WeekStart(now, weeks, 0),
      WeekStart(now, weeks, k))
  {
    hide Count, RowTimes, EventTimes;
    var first := WeekStart(now, weeks, 0);
    if k == 0 {
      SignalsSplit(icontains, tables, area, first, first, first);
    } else {
      FirstWeeksConserve(icontains, tables, area, now, weeks, series, k - 1);
      SignalsSplit(icontains, tables, area, first, WeekStart(now, weeks, k - 1), WeekStart(now, weeks, k));
      assert series[..k][..k - 1] == series[..k - 1];
    }
  }

  /** The series sums to the signals of the whole look-back window. */
  lemma SeriesConservesSignals(icontains: (string, string) -> bool, tables: Tables, area: string, now: int,
      weeks: nat, series: seq<nat>)
    requires WeekByWeek(icontains, tables, area, now, weeks, series)
    ensures Sum(series) == SignalsBetween(icontains, tables, area, now - weeks * WEEK, now)
  {
    FirstWeeksConserve(icontains, tables, area, now, weeks, series, weeks);
    assert series[..weeks] == series;
  }

  predicate InWeek(now: int, weeks: nat, i: int, t: int) {
    WeekStart(now, weeks, i) <= t < WeekStart(now, weeks, i + 1)
  }

  /** The week of the series that a moment lies in. */
  function WeekOf(now: int, weeks: nat, t: int): int {
    weeks - 1 - (now - t - 1) / WEEK
  }

  lemma InWeekIff(now: int, weeks: nat, i: int, t: int)
    ensures InWeek(now, weeks, i, t) <==> i == WeekOf(now, weeks, t)
  {
    var back := weeks - 1 - i;
    assert InWeek(now, weeks, i, t) <==> back * WEEK <= now - t - 1 < back * WEEK + WEEK;
  }

  /** A moment lies in at most one week of the series, and in one exactly when it is in the look-back window. */
  lemma EveryMomentHasOneWeek(now: int, weeks: nat, t: int)
    ensures (exists i: nat :: i < weeks && InWeek(now, weeks, i, t)) <==> now - weeks * WEEK <= t < now
    ensures forall i: nat, j: nat :: InWeek(now, weeks, i, t) && InWeek(now, weeks, j, t) ==> i == j
  {
    forall i: int ensures InWeek(now, weeks, i, t) <==> i == WeekOf(now, weeks, t) {
      InWeekIff(now, weeks, i, t);
    }
    if now - weeks * WEEK <= t < now {
      assert InWeek(now, weeks, WeekOf(now, weeks, t), t);
    }
  }

  // ---------------------------------------------------------------- the demand index

  /** `max(series)`, 0 for an empty series. */
  function Peak(series: seq<nat>): (peak: nat)
    ensures forall i :: 0 <= i < |series| ==> series[i] <= peak
    ensures series != [] ==> peak in series
  {
    if series == [] then 0
    else
      var before := Peak(series[..|series| - 1]);
      if before >= series[|series| - 1] && |series| > 1 then before else series[|series| - 1]
  }

  /** `series[-4:]` */
  function Recent(series: seq<nat>): seq<nat> {
    if |series| <= RECENT_WEEKS then series else series[|series| - RECENT_WEEKS..]
  }

  /** `round`: to the nearest integer, ties to the even one. */
  function Round(x: real): int {
    var f := x.Floor;
    var rest := x - f as real;
    if rest < 0.5 || (rest == 0.5 && f % 2 == 0) then f else f + 1
  }

  datatype Demand =
    | Insufficient(total: int)
    | Demand(index: int, total: int, trend: Trend)

  /** `(recent / 4) / peak * 100` */
  function PeakShare(recent: int, peak: nat): real
    requires peak > 0
  {
    recent as real / RECENT_WEEKS as real / peak as real * 100.0
  }

  function RawIndex(series: seq<nat>): int
    requires Peak(series) > 0
  {
    Round(PeakShare(Sum(Recent(series)), Peak(series)))
  }

  function DemandOf(series: seq<nat>): Demand {
    var total := Sum(series);
    if total < MIN_SIGNAL || Peak(series) == 0 then Insufficient(total)
    else Demand(Min(100, RawIndex(series)), total, LinearTrend(series))
  }

  /** `area_demand` */
  method AreaDemand(icontains: (string, string) -> bool, tables: Tables, area: string, now: int)
    returns (demand: Demand, series: seq<nat>)
    ensures WeekByWeek(icontains, tables, area, now, LOOKBACK_WEEKS, series)
    ensures demand.total == SignalsBetween(icontains, tables, area, now - LOOKBACK_WEEKS * WEEK, now)
    ensures demand == DemandOf(series)
    ensures demand.Demand? ==> IsNearestPercentage(demand.index, series)
    ensures demand.Demand? ==> forall a: real, b: real :: IsBestLine(series, a, b) ==>
      Tells(demand.trend, LOOKBACK_WEEKS, a, b)
  {
    hide DemandOf, IsBestLine, Tells, IsNearestPercentage, SignalsBetween, Sum;
    series := WeeklySeries(icontains, tables, area, now, LOOKBACK_WEEKS);
    SeriesConservesSignals(icontains, tables, area, now, LOOKBACK_WEEKS, series);
    demand := DemandOf(series);
    DemandTells(series);
  }

  /**
   * The index is the whole number nearest to the last four weeks' average in percent of the busiest
   * week, the even one of two.
   */
  ghost predicate IsNearestPercentage(index: int, series: seq<nat>) {
    && |series| >= 4
    && var n := |series|;
    var recent := series[n - 4] + series[n - 3] + series[n - 2] + series[n - 1];
    exists peak: nat :: IsPeak(peak, series) && IsNearest(index, 100 * recent, 4 * peak)
  }

  ghost predicate IsPeak(peak: nat, series: seq<nat>) {
    peak > 0 && peak in series && forall i :: 0 <= i < |series| ==> series[i] <= peak
  }

  /** No whole number is nearer to a / b than k, and k is even when another is as near. */
  predicate IsNearest(k: int, a: int, b: int) {
    && -b <= 2 * (k * b - a) <= b
    && (2 * (k * b - a) == b || 2 * (k * b - a) == -b ==> k % 2 == 0)
  }

  lemma CastProduct(f: int, b: int)
    ensures (f * b) as real == Product(f as real, b as real)
  {
  }

  lemma Distributes(x: real, f: real, b: real)
    ensures Product(x - f, b) == Product(x, b) - Product(f, b)
  {
  }

  lemma FloorGap(a: int, b: int, x: real) returns (gap: int)
    requires b > 0 && Product(x, b as real) == a as real
    ensures var f := x.Floor;
      && gap == a - f * b && 0 <= gap < b
      && (x - f as real < 0.5 <==> 2 * gap < b)
      && (x - f as real == 0.5 <==> 2 * gap == b)
  {
    hide Product;
    var f := x.Floor;
    var p := f * b;
    gap := a - p;
    CastProduct(f, b);
    Distributes(x, f as real, b as real);
    Half(x - f as real, b as real);
  }

  lemma NearestByMiss(k: int, a: int, b: int, miss: int)
    requires miss == k * b - a && -b <= 2 * miss <= b
    requires 2 * miss == b || 2 * miss == -b ==> k % 2 == 0
    ensures IsNearest(k, a, b)
  {
  }

  lemma RoundIsNearest(a: int, b: int, x: real)
    requires b > 0 && Product(x, b as real) == a as real
    ensures IsNearest(Round(x), a, b)
  {
    hide IsNearest, Product;
    var gap := FloorGap(a, b, x);
    var f, k := x.Floor, Round(x);
    Missed(f, b);
    NearestByMiss(k, a, b, if k == f then -gap else b - gap);
  }

  lemma Missed(f: int, b: int)
    ensures (f + 1) * b == f * b + b
  {
  }

  lemma Half(rest: real, b: real)
    requires b > 0.0 && 0.0 <= rest < 1.0
    ensures 0.0 <= Product(rest, b) < b
    ensures rest < 0.5 <==> 2.0 * Product(rest, b) < b
    ensures rest == 0.5 <==> 2.0 * Product(rest, b) == b
  {
    assert Product(1.0 - rest, b) == b - Product(rest, b);
    assert Product(rest - 0.5, b) == Product(rest, b) - b / 2.0;
    assert Product(0.5 - rest, b) == b / 2.0 - Product(rest, b);
    PositiveProduct(1.0 - rest, b);
    if rest > 0.0 { PositiveProduct(rest, b); }
    if rest > 0.5 { PositiveProduct(rest - 0.5, b); }
    if rest < 0.5 { PositiveProduct(0.5 - rest, b); }
  }

  lemma SumAdds(ys: seq<int>, y: int)
    ensures Sum(ys + [y]) == Sum(ys) + y
  {
    assert (ys + [y])[..|ys|] == ys;
  }

  lemma LastFour(series: seq<nat>)
    requires |series| >= 4
    ensures var n := |series|;
      Sum(Recent(series)) == series[n - 4] + series[n - 3] + series[n - 2] + series[n - 1]
  {
    hide Sum;
    var r := Recent(series);
    assert [] + [r[0]] == [r[0]] && [r[0]] + [r[1]] == [r[0], r[1]];
    assert [r[0], r[1]] + [r[2]] == [r[0], r[1], r[2]] && [r[0], r[1], r[2]] + [r[3]] == r;
    SumAdds([], r[0]);
    SumAdds([r[0]], r[1]);
    SumAdds([r[0], r[1]], r[2]);
    SumAdds([r[0], r[1], r[2]], r[3]);
    SumOfNone();
  }

  lemma SumOfNone()
    ensures Sum([]) == 0
  {
  }

  lemma ShareIs(recent: int, peak: nat)
    requires peak > 0
    ensures Product(PeakShare(recent, peak), (4 * peak) as real) == (100 * recent) as real
  {
    var quarter := recent as real / 4.0;
    var share := quarter / peak as real;
    assert share * peak as real == quarter;
    assert share * 100.0 * (4.0 * peak as real) == 400.0 * (share * peak as real);
  }

  /** Index and trend, told from the weeks alone. */
  lemma DemandTells(series: seq<nat>)
    requires |series| >= 4
    ensures DemandOf(series).total == Sum(series)
    ensures DemandOf(series).Demand? ==> IsNearestPercentage(DemandOf(series).index, series)
    ensures DemandOf(series).Demand? ==> forall a: real, b: real :: IsBestLine(series, a, b) ==>
      Tells(DemandOf(series).trend, |series|, a, b)
  {
    hide IsBestLine, Tells, LinearTrend, Sum, Recent, PeakShare, Round, Peak, IsNearest, Product;
    DemandNeedsThreeSignals(series);
    if DemandOf(series).Demand? {
      var peak := Peak(series);
      LastFour(series);
      ShareIs(Sum(Recent(series)), peak);
      RoundIsNearest(100 * Sum(Recent(series)), 4 * peak, PeakShare(Sum(Recent(series)), peak));
      assert IsPeak(peak, series) && IsNearest(DemandOf(series).index, 100 * Sum(Recent(series)), 4 * peak);
      forall a: real, b: real | IsBestLine(series, a, b) ensures Tells(LinearTrend(series), |series|, a, b) {
        TrendTells(series, a, b);
      }
    }
  }

  /** n weeks at the peak. */
  function AllPeak(n: nat, peak: nat): nat {
    n * peak
  }

  lemma AllPeakStep(n: nat, peak: nat)
    ensures AllPeak(0, peak) == 0 == AllPeak(n, 0)
    ensures AllPeak(n + 1, peak) == AllPeak(n, peak) + peak
    ensures n <= RECENT_WEEKS ==> AllPeak(n, peak) <= RECENT_WEEKS * peak
  {
    if n <= RECENT_WEEKS {
      assert (RECENT_WEEKS - n) * peak >= 0;
    }
  }

  lemma {:induction false} SumBounds(series: seq<nat>, peak: nat)
    requires forall i :: 0 <= i < |series| ==> series[i] <= peak
    ensures 0 <= Sum(series) <= AllPeak(|series|, peak)
    ensures (forall i :: 0 <= i < |series| ==> series[i] == peak) ==> Sum(series) == AllPeak(|series|, peak)
  {
    hide AllPeak;
    if series == [] {
      AllPeakStep(0, peak);
    } else {
      SumBounds(series[..|series| - 1], peak);
      AllPeakStep(|series| - 1, peak);
    }
  }

  lemma RoundKeepsBounds(x: real, lo: int, hi: int)
    requires lo as real <= x <= hi as real
    ensures lo <= Round(x) <= hi
  {
  }

  lemma Quarter(recent: real, peak: real)
    requires peak > 0.0 && 0.0 <= recent <= 4.0 * peak
    ensures 0.0 <= recent / 4.0 / peak * 100.0 <= 100.0
    ensures recent == 4.0 * peak ==> recent / 4.0 / peak * 100.0 == 100.0
  {
    var quarter := recent / 4.0;
    var share := quarter / peak;
    assert share * peak == quarter;
    assert share >= 0.0;
    assert (1.0 - share) * peak >= 0.0;
    assert share <= 1.0;
    if quarter == peak {
      assert (share - 1.0) * peak >= 0.0;
      assert share >= 1.0;
    }
  }

  /** The last four weeks never exceed four times the peak, so the index is a percentage and its cap never binds. */
  lemma IndexIsAPercentage(series: seq<nat>)
    requires Peak(series) > 0
    ensures 0 <= RawIndex(series) <= 100
    ensures |series| >= RECENT_WEEKS
      && (forall i :: |series| - RECENT_WEEKS <= i < |series| ==> series[i] == Peak(series))
      ==> RawIndex(series) == 100
  {
    hide AllPeak, Sum, Round, Peak;
    var recent, peak := Recent(series), Peak(series);
    SumBounds(recent, peak);
    AllPeakStep(|recent|, peak);
    AllPeakStep(3, peak);
    AllPeakStep(2, peak);
    AllPeakStep(1, peak);
    AllPeakStep(0, peak);
    Quarter(Sum(recent) as real, peak as real);
    assert RECENT_WEEKS as real == 4.0;
    hide Recent;
    RoundKeepsBounds(PeakShare(Sum(recent), peak), 0, 100);
    if Sum(recent) == RECENT_WEEKS * peak {
      RoundKeepsBounds(PeakShare(Sum(recent), peak), 100, 100);
    }
  }

  /** Demand is estimated exactly from three signals on; the other guard, a zero peak, never decides. */
  lemma DemandNeedsThreeSignals(series: seq<nat>)
    ensures Sum(series) >= 0
    ensures DemandOf(series).Demand? <==> Sum(series) >= MIN_SIGNAL
    ensures DemandOf(series).Demand? ==> 0 <= DemandOf(series).index <= 100
    ensures DemandOf(series).Demand? ==> DemandOf(series).index == RawIndex(series)
  {
    SumBounds(series, Peak(series));
    if Peak(series) == 0 {
      AllPeakStep(|series|, 0);
    } else {
      IndexIsAPercentage(series);
    }
  }
}
