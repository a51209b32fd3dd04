/** The weekly rental market report and the price snapshots behind it (backend/analytics/market_report.py). */
module MarketReport {
  import opened Common
  import Forecast

  const HISTORY_WEEKS := 26

  // ---------------------------------------------------------------- tables

  /** The price columns shared by a live `MarketStat` and its weekly snapshot. */
  datatype Stat = Stat(avg: real, median: real, size: int)

  datatype Segment = Segment(roomType: string, stat: Stat)

  /** The unique key of a snapshot; `week` is the proleptic ordinal of `week_start`. */
  datatype Key = Key(area: string, roomType: string, week: int)

  /** The Monday of the week a day lies in; ordinal 1, the first of January of year 1, is a Monday. */
  function Monday(day: int): int {
    day - (day + 6) % 7
  }

  predicate IsMonday(day: int) {
    (day + 6) % 7 == 0
  }

  // ---------------------------------------------------------------- averages

  datatype Attr = AvgPrice | MedianPrice

  function Price(stat: Stat, attr: Attr): real {
    match attr
    case AvgPrice => stat.avg
    case MedianPrice => stat.median
  }

  datatype Measure = Weight | Worth(attr: Attr)

  function Part(stat: Stat, measure: Measure): real {
    if stat.size <= 0 then 0.0
    else if measure.Weight? then stat.size as real
    else Price(stat, measure.attr) * stat.size as real
  }

  function ListTotal(segments: seq<Segment>, measure: Measure): real {
    if segments == [] then 0.0
    else ListTotal(segments[..|segments| - 1], measure) + Part(segments[|segments| - 1].stat, measure)
  }

  /** `_weighted_average`; only segments with samples count, and without any there is no average. */
  function WeightedAverage(segments: seq<Segment>, attr: Attr): Option<real> {
    if forall i :: 0 <= i < |segments| ==> segments[i].stat.size <= 0 then None
    else
      TotalIsPositive(segments);
      Some(ListTotal(segments, Worth(attr)) / ListTotal(segments, Weight))
  }

  lemma {:induction false} TotalIsPositive(segments: seq<Segment>)
    ensures ListTotal(segments, Weight) >= 0.0
    ensures ListTotal(segments, Weight) > 0.0 <==> exists i :: 0 <= i < |segments| && segments[i].stat.size > 0
  {
    if segments != [] {
      var before := segments[..|segments| - 1];
      TotalIsPositive(before);
      if i :| 0 <= i < |before| && before[i].stat.size > 0 {
        assert segments[i].stat.size > 0;
      }
      if i :| 0 <= i < |segments| && segments[i].stat.size > 0 {
        assert i < |before| ==> before[i].stat.size > 0;
      }
    }
  }

  lemma BoundsAdd(bound: real, w1: real, w2: real)
    ensures bound * (w1 + w2) == bound * w1 + bound * w2
  {
  }

  lemma {:induction false} TotalsAreBounded(segments: seq<Segment>, attr: Attr, lo: real, hi: real)
    requires forall i :: 0 <= i < |segments| && segments[i].stat.size > 0 ==> lo <= Price(segments[i].stat, attr) <= hi
    ensures lo * ListTotal(segments, Weight) <= ListTotal(segments, Worth(attr)) <= hi * ListTotal(segments, Weight)
  {
    hide Part, Price;
    if segments != [] {
      var n := |segments| - 1;
      TotalsAreBounded(segments[..n], attr, lo, hi);
      PartIsBounded(segments[n].stat, attr, lo, hi);
      BoundsAdd(lo, ListTotal(segments[..n], Weight), Part(segments[n].stat, Weight));
      BoundsAdd(hi, ListTotal(segments[..n], Weight), Part(segments[n].stat, Weight));
      assert ListTotal(segments, Weight) == ListTotal(segments[..n], Weight) + Part(segments[n].stat, Weight);
      hide ListTotal;
    }
  }

  lemma PartIsBounded(stat: Stat, attr: Attr, lo: real, hi: real)
    requires stat.size > 0 ==> lo <= Price(stat, attr) <= hi
    ensures lo * Part(stat, Weight) <= Part(stat, Worth(attr)) <= hi * Part(stat, Weight)
  {
    if stat.size > 0 {
      var p, w := Price(stat, attr), stat.size as real;
      assert (p - lo) * w >= 0.0 && (hi - p) * w >= 0.0;
    }
  }

  lemma QuotientIsBounded(worth: real, weight: real, lo: real, hi: real)
    requires weight > 0.0 && lo * weight <= worth <= hi * weight
    ensures lo <= worth / weight <= hi
  {
    var q := worth / weight;
    assert q * weight == worth;
  }

  /** The area's number lies between its smallest and its largest segment with samples. */
  lemma AverageIsBetweenExtremes(segments: seq<Segment>, attr: Attr, lo: real, hi: real)
    requires forall i :: 0 <= i < |segments| && segments[i].stat.size > 0 ==> lo <= Price(segments[i].stat, attr) <= hi
    ensures WeightedAverage(segments, attr).Some? ==> lo <= WeightedAverage(segments, attr).value <= hi
  {
    if WeightedAverage(segments, attr).Some? {
      TotalIsPositive(segments);
      TotalsAreBounded(segments, attr, lo, hi);
      QuotientIsBounded(ListTotal(segments, Worth(attr)), ListTotal(segments, Weight), lo, hi);
    }
  }

  // ---------------------------------------------------------------- averages do not depend on the order of the list

  ghost function MapTotal(stats: map<string, Stat>, measure: Measure): real
    decreases |stats|
  {
    if stats == map[] then 0.0
    else
      var k :| k in stats;
      MapTotal(stats - {k}, measure) + Part(stats[k], measure)
  }

  lemma {:induction false} MapTotalWithout(stats: map<string, Stat>, measure: Measure, k: string)
    requires k in stats
    ensures MapTotal(stats, measure) == MapTotal(stats - {k}, measure) + Part(stats[k], measure)
    decreases |stats|
  {
    hide Part;
    var first :| first in stats && MapTotal(stats, measure)
      == MapTotal(stats - {first}, measure) + Part(stats[first], measure);
    if first != k {
      MapTotalWithout(stats - {first}, measure, k);
      MapTotalWithout(stats - {k}, measure, first);
      assert stats - {first} - {k} == stats - {k} - {first};
    }
  }

  /** The list holds each entry of the map once, in some order. */
  ghost predicate Lists(segments: seq<Segment>, stats: map<string, Stat>) {
    && (forall i :: 0 <= i < |segments| ==>
      segments[i].roomType in stats && stats[segments[i].roomType] == segments[i].stat)
    && (forall i, j :: 0 <= i < j < |segments| ==> segments[i].roomType != segments[j].roomType)
    && (forall t :: t in stats ==> exists i :: 0 <= i < |segments| && segments[i].roomType == t)
  }

  lemma {:induction false} ListTotalIsMapTotal(segments: seq<Segment>, stats: map<string, Stat>, measure: Measure)
    requires Lists(segments, stats)
    ensures ListTotal(segments, measure) == MapTotal(stats, measure)
  {
    hide Part;
    if segments == [] {
      assert stats == map[];
    } else {
      var n := |segments| - 1;
      var last := segments[n];
      var rest := stats - {last.roomType};
      forall t | t in rest ensures exists i :: 0 <= i < n && segments[..n][i].roomType == t {
        var i :| 0 <= i < |segments| && segments[i].roomType == t;
        assert segments[..n][i].roomType == t;
      }
      ListTotalIsMapTotal(segments[..n], rest, measure);
      MapTotalWithout(stats, measure, last.roomType);
    }
  }

  /** The weighted average of a table of segments, in whatever order they come. */
  ghost function Average(stats: map<string, Stat>, attr: Attr): Option<real> {
    if MapTotal(stats, Weight) == 0.0 then None else Some(MapTotal(stats, Worth(attr)) / MapTotal(stats, Weight))
  }

  lemma WeightedAverageIsAverage(segments: seq<Segment>, stats: map<string, Stat>, attr: Attr)
    requires Lists(segments, stats)
    ensures WeightedAverage(segments, attr) == Average(stats, attr)
  {
    ListTotalIsMapTotal(segments, stats, Weight);
    ListTotalIsMapTotal(segments, stats, Worth(attr));
    TotalIsPositive(segments);
    hide ListTotal, MapTotal;
  }

  // ---------------------------------------------------------------- history

  /** The history rows that `_previous_week_stats` looks at. */
  predicate InHistory(key: Key, area: string, week: int) {
    key.area == area && week - 7 * HISTORY_WEEKS <= key.week < week
  }

  /** The newest row of its room type in the history. */
  ghost predicate IsLatest(snapshots: map<Key, Stat>, area: string, week: int, key: Key) {
    && key in snapshots && InHistory(key, area, week)
    && forall other :: other in snapshots && InHistory(other, area, week) && other.roomType == key.roomType ==>
      other.week <= key.week
  }

  /** The latest prior stat of each room type seen in the history. */
  ghost function Latest(snapshots: map<Key, Stat>, area: string, week: int): map<string, Stat> {
    map key | key in snapshots && IsLatest(snapshots, area, week, key) :: key.roomType := snapshots[key]
  }

  lemma {:induction false} SomeRowIsNewest(keys: set<Key>)
    requires keys != {}
    ensures exists key :: key in keys && forall other :: other in keys ==> other.week <= key.week
  {
    var any :| any in keys;
    if keys == {any} {
    } else {
      SomeRowIsNewest(keys - {any});
      var best :| best in keys - {any} && forall other :: other in keys - {any} ==> other.week <= best.week;
      var newest := if best.week >= any.week then best else any;
      assert newest in keys && forall other :: other in keys ==> other.week <= newest.week;
    }
  }

  /** Every room type seen in the history has a latest stat, and no other has. */
  lemma LatestCoversHistory(snapshots: map<Key, Stat>, area: string, week: int, t: string)
    ensures t in Latest(snapshots, area, week)
      <==> exists key :: key in snapshots && InHistory(key, area, week) && key.roomType == t
  {
    var rows := set key | key in snapshots && InHistory(key, area, week) && key.roomType == t;
    if key :| key in snapshots && InHistory(key, area, week) && key.roomType == t {
      assert key in rows;
      SomeRowIsNewest(rows);
      var newest :| newest in rows && forall other :: other in rows ==> other.week <= newest.week;
      assert newest in snapshots && IsLatest(snapshots, area, week, newest);
      assert newest.roomType in Latest(snapshots, area, week);
    }
    if t in Latest(snapshots, area, week) {
      var key :| key in snapshots && IsLatest(snapshots, area, week, key) && key.roomType == t;
      assert key in rows;
    }
  }

  /** Only the rows of the history matter. */
  lemma LatestDependsOnHistory(one: map<Key, Stat>, two: map<Key, Stat>, area: string, week: int)
    requires forall key :: InHistory(key, area, week) ==> (key in one <==> key in two)
    requires forall key :: InHistory(key, area, week) && key in one ==> one[key] == two[key]
    ensures Latest(one, area, week) == Latest(two, area, week)
  {
    forall key ensures IsLatest(one, area, week, key) <==> IsLatest(two, area, week, key) {
    }
  }

  // ---------------------------------------------------------------- the report

  /** Catalogue availability and demand, passed through to the row. */
  datatype Context = Context(available: nat, total: nat, demand: Forecast.Demand)

  datatype Row = Row(area: string, avgPrice: Option<int>, medianPrice: Option<int>, sampleSize: int, context: Context,
                     prevAvg: Option<int>, change: Option<real>)

  datatype Report = Report(week: int, baseline: bool, rows: seq<Row>)

  function Rounded(x: Option<real>): Option<int> {
    if x.None? then None else Some(Forecast.Round(x.value))
  }

  /** `_movement`: percent to one decimal; unknown against nothing or against zero. */
  function Movement(current: Option<real>, previous: Option<real>): Option<real> {
    if current.None? || previous.None? || previous.value == 0.0 then None
    else Some(Forecast.Round((current.value - previous.value) / previous.value * 100.0 * 10.0) as real / 10.0)
  }

  function Samples(segments: seq<Segment>): int {
    if segments == [] then 0 else Samples(segments[..|segments| - 1]) + segments[|segments| - 1].stat.size
  }

  function NewRow(area: string, segments: seq<Segment>, context: Context, prior: Option<real>): Row {
    var avg := WeightedAverage(segments, AvgPrice);
    Row(area, Rounded(avg), Rounded(WeightedAverage(segments, MedianPrice)), Samples(segments), context,
        Rounded(prior), Movement(avg, prior))
  }

  ghost function PriorAverage(snapshots: map<Key, Stat>, area: string, week: int): Option<real> {
    Average(Latest(snapshots, area, week), AvgPrice)
  }

  /** The live tables: `MarketStat` rows by area, and what surrounds them. */
  datatype Live = Live(areas: seq<string>, segments: string -> seq<Segment>, context: string -> Context)

  ghost function RowsOf(snapshots: map<Key, Stat>, week: int, live: Live): seq<Row> {
    seq(|live.areas|, i requires 0 <= i < |live.areas| =>
      NewRow(live.areas[i], live.segments(live.areas[i]), live.context(live.areas[i]),
        PriorAverage(snapshots, live.areas[i], week)))
  }

  ghost predicate Baseline(snapshots: map<Key, Stat>, week: int) {
    forall key :: key in snapshots ==> key.week >= week
  }

  /** The report of the week starting on a given Monday, over one state of the history. */
  ghost function ReportOf(snapshots: map<Key, Stat>, week: int, live: Live): Report {
    Report(week, Baseline(snapshots, week), RowsOf(snapshots, week, live))
  }

  /** `update_or_create` for each segment of one area. */
  function Upserted(snapshots: map<Key, Stat>, area: string, week: int, segments: seq<Segment>): map<Key, Stat> {
    if segments == [] then snapshots
    else
      var last := segments[|segments| - 1];
      Upserted(snapshots, area, week, segments[..|segments| - 1])[Key(area, last.roomType, week) := last.stat]
  }

  function Persisted(snapshots: map<Key, Stat>, week: int, areas: seq<string>, live: Live): map<Key, Stat> {
    if areas == [] then snapshots
    else
      var last := areas[|areas| - 1];
      Upserted(Persisted(snapshots, week, areas[..|areas| - 1], live), last, week, live.segments(last))
  }

  predicate HasType(segments: seq<Segment>, t: string) {
    exists i :: 0 <= i < |segments| && segments[i].roomType == t
  }

  /** The rows that a weekly snapshot writes. */
  predicate Written(key: Key, week: int, areas: seq<string>, live: Live) {
    key.week == week && key.area in areas && HasType(live.segments(key.area), key.roomType)
  }

  lemma TypeStays(segments: seq<Segment>, t: string, added: Segment)
    ensures HasType(segments + [added], t) <==> HasType(segments, t) || added.roomType == t
  {
    var more := segments + [added];
    assert more[|segments|] == added;
    assert forall i :: 0 <= i < |segments| ==> more[i] == segments[i];
  }

  /** An upsert replaces the rows it names, whatever they held, and no others. */
  lemma {:induction false} UpsertedAt(one: map<Key, Stat>, two: map<Key, Stat>, area: string, week: int,
      segments: seq<Segment>, key: Key)
    ensures key.area == area && key.week == week && HasType(segments, key.roomType)
      ==> key in Upserted(one, area, week, segments) && key in Upserted(two, area, week, segments)
          && Upserted(one, area, week, segments)[key] == Upserted(two, area, week, segments)[key]
    ensures !(key.area == area && key.week == week && HasType(segments, key.roomType))
      ==> (key in Upserted(one, area, week, segments) <==> key in one)
          && (key in one ==> Upserted(one, area, week, segments)[key] == one[key])
  {
    if segments != [] {
      var before := segments[..|segments| - 1];
      UpsertedAt(one, two, area, week, before, key);
      TypeStays(before, key.roomType, segments[|segments| - 1]);
      assert segments == before + [segments[|segments| - 1]];
    }
  }

  lemma {:induction false} PersistedAt(one: map<Key, Stat>, two: map<Key, Stat>, week: int, areas: seq<string>,
      live: Live, key: Key)
    ensures Written(key, week, areas, live)
      ==> key in Persisted(one, week, areas, live) && key in Persisted(two, week, areas, live)
          && Persisted(one, week, areas, live)[key] == Persisted(two, week, areas, live)[key]
    ensures !Written(key, week, areas, live)
      ==> (key in Persisted(one, week, areas, live) <==> key in one)
          && (key in one ==> Persisted(one, week, areas, live)[key] == one[key])
  {
    hide HasType, Upserted;
    if areas != [] {
      var before, last := areas[..|areas| - 1], areas[|areas| - 1];
      PersistedAt(one, two, week, before, live, key);
      var first, second := Persisted(one, week, before, live), Persisted(two, week, before, live);
      UpsertedAt(first, second, last, week, live.segments(last), key);
      if key.area != last {
        UpsertedAt(second, first, last, week, live.segments(last), key);
      }
    }
  }

  /** Writing a week's snapshot changes no prior average of that week or of an earlier one. */
  lemma PersistKeepsPrior(snapshots: map<Key, Stat>, week: int, areas: seq<string>, live: Live, area: string,
      current: int)
    requires current <= week
    ensures PriorAverage(Persisted(snapshots, week, areas, live), area, current)
      == PriorAverage(snapshots, area, current)
  {
    hide Persisted;
    forall key | InHistory(key, area, current)
      ensures key in Persisted(snapshots, week, areas, live) <==> key in snapshots
      ensures key in snapshots ==> Persisted(snapshots, week, areas, live)[key] == snapshots[key]
    {
      PersistedAt(snapshots, snapshots, week, areas, live, key);
    }
    LatestDependsOnHistory(Persisted(snapshots, week, areas, live), snapshots, area, current);
  }

  lemma UpsertOfNothing(snapshots: map<Key, Stat>, area: string, week: int)
    ensures Upserted(snapshots, area, week, []) == snapshots
  {
  }

  /**
   * Nothing written for a week, whatever the live tables then held, changes a report of that week or an
   * earlier one.
   */
  lemma ReportIgnoresLaterSnapshot(snapshots: map<Key, Stat>, written: int, areas: seq<string>, earlier: Live,
      current: int, live: Live)
    requires current <= written
    ensures ReportOf(Persisted(snapshots, written, areas, earlier), current, live) == ReportOf(snapshots, current, live)
  {
    hide Persisted, Latest, Average, NewRow;
    var after := Persisted(snapshots, written, areas, earlier);
    forall key: Key | key.week < current ensures key in after <==> key in snapshots {
      PersistedAt(snapshots, snapshots, written, areas, earlier, key);
    }
    forall area ensures PriorAverage(after, area, current) == PriorAverage(snapshots, area, current) {
      PersistKeepsPrior(snapshots, written, areas, earlier, area, current);
    }
  }

  // ---------------------------------------------------------------- writing a week twice

  /** Writing the same week twice leaves the table as writing it once does. */
  lemma PersistTwice(snapshots: map<Key, Stat>, week: int, areas: seq<string>, live: Live)
    ensures Persisted(Persisted(snapshots, week, areas, live), week, areas, live)
      == Persisted(snapshots, week, areas, live)
  {
    hide Persisted, Written;
    var once := Persisted(snapshots, week, areas, live);
    forall key: Key
      ensures key in Persisted(once, week, areas, live) <==> key in once
      ensures key in once ==> Persisted(once, week, areas, live)[key] == once[key]
    {
      PersistedAt(once, snapshots, week, areas, live, key);
    }
  }

  /** The row at k is the first of its room type, and gives the segment. */
  ghost predicate IsFirst(snapshots: map<Key, Stat>, rows: seq<Key>, k: int, segment: Segment) {
    && 0 <= k < |rows| && rows[k] in snapshots
    && segment == Segment(rows[k].roomType, snapshots[rows[k]])
    && forall j :: 0 <= j < k ==> rows[j].roomType != rows[k].roomType
  }

  ghost predicate ComesFirst(snapshots: map<Key, Stat>, rows: seq<Key>, segment: Segment) {
    exists k :: IsFirst(snapshots, rows, k, segment)
  }

  /** One segment for each room type among the rows, from its first row. */
  ghost predicate AreFirsts(snapshots: map<Key, Stat>, rows: seq<Key>, segments: seq<Segment>) {
    && (forall i :: 0 <= i < |segments| ==> ComesFirst(snapshots, rows, segments[i]))
    && (forall i, j :: 0 <= i < j < |segments| ==> segments[i].roomType != segments[j].roomType)
    && (forall k :: 0 <= k < |rows| ==> HasType(segments, rows[k].roomType))
  }

  lemma FirstStays(snapshots: map<Key, Stat>, rows: seq<Key>, segment: Segment, row: Key)
    requires ComesFirst(snapshots, rows, segment)
    ensures ComesFirst(snapshots, rows + [row], segment)
  {
    var k :| IsFirst(snapshots, rows, k, segment);
    assert IsFirst(snapshots, rows + [row], k, segment);
  }

  lemma FirstsStep(snapshots: map<Key, Stat>, rows: seq<Key>, segments: seq<Segment>, row: Key)
    requires AreFirsts(snapshots, rows, segments) && row in snapshots
    ensures HasType(segments, row.roomType) ==> AreFirsts(snapshots, rows + [row], segments)
    ensures !HasType(segments, row.roomType) ==>
      AreFirsts(snapshots, rows + [row], segments + [Segment(row.roomType, snapshots[row])])
  {
    var added := Segment(row.roomType, snapshots[row]);
    forall i | 0 <= i < |segments| ensures ComesFirst(snapshots, rows + [row], segments[i]) {
      FirstStays(snapshots, rows, segments[i], row);
    }
    forall t ensures HasType(segments + [added], t) <==> HasType(segments, t) || added.roomType == t {
      TypeStays(segments, t, added);
    }
    if !HasType(segments, row.roomType) {
      assert forall k :: 0 <= k < |rows| ==> HasType(segments, rows[k].roomType);
      assert IsFirst(snapshots, rows + [row], |rows|, added);
      assert forall i :: 0 <= i < |segments| ==> segments[i].roomType != row.roomType;
      hide HasType;
      assert ComesFirst(snapshots, rows + [row], added);
      hide ComesFirst;
    }
  }

  /** Met newest first, the first row of a room type is its latest. */
  lemma FirstsAreLatest(snapshots: map<Key, Stat>, area: string, week: int, rows: seq<Key>, segments: seq<Segment>)
    requires forall key :: key in rows <==> key in snapshots && InHistory(key, area, week)
    requires forall i, j :: 0 <= i < j < |rows| ==> rows[i] != rows[j] && rows[i].week >= rows[j].week
    requires AreFirsts(snapshots, rows, segments)
    ensures Lists(segments, Latest(snapshots, area, week))
  {
    hide InHistory;
    var stats := Latest(snapshots, area, week);
    forall i | 0 <= i < |segments|
      ensures segments[i].roomType in stats && stats[segments[i].roomType] == segments[i].stat
    {
      assert ComesFirst(snapshots, rows, segments[i]);
      var k :| IsFirst(snapshots, rows, k, segments[i]);
      FirstIsLatest(snapshots, area, week, rows, k, segments[i]);
    }
    forall t | t in stats ensures HasType(segments, t) {
      LatestCoversHistory(snapshots, area, week, t);
      var key :| key in snapshots && InHistory(key, area, week) && key.roomType == t;
      assert key in rows;
    }
  }

  lemma NewestIsLatest(snapshots: map<Key, Stat>, area: string, week: int, row: Key)
    requires row in snapshots && IsLatest(snapshots, area, week, row)
    ensures row.roomType in Latest(snapshots, area, week)
    ensures Latest(snapshots, area, week)[row.roomType] == snapshots[row]
  {
  }

  lemma FirstIsLatest(snapshots: map<Key, Stat>, area: string, week: int, rows: seq<Key>, k: int, segment: Segment)
    requires forall key :: key in rows <==> key in snapshots && InHistory(key, area, week)
    requires forall i, j :: 0 <= i < j < |rows| ==> rows[i] != rows[j] && rows[i].week >= rows[j].week
    requires IsFirst(snapshots, rows, k, segment)
    ensures segment.roomType in Latest(snapshots, area, week)
    ensures Latest(snapshots, area, week)[segment.roomType] == segment.stat
  {
    hide InHistory, Latest;
    var row := rows[k];
    assert row in rows;
    forall other | other in snapshots && InHistory(other, area, week) && other.roomType == row.roomType
      ensures other.week <= row.week
    {
      assert other in rows;
      var j :| 0 <= j < |rows| && rows[j] == other;
      assert j >= k;
    }
    NewestIsLatest(snapshots, area, week, row);
  }

  class MarketReporter {
    /** The `AreaPriceSnapshot` table. */
    var snapshots: map<Key, Stat>

    constructor ()
      ensures snapshots == map[]
    {
      snapshots := map[];
    }

    /** The history rows of one area, newest first; rows of one week come in any order. */
    method QueryHistory(area: string, week: int) returns (rows: seq<Key>)
      ensures forall key :: key in rows <==> key in snapshots && InHistory(key, area, week)
      ensures forall i, j :: 0 <= i < j < |rows| ==> rows[i] != rows[j] && rows[i].week >= rows[j].week
    {
      hide InHistory;
      var left := set key | key in snapshots && InHistory(key, area, week);
      rows := [];
      while left != {}
        invariant forall key :: key in rows || key in left <==> key in snapshots && InHistory(key, area, week)
        invariant forall key :: key in left ==> key !in rows
        invariant forall i, key :: 0 <= i < |rows| && key in left ==> rows[i].week >= key.week
        invariant forall i, j :: 0 <= i < j < |rows| ==> rows[i] != rows[j] && rows[i].week >= rows[j].week
        decreases |left|
      {
        SomeRowIsNewest(left);
        var newest :| newest in left && forall other :: other in left ==> other.week <= newest.week;
        rows := rows + [newest];
        left := left - {newest};
      }
    }

    /** `_previous_week_stats`: the first row met of each room type is its latest. */
    method PreviousWeekStats(area: string, week: int) returns (avg: Option<real>, median: Option<real>)
      ensures avg == Average(Latest(snapshots, area, week), AvgPrice)
      ensures median == Average(Latest(snapshots, area, week), MedianPrice)
    {
      hide *;
      var prior := QueryHistory(area, week);
      var latest := FirstOfEachType(prior);
      FirstsAreLatest(snapshots, area, week, prior, latest);
      WeightedAverageIsAverage(latest, Latest(snapshots, area, week), AvgPrice);
      WeightedAverageIsAverage(latest, Latest(snapshots, area, week), MedianPrice);
      avg := WeightedAverage(latest, AvgPrice);
      median := WeightedAverage(latest, MedianPrice);
    }

    /** The `setdefault` loop: a dictionary in insertion order. */
    method FirstOfEachType(prior: seq<Key>) returns (latest: seq<Segment>)
      requires forall key :: key in prior ==> key in snapshots
      ensures AreFirsts(snapshots, prior, latest)
    {
      latest := [];
      for n := 0 to |prior|
        invariant AreFirsts(snapshots, prior[..n], latest)
      {
        var row := prior[n];
        assert prior[..n + 1] == prior[..n] + [row];
        FirstsStep(snapshots, prior[..n], latest, row);
        if !HasType(latest, row.roomType) {
          latest := latest + [Segment(row.roomType, snapshots[row])];
        }
      }
      assert prior[..|prior|] == prior;
    }

    /** `_compute_report`: each area's row is computed, then its segments upserted, one area after another. */
    method ComputeReport(persist: bool, today: int, live: Live) returns (report: Report)
      modifies this
      ensures report == ReportOf(old(snapshots), Monday(today), live)
      ensures snapshots == if persist then Persisted(old(snapshots), Monday(today), live.areas, live)
        else old(snapshots)
    {
      hide Average, Upserted, Latest, NewRow;
      var week := Monday(today);
      var baseline := forall key :: key in snapshots ==> key.week >= week;
      var rows: seq<Row> := [];
      for n := 0 to |live.areas|
        invariant rows == RowsOf(old(snapshots), week, live)[..n]
        invariant snapshots == if persist then Persisted(old(snapshots), week, live.areas[..n], live)
          else old(snapshots)
      {
        var area := live.areas[n];
        var segments := live.segments(area);
        PersistKeepsPrior(old(snapshots), week, live.areas[..n], live, area, week);
        var avg, median := PreviousWeekStats(area, week);
        if persist && segments != [] {
          UpsertSegments(area, week, segments);
        } else if persist {
          UpsertOfNothing(snapshots, area, week);
        }
        assert live.areas[..n + 1][..n] == live.areas[..n];
        rows := rows + [NewRow(area, segments, live.context(area), avg)];
      }
      assert live.areas[..|live.areas|] == live.areas;
      report := Report(week, baseline, rows);
    }

    method UpsertSegments(area: string, week: int, segments: seq<Segment>)
      modifies this
      ensures snapshots == Upserted(old(snapshots), area, week, segments)
    {
      for n := 0 to |segments|
        invariant snapshots == Upserted(old(snapshots), area, week, segments[..n])
      {
        snapshots := snapshots[Key(area, segments[n].roomType, week) := segments[n].stat];
        assert segments[..n + 1][..n] == segments[..n];
      }
      assert segments[..|segments|] == segments;
    }

    /** `build_report`: the public read path. */
    method BuildReport(today: int, live: Live) returns (report: Report)
      modifies this
      ensures snapshots == old(snapshots)
      ensures report == ReportOf(snapshots, Monday(today), live)
    {
      report := ComputeReport(false, today, live);
    }

    /** `generate_report`, without the e-mails. */
    method GenerateReport(today: int, live: Live) returns (report: Report)
      modifies this
      ensures report == ReportOf(old(snapshots), Monday(today), live)
      ensures snapshots == Persisted(old(snapshots), Monday(today), live.areas, live)
    {
      report := ComputeReport(true, today, live);
    }

    /** Reading, generating and generating again in one week: one report, one snapshot. */
    method ThreeReports(first: int, second: int, third: int, live: Live) returns (a: Report, b: Report, c: Report)
      requires Monday(first) == Monday(second) == Monday(third)
      modifies this
      ensures a == b == c
      ensures snapshots == Persisted(old(snapshots), Monday(first), live.areas, live)
    {
      a := BuildReport(first, live);
      b := GenerateReport(second, live);
      c := GenerateReport(third, live);
      ReportIgnoresLaterSnapshot(old(snapshots), Monday(first), live.areas, live, Monday(first), live);
      PersistTwice(old(snapshots), Monday(first), live.areas, live);
    }
  }
}
