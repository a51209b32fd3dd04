/** What next week's market report sees of this week's snapshot. */
module MarketHistory {
  import opened Common
  import opened MarketReport

  predicate DistinctTypes(segments: seq<Segment>) {
    forall i, j :: 0 <= i < j < |segments| ==> segments[i].roomType != segments[j].roomType
  }

  /** Every snapshot is filed under a Monday. */
  ghost predicate FiledOnMondays(snapshots: map<Key, Stat>) {
    forall key :: key in snapshots ==> IsMonday(key.week)
  }

  /** The room types an area shows in the history of a week all have a live segment. */
  ghost predicate Covers(segments: seq<Segment>, snapshots: map<Key, Stat>, area: string, week: int) {
    forall key :: key in snapshots && InHistory(key, area, week) ==> HasType(segments, key.roomType)
  }

  lemma MondayIsMonday(day: int)
    ensures IsMonday(Monday(day)) && Monday(day) <= day < Monday(day) + 7
    ensures Monday(day + 7) == Monday(day) + 7
  {
  }

  lemma PersistFilesOnMondays(snapshots: map<Key, Stat>, day: int, live: Live)
    requires FiledOnMondays(snapshots)
    ensures FiledOnMondays(Persisted(snapshots, Monday(day), live.areas, live))
  {
    hide Persisted;
    MondayIsMonday(day);
    forall key | key in Persisted(snapshots, Monday(day), live.areas, live) ensures IsMonday(key.week) {
      PersistedAt(snapshots, snapshots, Monday(day), live.areas, live, key);
    }
  }

  lemma {:induction false} UpsertedHolds(snapshots: map<Key, Stat>, area: string, week: int, segments: seq<Segment>,
      i: nat)
    requires DistinctTypes(segments) && i < |segments|
    ensures Key(area, segments[i].roomType, week) in Upserted(snapshots, area, week, segments)
    ensures Upserted(snapshots, area, week, segments)[Key(area, segments[i].roomType, week)] == segments[i].stat
  {
    if i < |segments| - 1 {
      UpsertedHolds(snapshots, area, week, segments[..|segments| - 1], i);
    }
  }

  lemma {:induction false} PersistedHolds(snapshots: map<Key, Stat>, week: int, areas: seq<string>, live: Live,
      area: string, i: nat)
    requires area in areas && DistinctTypes(live.segments(area)) && i < |live.segments(area)|
    ensures var key := Key(area, live.segments(area)[i].roomType, week);
      key in Persisted(snapshots, week, areas, live)
        && Persisted(snapshots, week, areas, live)[key] == live.segments(area)[i].stat
  {
    hide Upserted;
    var before, last := areas[..|areas| - 1], areas[|areas| - 1];
    var table := Persisted(snapshots, week, before, live);
    if last == area {
      UpsertedHolds(table, area, week, live.segments(area), i);
    } else {
      PersistedHolds(snapshots, week, before, live, area, i);
      UpsertedAt(table, table, last, week, live.segments(last), Key(area, live.segments(area)[i].roomType, week));
    }
  }

  lemma OnMondays(snapshots: map<Key, Stat>, week: int, live: Live, key: Key)
    requires FiledOnMondays(snapshots) && IsMonday(week)
    requires key in Persisted(snapshots, week, live.areas, live)
    ensures IsMonday(key.week) && (key.week < week + 7 ==> key.week <= week)
  {
    hide Persisted;
    PersistedAt(snapshots, snapshots, week, live.areas, live, key);
  }

  /** A week later, this week's row is the latest of its room type. */
  lemma ThisWeekIsLatest(snapshots: map<Key, Stat>, week: int, live: Live, area: string, i: nat)
    requires FiledOnMondays(snapshots) && IsMonday(week)
    requires area in live.areas && DistinctTypes(live.segments(area)) && i < |live.segments(area)|
    ensures var after := Persisted(snapshots, week, live.areas, live);
      var segment := live.segments(area)[i];
      segment.roomType in Latest(after, area, week + 7)
        && Latest(after, area, week + 7)[segment.roomType] == segment.stat
  {
    hide Persisted, Latest, Written;
    var after := Persisted(snapshots, week, live.areas, live);
    var row := Key(area, live.segments(area)[i].roomType, week);
    PersistedHolds(snapshots, week, live.areas, live, area, i);
    forall other | other in after && InHistory(other, area, week + 7) && other.roomType == row.roomType
      ensures other.week <= row.week
    {
      OnMondays(snapshots, week, live, other);
    }
    NewestIsLatest(after, area, week + 7, row);
  }

  /**
   * Next week's history shows exactly this week's live segments just when these cover every room
   * type of the last 26 weeks.
   */
  lemma NextWeekSeesThisWeekIff(snapshots: map<Key, Stat>, week: int, live: Live, area: string)
    requires FiledOnMondays(snapshots) && IsMonday(week)
    requires area in live.areas && DistinctTypes(live.segments(area))
    ensures var after := Persisted(snapshots, week, live.areas, live);
      Lists(live.segments(area), Latest(after, area, week + 7)) <==> Covers(live.segments(area), after, area, week + 7)
  {
    hide Persisted, InHistory, Latest;
    var after := Persisted(snapshots, week, live.areas, live);
    var segments, stats := live.segments(area), Latest(after, area, week + 7);
    forall i | 0 <= i < |segments|
      ensures segments[i].roomType in stats && stats[segments[i].roomType] == segments[i].stat
    {
      ThisWeekIsLatest(snapshots, week, live, area, i);
    }
    forall t ensures t in stats <==> exists key :: key in after && InHistory(key, area, week + 7) && key.roomType == t {
      LatestCoversHistory(after, area, week + 7, t);
    }
    if Lists(segments, stats) {
      forall key | key in after && InHistory(key, area, week + 7) ensures HasType(segments, key.roomType) {
        assert key.roomType in stats;
      }
    }
    if Covers(segments, after, area, week + 7) {
      forall t | t in stats ensures HasType(segments, t) {
      }
    }
  }

  /** Then next week's prior average is this week's weighted average. */
  lemma NextWeekComparesWithThisWeek(snapshots: map<Key, Stat>, week: int, live: Live, area: string)
    requires FiledOnMondays(snapshots) && IsMonday(week)
    requires area in live.areas && DistinctTypes(live.segments(area))
    requires Covers(live.segments(area), Persisted(snapshots, week, live.areas, live), area, week + 7)
    ensures PriorAverage(Persisted(snapshots, week, live.areas, live), area, week + 7)
         == WeightedAverage(live.segments(area), AvgPrice)
  {
    hide Persisted, Covers, Latest, Average, WeightedAverage;
    var after := Persisted(snapshots, week, live.areas, live);
    NextWeekSeesThisWeekIff(snapshots, week, live, area);
    WeightedAverageIsAverage(live.segments(area), Latest(after, area, week + 7), AvgPrice);
  }

  /** Prices that stay as they are for a week are reported as no movement. */
  lemma UnchangedPricesDoNotMove(snapshots: map<Key, Stat>, week: int, live: Live, i: nat)
    requires FiledOnMondays(snapshots) && IsMonday(week)
    requires i < |live.areas| && DistinctTypes(live.segments(live.areas[i]))
    requires Covers(live.segments(live.areas[i]), Persisted(snapshots, week, live.areas, live), live.areas[i], week + 7)
    ensures var row := ReportOf(Persisted(snapshots, week, live.areas, live), week + 7, live).rows[i];
      var avg := WeightedAverage(live.segments(live.areas[i]), AvgPrice);
      row.prevAvg == row.avgPrice
      && row.change == if avg.None? || avg.value == 0.0 then None else Some(0.0)
  {
    hide Persisted, Covers, PriorAverage, WeightedAverage, Movement;
    NextWeekComparesWithThisWeek(snapshots, week, live, live.areas[i]);
    NoMovement(WeightedAverage(live.segments(live.areas[i]), AvgPrice));
  }

  lemma NoMovement(avg: Option<real>)
    ensures Movement(avg, avg) == if avg.None? || avg.value == 0.0 then None else Some(0.0)
  {
    if avg.Some? && avg.value != 0.0 {
      assert (avg.value - avg.value) / avg.value == 0.0;
      assert Forecast.Round(0.0) == 0;
    }
  }

  // ---------------------------------------------------------------- what a row's numbers mean

  lemma ChangeQuotient(previous: real, k: int)
    requires previous != 0.0
    ensures (previous * (1.0 + k as real / 1000.0) - previous) / previous * 100.0 * 10.0 == k as real
  {
    var change := k as real / 1000.0;
    assert previous * (1.0 + change) - previous == previous * change;
    assert previous * change / previous == change;
  }

  lemma RoundOfWhole(k: int)
    ensures Forecast.Round(k as real) == k
  {
  }

  /** A price k thousandths above what it was is reported as k tenths of a percent; down is negative. */
  lemma MovementIsPercent(previous: real, k: int)
    requires previous != 0.0
    ensures Movement(Some(previous * (1.0 + k as real / 1000.0)), Some(previous)) == Some(k as real / 10.0)
  {
    ChangeQuotient(previous, k);
    RoundOfWhole(k);
  }

  /** There is a movement exactly between two averages, the earlier one not zero. */
  lemma MovementIff(current: Option<real>, previous: Option<real>)
    ensures Movement(current, previous).Some? <==> current.Some? && previous.Some? && previous.value != 0.0
  {
  }

  /** Every segment with samples has these prices. */
  ghost predicate Uniform(segments: seq<Segment>, avg: real, median: real) {
    && (exists i :: 0 <= i < |segments| && segments[i].stat.size > 0)
    && forall i :: 0 <= i < |segments| && segments[i].stat.size > 0 ==>
         segments[i].stat.avg == avg && segments[i].stat.median == median
  }

  /**
   * In an area where every segment with samples has the same prices, the row reports those prices, next
   * to the earlier average and the change from it.
   */
  lemma UniformAreaIsReported(area: string, segments: seq<Segment>, context: Context, previous: real, k: int,
      median: real)
    requires previous != 0.0 && Uniform(segments, previous * (1.0 + k as real / 1000.0), median)
    ensures var row := NewRow(area, segments, context, Some(previous));
      && row.avgPrice == Some(Forecast.Round(previous * (1.0 + k as real / 1000.0)))
      && row.medianPrice == Some(Forecast.Round(median))
      && row.prevAvg == Some(Forecast.Round(previous)) && row.change == Some(k as real / 10.0)
      && row.area == area && row.context == context
  {
    var avg := previous * (1.0 + k as real / 1000.0);
    AverageIsBetweenExtremes(segments, AvgPrice, avg, avg);
    AverageIsBetweenExtremes(segments, MedianPrice, median, median);
    MovementIsPercent(previous, k);
    hide Movement, Forecast.Round;
  }

  /** Samples are counted over all segments. */
  lemma SamplesAdd(segments: seq<Segment>, s: Segment)
    ensures Samples([]) == 0
    ensures Samples(segments + [s]) == Samples(segments) + s.stat.size
  {
    assert (segments + [s])[..|segments|] == segments;
  }

  /** A snapshot of the area's room type within the 182 days before a week. */
  predicate Prior(key: Key, area: string, week: int, t: string) {
    key.area == area && key.roomType == t && 0 < week - key.week <= 182
  }

  ghost predicate IsNewestPrior(snapshots: map<Key, Stat>, area: string, week: int, t: string, key: Key) {
    && key in snapshots && Prior(key, area, week, t)
    && forall other :: other in snapshots && Prior(other, area, week, t) ==> other.week <= key.week
  }

  /** A room type's latest stat is that of its newest snapshot within the half year before the week. */
  lemma LatestIsTheNewest(snapshots: map<Key, Stat>, area: string, week: int, t: string)
    ensures t in Latest(snapshots, area, week) ==>
      exists key :: IsNewestPrior(snapshots, area, week, t, key) && Latest(snapshots, area, week)[t] == snapshots[key]
    ensures t !in Latest(snapshots, area, week) ==> forall key :: key in snapshots ==> !Prior(key, area, week, t)
  {
    LatestCoversHistory(snapshots, area, week, t);
    forall key ensures Prior(key, area, week, t) <==> InHistory(key, area, week) && key.roomType == t {
    }
    if t in Latest(snapshots, area, week) {
      var key :| key in snapshots && IsLatest(snapshots, area, week, key) && key.roomType == t;
      assert IsNewestPrior(snapshots, area, week, t, key);
    }
  }

  /** Two segments of one price, with samples in both. */
  function SplitInTwo(segments: seq<Segment>, s: Segment, first: int): seq<Segment> {
    segments + [s.(stat := s.stat.(size := first)), s.(stat := s.stat.(size := s.stat.size - first))]
  }

  lemma TotalsOfMore(segments: seq<Segment>, s: Segment, measure: Measure)
    ensures ListTotal(segments + [s], measure) == ListTotal(segments, measure) + Part(s.stat, measure)
  {
    assert (segments + [s])[..|segments|] == segments;
  }

  lemma PartsAdd(stat: Stat, first: int, measure: Measure)
    requires 0 < first < stat.size
    ensures Part(stat, measure)
         == Part(stat.(size := first), measure) + Part(stat.(size := stat.size - first), measure)
  {
    if measure.Worth? {
      var price := Price(stat, measure.attr);
      assert price * stat.size as real == price * first as real + price * (stat.size - first) as real;
    }
  }

  /** Only samples weigh: dividing a segment in two changes neither the average nor the number of samples. */
  lemma SplittingChangesNothing(segments: seq<Segment>, s: Segment, first: int, attr: Attr)
    requires 0 < first < s.stat.size
    ensures WeightedAverage(SplitInTwo(segments, s, first), attr) == WeightedAverage(segments + [s], attr)
    ensures Samples(SplitInTwo(segments, s, first)) == Samples(segments + [s])
  {
    hide Part;
    var a, b := s.(stat := s.stat.(size := first)), s.(stat := s.stat.(size := s.stat.size - first));
    var all := SplitInTwo(segments, s, first);
    assert all == (segments + [a]) + [b];
    forall measure ensures ListTotal(all, measure) == ListTotal(segments + [s], measure) {
      TotalsOfMore(segments, s, measure);
      TotalsOfMore(segments, a, measure);
      TotalsOfMore(segments + [a], b, measure);
      PartsAdd(s.stat, first, measure);
    }
    assert (segments + [s])[|segments|].stat.size > 0 && all[|segments|].stat.size > 0;
    assert (segments + [s])[..|segments|] == segments;
    assert all[..|segments| + 1] == segments + [a] && (segments + [a])[..|segments|] == segments;
    hide ListTotal;
  }
}
