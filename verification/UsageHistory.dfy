/**
 The request history behind the dashboard (internal/policy/usage_history.go): the filter, the trend whose buckets must
 add up to the totals, and the pages of the event list. The queries are functions of the table's rows.
 */
module UsageHistory {
  import opened Wrappers
  import opened Strings
  import opened Int64
  import opened StoredTimes
  import W = UsageWindows

  // ---------- rows, filters and sums ----------

  /** The summed columns of a row; costs are counted in grid units. */
  datatype Amounts = Amounts(
    inputTokens: int, outputTokens: int, reasoningTokens: int, cachedTokens: int, cacheReadTokens: int,
    cacheCreationTokens: int, totalTokens: int, cost: int, uncachedInputCost: int, cacheReadCost: int,
    cacheCreationCost: int, outputCost: int, otherCost: int)
  {
    function Plus(o: Amounts): Amounts {
      Amounts(inputTokens + o.inputTokens, outputTokens + o.outputTokens, reasoningTokens + o.reasoningTokens,
              cachedTokens + o.cachedTokens, cacheReadTokens + o.cacheReadTokens, cacheCreationTokens + o.cacheCreationTokens,
              totalTokens + o.totalTokens, cost + o.cost, uncachedInputCost + o.uncachedInputCost,
              cacheReadCost + o.cacheReadCost, cacheCreationCost + o.cacheCreationCost, outputCost + o.outputCost,
              otherCost + o.otherCost)
    }

    predicate ComponentsAddUp() { cost == uncachedInputCost + cacheReadCost + cacheCreationCost + outputCost + otherCost }
  }

  /** A row of `usage_events`; the timestamp is the stored Unix time in nanoseconds. */
  datatype UsageEvent = UsageEvent(
    id: int, timestamp: int, keyId: string, provider: string, model: string, upstreamModel: string,
    executorType: string, authType: string, source: string, serviceTier: string, statusCode: int, failed: bool,
    amounts: Amounts)

  datatype UsageTotals = UsageTotals(requests: int, successes: int, failures: int, amounts: Amounts) {
    function Plus(o: UsageTotals): UsageTotals {
      UsageTotals(requests + o.requests, successes + o.successes, failures + o.failures, amounts.Plus(o.amounts))
    }
  }

  const ZERO := UsageTotals(0, 0, 0, Amounts(0, 0, 0, 0, 0, 0, 0, 0, 0, 0, 0, 0, 0))

  function Measure(e: UsageEvent): UsageTotals {
    UsageTotals(1, if e.failed then 0 else 1, if e.failed then 1 else 0, e.amounts)
  }

  /** The aggregate columns over some rows. */
  function Aggregate(rows: seq<UsageEvent>): UsageTotals {
    if rows == [] then ZERO else Aggregate(rows[..|rows| - 1]).Plus(Measure(rows[|rows| - 1]))
  }

  /** What some measure of the rows adds up to. */
  function Sum(rows: seq<UsageEvent>, measure: UsageEvent -> int): int {
    if rows == [] then 0 else Sum(rows[..|rows| - 1], measure) + measure(rows[|rows| - 1])
  }

  /** Every aggregate column is the sum of its own column of the rows; requests are counted once each, as failed or not. */
  lemma {:induction false} ColumnsAreSums(rows: seq<UsageEvent>)
    ensures var t := Aggregate(rows);
            && t.requests == |rows|
            && t.failures == Sum(rows, (e: UsageEvent) => if e.failed then 1 else 0)
            && t.successes == Sum(rows, (e: UsageEvent) => if e.failed then 0 else 1)
    ensures var a := Aggregate(rows).amounts;
            && a.inputTokens == Sum(rows, (e: UsageEvent) => e.amounts.inputTokens)
            && a.outputTokens == Sum(rows, (e: UsageEvent) => e.amounts.outputTokens)
            && a.reasoningTokens == Sum(rows, (e: UsageEvent) => e.amounts.reasoningTokens)
            && a.cachedTokens == Sum(rows, (e: UsageEvent) => e.amounts.cachedTokens)
            && a.cacheReadTokens == Sum(rows, (e: UsageEvent) => e.amounts.cacheReadTokens)
            && a.cacheCreationTokens == Sum(rows, (e: UsageEvent) => e.amounts.cacheCreationTokens)
            && a.totalTokens == Sum(rows, (e: UsageEvent) => e.amounts.totalTokens)
            && a.cost == Sum(rows, (e: UsageEvent) => e.amounts.cost)
            && a.uncachedInputCost == Sum(rows, (e: UsageEvent) => e.amounts.uncachedInputCost)
            && a.cacheReadCost == Sum(rows, (e: UsageEvent) => e.amounts.cacheReadCost)
            && a.cacheCreationCost == Sum(rows, (e: UsageEvent) => e.amounts.cacheCreationCost)
            && a.outputCost == Sum(rows, (e: UsageEvent) => e.amounts.outputCost)
            && a.otherCost == Sum(rows, (e: UsageEvent) => e.amounts.otherCost)
  {
    if rows != [] { ColumnsAreSums(rows[..|rows| - 1]); }
  }

  /** Instants of the filter are `time.Time` values: zero means that the bound is absent. */
  datatype UsageHistoryFilter = UsageHistoryFilter(
    since: int, until: int, keyId: string, provider: string, model: string, executorType: string, authType: string,
    source: string, serviceTier: string, statusCode: Option<int>, failed: Option<bool>)

  /** A text condition: absent when blank, else equality ignoring ASCII case. */
  predicate Selects(wanted: string, value: string) { Trim(wanted) == "" || EqualFold(value, Trim(wanted)) }

  predicate Matches(f: UsageHistoryFilter, e: UsageEvent) {
    && (f.since == 0 || e.timestamp >= f.since - EPOCH)
    && (f.until == 0 || e.timestamp < f.until - EPOCH)
    && Selects(f.keyId, e.keyId) && Selects(f.provider, e.provider)
    && (Selects(f.model, e.model) || Selects(f.model, e.upstreamModel))
    && Selects(f.executorType, e.executorType) && Selects(f.authType, e.authType)
    && Selects(f.source, e.source) && Selects(f.serviceTier, e.serviceTier)
    && (f.statusCode.None? || f.statusCode.value == e.statusCode)
    && (f.failed.None? || f.failed.value == e.failed)
  }

  /** A text condition that is not blank asks for the value itself, ignoring outer blanks of the condition and case. */
  predicate Asked(wanted: string, value: string) { Trim(wanted) != "" ==> Fold(Trim(wanted)) == Fold(value) }

  /**
   A row is selected exactly when it lies in the half-open range and meets every condition that is given, each on its own
   column; a model is looked for among requested and upstream models.
   */
  lemma {:induction false} SelectedIff(f: UsageHistoryFilter, e: UsageEvent)
    ensures Matches(f, e) <==>
              && (f.since != 0 ==> f.since <= e.timestamp + EPOCH) && (f.until != 0 ==> e.timestamp + EPOCH < f.until)
              && (f.statusCode.Some? ==> e.statusCode == f.statusCode.value) && (f.failed.Some? ==> e.failed == f.failed.value)
              && Asked(f.keyId, e.keyId) && Asked(f.provider, e.provider)
              && (Asked(f.model, e.model) || Asked(f.model, e.upstreamModel))
              && Asked(f.executorType, e.executorType) && Asked(f.authType, e.authType)
              && Asked(f.source, e.source) && Asked(f.serviceTier, e.serviceTier)
  {
    hide Fold, Trim;
  }

  function Where(table: seq<UsageEvent>, f: UsageHistoryFilter): seq<UsageEvent> {
    if table == [] then []
    else
      var e := table[|table| - 1];
      Where(table[..|table| - 1], f) + if Matches(f, e) then [e] else []
  }

  // ---------- the trend ----------

  datatype UsageTrendPoint = UsageTrendPoint(bucket: int, totals: UsageTotals)

  datatype UsageOverview = UsageOverview(
    from: int, to: int, granularity: string, totals: UsageTotals, series: seq<UsageTrendPoint>)

  function NormalizeHistoryRange(f: UsageHistoryFilter, now: int): UsageHistoryFilter {
    var until := if f.until == 0 then now else f.until;
    f.(until := until, since := if f.since == 0 || f.since >= until then until - 7 * W.DAY else f.since)
  }

  function Step(f: UsageHistoryFilter): int { if f.until - f.since > 48 * W.HOUR then W.DAY else W.HOUR }

  /** Rounded down to the hour, or to midnight UTC. */
  function TruncateBucket(at: int, step: int): int
    requires step > 0
  {
    at - at % step
  }

  /** SQLite's `timestamp_ns / step * step`: integer division truncates toward zero. */
  function SqlBucket(timestamp: int, step: int): int
    requires step > 0
  {
    if timestamp >= 0 then timestamp / step * step else -(-timestamp / step * step)
  }

  function InBucket(rows: seq<UsageEvent>, bucket: int, step: int): seq<UsageEvent>
    requires step > 0
  {
    if rows == [] then []
    else
      var e := rows[|rows| - 1];
      InBucket(rows[..|rows| - 1], bucket, step) + if SqlBucket(e.timestamp, step) == bucket then [e] else []
  }

  function PointAt(rows: seq<UsageEvent>, bucket: int, step: int): UsageTrendPoint
    requires step > 0
  {
    UsageTrendPoint(bucket + EPOCH, Aggregate(InBucket(rows, bucket, step)))
  }

  /** One point per step from `from` up to `until`, in Unix time. */
  function Series(rows: seq<UsageEvent>, from: int, until: int, step: int): seq<UsageTrendPoint>
    requires step > 0
    decreases until - from
  {
    if from >= until then [] else [PointAt(rows, from, step)] + Series(rows, from + step, until, step)
  }

  function Trend(rows: seq<UsageEvent>, f: UsageHistoryFilter): seq<UsageTrendPoint> {
    Series(rows, TruncateBucket(f.since, Step(f)) - EPOCH, f.until - EPOCH, Step(f))
  }

  function SumPoints(series: seq<UsageTrendPoint>): UsageTotals {
    if series == [] then ZERO else series[0].totals.Plus(SumPoints(series[1..]))
  }

  /** The trend as the code builds it: empty points for the range, overwritten by the groups of the query, then read out. */
  method Overview(table: seq<UsageEvent>, filter: UsageHistoryFilter, now: int) returns (overview: UsageOverview)
    ensures var f := NormalizeHistoryRange(filter, now);
            var rows := Where(table, f);
            && overview.from == f.since && overview.to == f.until
            && overview.granularity == (if f.until - f.since > 48 * W.HOUR then "day" else "hour")
            && overview.totals == Aggregate(rows) && overview.series == Trend(rows, f)
  {
    hide Series, PointAt, Aggregate, Where, Covers;
    var f := NormalizeHistoryRange(filter, now);
    var rows := Where(table, f);
    var step, granularity := W.HOUR, "hour";
    if f.until - f.since > 48 * W.HOUR {
      step, granularity := W.DAY, "day";
    }
    var from := TruncateBucket(f.since, step);
    var empty := EmptyPoints(from, f.until, step);
    var points := FillGroups(empty, rows, step);
    CoverageGrows(empty, points, from, f.until, step);
    var series := ReadSeries(points, rows, from, f.until, step);
    overview := UsageOverview(f.since, f.until, granularity, Aggregate(rows), series);
  }

  method EmptyPoints(from: int, until: int, step: int) returns (points: map<int, UsageTrendPoint>)
    requires step > 0
    ensures forall b :: b in points ==> points[b] == UsageTrendPoint(b + EPOCH, ZERO)
    ensures Covers(points, from, until, step)
  {
    points := map[];
    var bucket := from;
    ghost var n: nat := 0;
    while bucket < until
      invariant bucket == from + n * step
      invariant forall b :: b in points ==> points[b] == UsageTrendPoint(b + EPOCH, ZERO)
      invariant forall k :: 0 <= k < n ==> from + k * step - EPOCH in points
      decreases until - bucket
    {
      points := points[bucket - EPOCH := UsageTrendPoint(bucket, ZERO)];
      bucket, n := bucket + step, n + 1;
    }
    AllCovered(points, from, until, step, 0, n);
  }

  /** Every point the series reads is there. */
  ghost predicate Covers(points: map<int, UsageTrendPoint>, from: int, until: int, step: int)
    requires step > 0
    decreases until - from
  {
    from >= until || (from - EPOCH in points && Covers(points, from + step, until, step))
  }

  lemma {:induction false} AllCovered(points: map<int, UsageTrendPoint>, from: int, until: int, step: int, k: nat, n: nat)
    requires step > 0 && k <= n && from + n * step >= until
    requires forall i :: 0 <= i < n ==> from + i * step - EPOCH in points
    ensures Covers(points, from + k * step, until, step)
    decreases n - k
  {
    if k < n {
      assert from + (k + 1) * step == from + k * step + step;
      AllCovered(points, from, until, step, k + 1, n);
    }
  }

  lemma {:induction false} CoverageGrows(points: map<int, UsageTrendPoint>, more: map<int, UsageTrendPoint>,
                                         from: int, until: int, step: int)
    requires step > 0 && points.Keys <= more.Keys && Covers(points, from, until, step)
    ensures Covers(more, from, until, step)
    decreases until - from
  {
    if from < until {
      assert from - EPOCH in points.Keys;
      CoverageGrows(points, more, from + step, until, step);
    }
  }

  lemma {:induction false} MultiplesGrow(m: nat, n: nat, step: int)
    requires m <= n && step > 0
    ensures m * step <= n * step
  {
  }

  /** The buckets the query groups by. */
  function Buckets(rows: seq<UsageEvent>, step: int): set<int>
    requires step > 0
  {
    set e | e in rows :: SqlBucket(e.timestamp, step)
  }

  method FillGroups(empty: map<int, UsageTrendPoint>, rows: seq<UsageEvent>, step: int)
    returns (points: map<int, UsageTrendPoint>)
    requires step > 0 && forall b :: b in empty ==> empty[b] == UsageTrendPoint(b + EPOCH, ZERO)
    ensures empty.Keys <= points.Keys && forall b :: b in points ==> points[b] == PointAt(rows, b, step)
  {
    points := empty;
    var groups := Buckets(rows, step);
    while groups != {}
      invariant empty.Keys <= points.Keys
      invariant forall b :: b in points && b in groups ==> points[b] == UsageTrendPoint(b + EPOCH, ZERO)
      invariant forall b :: b in points && b in Buckets(rows, step) && b !in groups ==> points[b] == PointAt(rows, b, step)
      invariant forall b :: b in points && b !in Buckets(rows, step) ==> points[b] == UsageTrendPoint(b + EPOCH, ZERO)
      decreases groups
    {
      var bucket :| bucket in groups;
      points := points[bucket := UsageTrendPoint(bucket + EPOCH, Aggregate(InBucket(rows, bucket, step)))];
      groups := groups - {bucket};
    }
    forall b | b in points && b !in Buckets(rows, step) ensures points[b] == PointAt(rows, b, step) {
      NoGroupNoRows(rows, b, step);
    }
  }

  lemma {:induction false} NoGroupNoRows(rows: seq<UsageEvent>, bucket: int, step: int)
    requires step > 0 && forall e :: e in rows ==> SqlBucket(e.timestamp, step) != bucket
    ensures InBucket(rows, bucket, step) == []
  {
    if rows != [] {
      assert rows[|rows| - 1] in rows;
      NoGroupNoRows(rows[..|rows| - 1], bucket, step);
    }
  }

  method ReadSeries(points: map<int, UsageTrendPoint>, ghost rows: seq<UsageEvent>, from: int, until: int, step: int)
    returns (series: seq<UsageTrendPoint>)
    requires step > 0 && forall b :: b in points ==> points[b] == PointAt(rows, b, step)
    requires Covers(points, from, until, step)
    ensures series == Series(rows, from - EPOCH, until - EPOCH, step)
  {
    hide PointAt, Series;
    series := [];
    var bucket := from;
    while bucket < until
      invariant Covers(points, bucket, until, step)
      invariant series + Series(rows, bucket - EPOCH, until - EPOCH, step) == Series(rows, from - EPOCH, until - EPOCH, step)
      decreases until - bucket
    {
      NextPoint(series, rows, bucket - EPOCH, until - EPOCH, step);
      series := series + [points[bucket - EPOCH]];
      bucket := bucket + step;
    }
    NoPoints(rows, bucket - EPOCH, until - EPOCH, step);
  }

  lemma {:induction false} NextPoint(series: seq<UsageTrendPoint>, rows: seq<UsageEvent>, from: int, until: int, step: int)
    requires step > 0 && from < until
    ensures (series + [PointAt(rows, from, step)]) + Series(rows, from + step, until, step)
            == series + Series(rows, from, until, step)
  {
  }

  lemma {:induction false} NoPoints(rows: seq<UsageEvent>, from: int, until: int, step: int)
    requires step > 0 && from >= until
    ensures Series(rows, from, until, step) == []
  {
  }

  // ---------- the series is contiguous and covers the range ----------

  lemma {:induction false} SeriesShape(rows: seq<UsageEvent>, from: int, until: int, step: int, i: nat)
    requires step > 0 && i < |Series(rows, from, until, step)|
    ensures Series(rows, from, until, step)[i] == PointAt(rows, from + i * step, step) && from + i * step < until
    ensures i + 1 == |Series(rows, from, until, step)| ==> until <= from + (i + 1) * step
    decreases i
  {
    hide PointAt;
    if i > 0 {
      SeriesShape(rows, from + step, until, step, i - 1);
      assert from + step + (i - 1) * step == from + i * step;
    }
  }

  lemma {:induction false} SeriesIsNotEmpty(rows: seq<UsageEvent>, from: int, until: int, step: int)
    requires step > 0 && from < until
    ensures Series(rows, from, until, step) != []
  {
  }

  /** A range that is given and proper is kept; a missing end is now, and a missing or empty range is the week before its end. */
  lemma {:induction false} RangeIsProper(f: UsageHistoryFilter, now: int)
    ensures var n := NormalizeHistoryRange(f, now);
            && n.since < n.until && n == f.(since := n.since, until := n.until)
            && (f.until != 0 ==> n.until == f.until) && (f.until == 0 ==> n.until == now)
            && (f.since != 0 && f.since < n.until ==> n.since == f.since)
            && (f.since == 0 || f.since >= n.until ==> n.since + 7 * 24 * W.HOUR == n.until)
  {
  }

  /**
   For every filter: the points follow each other step by step, the first starts at or before `since` and the last ends
   at or after `until`.
   */
  lemma {:induction false} TrendIsContiguous(rows: seq<UsageEvent>, filter: UsageHistoryFilter, now: int)
    ensures var f := NormalizeHistoryRange(filter, now);
            var series, step := Trend(rows, f), Step(f);
            && step == (if f.until - f.since > 48 * W.HOUR then 24 * W.HOUR else W.HOUR)
            && series != [] && series[0].bucket <= f.since < series[0].bucket + step
            && series[|series| - 1].bucket < f.until <= series[|series| - 1].bucket + step
            && forall i :: 0 <= i < |series| - 1 ==> series[i + 1].bucket == series[i].bucket + step
  {
    hide Series, InBucket, Aggregate, NormalizeHistoryRange;
    var f := NormalizeHistoryRange(filter, now);
    RangeIsProper(filter, now);
    var step, series := Step(f), Trend(rows, f);
    SeriesIsNotEmpty(rows, TruncateBucket(f.since, step) - EPOCH, f.until - EPOCH, step);
    var from := TruncateBucket(f.since, step) - EPOCH;
    SeriesShape(rows, from, f.until - EPOCH, step, |series| - 1);
    forall i | 0 <= i < |series| - 1 ensures series[i + 1].bucket == series[i].bucket + step {
      SeriesShape(rows, from, f.until - EPOCH, step, i);
      SeriesShape(rows, from, f.until - EPOCH, step, i + 1);
    }
    SeriesShape(rows, from, f.until - EPOCH, step, 0);
  }

  /** The rows of [from, to). */
  function Between(rows: seq<UsageEvent>, from: int, to: int): seq<UsageEvent> {
    if rows == [] then []
    else
      var e := rows[|rows| - 1];
      Between(rows[..|rows| - 1], from, to) + if from <= e.timestamp < to then [e] else []
  }

  lemma {:induction false} BucketHoldsItsRows(rows: seq<UsageEvent>, bucket: int, step: int)
    requires Grid(step) && bucket % step == 0 && forall i :: 0 <= i < |rows| ==> rows[i].timestamp >= 0
    ensures InBucket(rows, bucket, step) == Between(rows, bucket, bucket + step)
  {
    if rows != [] {
      BucketHoldsItsRows(rows[..|rows| - 1], bucket, step);
      OwnBucket(rows[|rows| - 1].timestamp, bucket, step);
    }
  }

  lemma {:induction false} OwnBucket(timestamp: int, bucket: int, step: int)
    requires Grid(step) && bucket % step == 0 && timestamp >= 0
    ensures SqlBucket(timestamp, step) == bucket <==> bucket <= timestamp < bucket + step
  {
  }

  /** Each point of a trend over rows from 1970 on holds the totals of the rows of its own hour or day. */
  lemma {:induction false} PointsHoldTheirRows(rows: seq<UsageEvent>, filter: UsageHistoryFilter, now: int, i: nat)
    requires forall k :: 0 <= k < |rows| ==> rows[k].timestamp >= 0
    requires i < |Trend(rows, NormalizeHistoryRange(filter, now))|
    ensures var f := NormalizeHistoryRange(filter, now);
            var point := Trend(rows, f)[i];
            point.totals == Aggregate(Between(rows, point.bucket - EPOCH, point.bucket - EPOCH + Step(f)))
  {
    hide Aggregate, Between, InBucket;
    var f := NormalizeHistoryRange(filter, now);
    var step := Step(f);
    var from := TruncateBucket(f.since, step) - EPOCH;
    StepIsOnGrid(f);
    AlignedStart(f);
    SeriesShape(rows, from, f.until - EPOCH, step, i);
    Multiple(from, i, step);
    BucketHoldsItsRows(rows, from + i * step, step);
  }

  lemma {:induction false} Multiple(from: int, i: nat, step: int)
    requires Grid(step) && from % step == 0
    ensures (from + i * step) % step == 0
  {
    if i > 0 {
      Multiple(from, i - 1, step);
      assert from + i * step == from + (i - 1) * step + step;
    }
  }

  // ---------- conservation ----------

  /** The rows whose bucket is one of the points from `from` to `until`. */
  function Charted(rows: seq<UsageEvent>, from: int, until: int, step: int): seq<UsageEvent>
    requires step > 0
  {
    if rows == [] then []
    else
      var e := rows[|rows| - 1];
      Charted(rows[..|rows| - 1], from, until, step) + if from <= SqlBucket(e.timestamp, step) < until then [e] else []
  }

  predicate Grid(step: int) { step == W.HOUR || step == W.DAY }

  lemma {:induction false} BucketsAreAligned(timestamp: int, step: int)
    requires Grid(step)
    ensures SqlBucket(timestamp, step) % step == 0
  {
  }

  lemma {:induction false} NextBucket(bucket: int, from: int, step: int)
    requires Grid(step) && bucket % step == 0 && from % step == 0
    ensures from < bucket <==> from + step <= bucket
    ensures (from + step) % step == 0
  {
  }

  /** One more row adds its measure to the series exactly when its bucket is charted: it lands in one point and no other. */
  lemma {:induction false} RowLandsOnce(rows: seq<UsageEvent>, e: UsageEvent, from: int, until: int, step: int)
    requires Grid(step) && from % step == 0
    ensures SumPoints(Series(rows + [e], from, until, step))
            == SumPoints(Series(rows, from, until, step)).Plus(
                 if from <= SqlBucket(e.timestamp, step) < until then Measure(e) else ZERO)
    decreases until - from
  {
    hide SqlBucket, Measure, SumPoints, PointAt, UsageTotals.Plus;
    if from < until {
      var bucket, m := SqlBucket(e.timestamp, step), Measure(e);
      BucketsAreAligned(e.timestamp, step);
      NextBucket(bucket, from, step);
      RowLandsOnce(rows, e, from + step, until, step);
      PointGrows(rows, e, from, step);
      UnfoldSeries(rows, from, until, step);
      UnfoldSeries(rows + [e], from, until, step);
      var point, rest := PointAt(rows, from, step).totals, SumPoints(Series(rows, from + step, until, step));
      PlusLaws(point, rest, m);
    } else {
      NoSeries(rows, from, until, step);
      NoSeries(rows + [e], from, until, step);
      PlusLaws(ZERO, ZERO, ZERO);
    }
  }

  /** Where a new measure is added to a sum of two does not matter. */
  lemma {:induction false} PlusLaws(a: UsageTotals, b: UsageTotals, m: UsageTotals)
    ensures a.Plus(m).Plus(b.Plus(ZERO)) == a.Plus(b).Plus(m) == a.Plus(ZERO).Plus(b.Plus(m))
    ensures a.Plus(ZERO).Plus(b.Plus(ZERO)) == a.Plus(b) == a.Plus(b).Plus(ZERO)
    ensures a.Plus(ZERO) == a
  {
  }

  lemma {:induction false} NoSeries(rows: seq<UsageEvent>, from: int, until: int, step: int)
    requires step > 0 && from >= until
    ensures SumPoints(Series(rows, from, until, step)) == ZERO
  {
  }

  lemma {:induction false} PointGrows(rows: seq<UsageEvent>, e: UsageEvent, bucket: int, step: int)
    requires step > 0
    ensures PointAt(rows + [e], bucket, step).totals
            == PointAt(rows, bucket, step).totals.Plus(if SqlBucket(e.timestamp, step) == bucket then Measure(e) else ZERO)
  {
    assert (rows + [e])[..|rows|] == rows;
    var kept := InBucket(rows, bucket, step);
    assert (kept + [e])[..|kept|] == kept;
    assert kept + [] == kept;
  }

  lemma {:induction false} UnfoldSeries(rows: seq<UsageEvent>, from: int, until: int, step: int)
    requires step > 0 && from < until
    ensures SumPoints(Series(rows, from, until, step))
            == PointAt(rows, from, step).totals.Plus(SumPoints(Series(rows, from + step, until, step)))
  {
  }

  lemma {:induction false} EmptySeries(from: int, until: int, step: int)
    requires step > 0
    ensures SumPoints(Series([], from, until, step)) == ZERO
    decreases until - from
  {
    if from < until {
      EmptySeries(from + step, until, step);
      UnfoldSeries([], from, until, step);
    }
  }

  /** The series adds up to the charted rows: nothing is counted twice. */
  lemma {:induction false} SeriesSumsCharted(rows: seq<UsageEvent>, from: int, until: int, step: int)
    requires Grid(step) && from % step == 0
    ensures SumPoints(Series(rows, from, until, step)) == Aggregate(Charted(rows, from, until, step))
  {
    hide SqlBucket, Measure, SumPoints, Series, UsageTotals.Plus;
    if rows == [] {
      EmptySeries(from, until, step);
    } else {
      var before, e := rows[..|rows| - 1], rows[|rows| - 1];
      var kept := Charted(before, from, until, step);
      SeriesSumsCharted(before, from, until, step);
      RowLandsOnce(before, e, from, until, step);
      PlusLaws(Aggregate(kept), ZERO, ZERO);
      assert before + [e] == rows && (kept + [e])[..|kept|] == kept && kept + [] == kept;
    }
  }

  lemma {:induction false} AllCharted(rows: seq<UsageEvent>, from: int, until: int, step: int)
    requires step > 0 && forall i :: 0 <= i < |rows| ==> from <= SqlBucket(rows[i].timestamp, step) < until
    ensures Charted(rows, from, until, step) == rows
  {
    hide SqlBucket;
    if rows != [] {
      AllCharted(rows[..|rows| - 1], from, until, step);
      assert rows == rows[..|rows| - 1] + [rows[|rows| - 1]];
    }
  }

  lemma {:induction false} ChartedIsShorter(rows: seq<UsageEvent>, from: int, until: int, step: int, i: nat)
    requires step > 0 && i < |rows|
    ensures |Charted(rows, from, until, step)| <= |rows|
    ensures !(from <= SqlBucket(rows[i].timestamp, step) < until) ==> |Charted(rows, from, until, step)| < |rows|
  {
    hide SqlBucket;
    if |rows| > 1 { ChartedIsShorter(rows[..|rows| - 1], from, until, step, if i < |rows| - 1 then i else 0); }
  }

  lemma {:induction false} RequestsCountRows(rows: seq<UsageEvent>)
    ensures Aggregate(rows).requests == |rows|
  {
    if rows != [] { RequestsCountRows(rows[..|rows| - 1]); }
  }

  /** A row reaches the chart unless it lies before 1970, where the query rounds up, in the step that ends the range. */
  predicate Shown(timestamp: int, f: UsageHistoryFilter) {
    timestamp >= 0 || SqlBucket(timestamp, Step(f)) < f.until - EPOCH
  }

  lemma {:induction false} ShownIsCharted(timestamp: int, f: UsageHistoryFilter)
    requires f.since - EPOCH <= timestamp < f.until - EPOCH
    ensures Shown(timestamp, f)
            <==> TruncateBucket(f.since, Step(f)) - EPOCH <= SqlBucket(timestamp, Step(f)) < f.until - EPOCH
  {
    hide SqlBucket, Step;
    StepIsOnGrid(f);
    var step := Step(f);
    var from, bucket := TruncateBucket(f.since, step) - EPOCH, SqlBucket(timestamp, step);
    AlignedStart(f);
    BucketsAreAligned(timestamp, step);
    RowsLandInTheirOwnBucket(timestamp, step);
    NextBucket(from, bucket, step);
    if timestamp < 0 { BucketRoundsUp(timestamp, step); }
    assert f.since % step >= 0;
  }

  lemma {:induction false} BucketRoundsUp(timestamp: int, step: int)
    requires timestamp < 0 < step
    ensures timestamp <= SqlBucket(timestamp, step)
  {
  }

  lemma {:induction false} AlignedStart(f: UsageHistoryFilter)
    ensures (TruncateBucket(f.since, Step(f)) - EPOCH) % Step(f) == 0
  {
  }

  /**
   The chart adds up to the totals, for every column and either granularity, exactly when every selected row is shown;
   in particular when no selected row lies before 1970.
   */
  lemma {:induction false} TrendConservesTotals(table: seq<UsageEvent>, filter: UsageHistoryFilter, now: int)
    requires NormalizeHistoryRange(filter, now).since != 0 && NormalizeHistoryRange(filter, now).until != 0
    ensures var f := NormalizeHistoryRange(filter, now);
            var rows := Where(table, f);
            SumPoints(Trend(rows, f)) == Aggregate(rows) <==> forall i :: 0 <= i < |rows| ==> Shown(rows[i].timestamp, f)
  {
    hide Aggregate, SumPoints, Series, Charted, SqlBucket, TruncateBucket, Shown, Step;
    var f := NormalizeHistoryRange(filter, now);
    var rows := Where(table, f);
    StepIsOnGrid(f);
    var from, until, step := TruncateBucket(f.since, Step(f)) - EPOCH, f.until - EPOCH, Step(f);
    forall i | 0 <= i < |rows|
      ensures Shown(rows[i].timestamp, f) <==> from <= SqlBucket(rows[i].timestamp, step) < until
    {
      WhereSelects(table, f, i);
      ShownIsCharted(rows[i].timestamp, f);
    }
    AlignedStart(f);
    SeriesSumsCharted(rows, from, until, step);
    forall i | 0 <= i < |rows| && !Shown(rows[i].timestamp, f) ensures |Charted(rows, from, until, step)| < |rows| {
      ChartedIsShorter(rows, from, until, step, i);
    }
    if forall i :: 0 <= i < |rows| ==> Shown(rows[i].timestamp, f) { AllCharted(rows, from, until, step); }
    RequestsCountRows(rows);
    RequestsCountRows(Charted(rows, from, until, step));
  }

  lemma {:induction false} StepIsOnGrid(f: UsageHistoryFilter)
    ensures Grid(Step(f))
  {
  }

  lemma {:induction false} WhereSelects(table: seq<UsageEvent>, f: UsageHistoryFilter, i: nat)
    requires i < |Where(table, f)|
    ensures Where(table, f)[i] in table && Matches(f, Where(table, f)[i])
  {
    if table != [] && i < |Where(table[..|table| - 1], f)| { WhereSelects(table[..|table| - 1], f, i); }
  }

  /** From 1970 on, a row is shown in the very bucket that contains it. */
  lemma {:induction false} RowsLandInTheirOwnBucket(timestamp: int, step: int)
    requires step > 0
    ensures (SqlBucket(timestamp, step) <= timestamp < SqlBucket(timestamp, step) + step)
            <==> timestamp >= 0 || -timestamp % step == 0
  {
  }

  const ANY_ROW := UsageEvent(1, -1, "k", "p", "m", "m", "", "", "", "", 0, false, ZERO.amounts)

  /** A row just before 1970 is missing from the chart of the hour it belongs to. */
  lemma {:induction false} RowBefore1970IsNotShown()
    ensures var f := UsageHistoryFilter(EPOCH - W.HOUR, EPOCH, "", "", "", "", "", "", "", None, None);
            NormalizeHistoryRange(f, EPOCH) == f && Where([ANY_ROW], f) == [ANY_ROW]
            && Aggregate([ANY_ROW]).requests == 1 && SumPoints(Trend([ANY_ROW], f)).requests == 0
  {
    hide SumPoints, Series, Aggregate;
    var f := UsageHistoryFilter(EPOCH - W.HOUR, EPOCH, "", "", "", "", "", "", "", None, None);
    assert SqlBucket(-1, W.HOUR) == 0;
    assert [ANY_ROW][..0] == [];
    SeriesSumsCharted([ANY_ROW], -W.HOUR, 0, W.HOUR);
    assert Charted([ANY_ROW], -W.HOUR, 0, W.HOUR) == [];
    RequestsCountRows([ANY_ROW]);
    RequestsCountRows([]);
    assert Step(f) == W.HOUR && TruncateBucket(f.since, W.HOUR) == f.since;
    assert Where([], f) == [] && Matches(f, ANY_ROW);
  }

  /** Sums of receipts are receipts: over any rows the component columns add up to the cost, and each row failed or not. */
  lemma {:induction false} CostColumnsAddUp(rows: seq<UsageEvent>)
    requires forall i :: 0 <= i < |rows| ==> rows[i].amounts.ComponentsAddUp()
    ensures Aggregate(rows).amounts.ComponentsAddUp()
    ensures Aggregate(rows).requests == Aggregate(rows).successes + Aggregate(rows).failures
  {
    hide UsageTotals.Plus, Amounts.ComponentsAddUp, Measure;
    NothingAddsUp();
    if rows != [] {
      var n := |rows| - 1;
      CostColumnsAddUp(rows[..n]);
      SumsAddUp(Aggregate(rows[..n]), rows[n]);
    }
  }

  lemma {:induction false} NothingAddsUp()
    ensures ZERO.amounts.ComponentsAddUp()
  {
  }

  lemma {:induction false} SumsAddUp(a: UsageTotals, e: UsageEvent)
    requires a.amounts.ComponentsAddUp() && e.amounts.ComponentsAddUp() && a.requests == a.successes + a.failures
    ensures var t := a.Plus(Measure(e)); t.amounts.ComponentsAddUp() && t.requests == t.successes + t.failures
  {
  }

  // ---------- pages ----------

  datatype UsageEventPage = UsageEventPage(events: seq<UsageEvent>, total: nat, page: int, pageSize: int, totalPages: int)

  /** `ORDER BY timestamp_ns DESC, id DESC`. */
  predicate NewerFirst(a: UsageEvent, b: UsageEvent) {
    a.timestamp > b.timestamp || (a.timestamp == b.timestamp && a.id > b.id)
  }

  predicate Ordered(rows: seq<UsageEvent>) {
    forall i, j :: 0 <= i < j < |rows| ==> NewerFirst(rows[i], rows[j])
  }

  /** Ids are primary keys. */
  predicate DistinctIds(rows: seq<UsageEvent>) {
    forall i, j :: 0 <= i < j < |rows| ==> rows[i].id != rows[j].id
  }

  function Place(e: UsageEvent, rows: seq<UsageEvent>): seq<UsageEvent> {
    if rows == [] || NewerFirst(e, rows[0]) then [e] + rows else [rows[0]] + Place(e, rows[1..])
  }

  function OrderBy(rows: seq<UsageEvent>): seq<UsageEvent> {
    if rows == [] then [] else Place(rows[|rows| - 1], OrderBy(rows[..|rows| - 1]))
  }

  lemma {:induction false} PlaceKeepsOrder(e: UsageEvent, rows: seq<UsageEvent>)
    requires Ordered(rows) && forall i :: 0 <= i < |rows| ==> rows[i].id != e.id
    ensures Ordered(Place(e, rows)) && multiset(Place(e, rows)) == multiset(rows) + multiset{e}
  {
    if rows == [] || NewerFirst(e, rows[0]) {
      assert forall i :: 0 < i < |rows| ==> NewerFirst(rows[0], rows[i]);
    } else {
      assert rows == [rows[0]] + rows[1..];
      PlaceKeepsOrder(e, rows[1..]);
      var rest := Place(e, rows[1..]);
      forall i | 0 <= i < |rest| ensures NewerFirst(rows[0], rest[i]) {
        assert rest[i] in multiset(rest);
        assert rest[i] == e || rest[i] in rows[1..];
      }
    }
  }

  lemma {:induction false} OrderByOrders(rows: seq<UsageEvent>)
    requires DistinctIds(rows)
    ensures Ordered(OrderBy(rows)) && multiset(OrderBy(rows)) == multiset(rows)
  {
    if rows != [] {
      var before, e := rows[..|rows| - 1], rows[|rows| - 1];
      OrderByOrders(before);
      assert rows == before + [e];
      forall i | 0 <= i < |OrderBy(before)| ensures OrderBy(before)[i].id != e.id {
        assert OrderBy(before)[i] in multiset(OrderBy(before));
        assert OrderBy(before)[i] in before;
      }
      PlaceKeepsOrder(e, OrderBy(before));
    }
  }

  lemma {:induction false} TailRows(a: seq<UsageEvent>)
    requires a != []
    ensures multiset(a[1..]) == multiset(a) - multiset{a[0]}
    ensures Ordered(a) ==> Ordered(a[1..])
  {
    assert a == [a[0]] + a[1..];
  }

  /** There is one such order, so any query plan returns this list. */
  lemma {:induction false} OrderIsUnique(a: seq<UsageEvent>, b: seq<UsageEvent>)
    requires Ordered(a) && Ordered(b) && multiset(a) == multiset(b)
    ensures a == b
  {
    assert |a| == |multiset(a)| == |b|;
    if a != [] {
      assert a[0] in multiset(b) && b[0] in multiset(a);
      var i :| 0 <= i < |b| && b[i] == a[0];
      var j :| 0 <= j < |a| && a[j] == b[0];
      assert a[0] == b[0];
      TailRows(a);
      TailRows(b);
      OrderIsUnique(a[1..], b[1..]);
    }
  }

  function ClampPage(page: int): int { if page < 1 then 1 else page }

  function ClampSize(size: int): int { if size < 1 then 50 else if size > 200 then 200 else size }

  function TotalPages(total: nat, size: int): int
    requires size > 0
  {
    if total > 0 then (total + size - 1) / size else 0
  }

  /** `LIMIT size OFFSET offset`; SQLite treats a negative offset as zero. */
  function Limit(rows: seq<UsageEvent>, size: nat, offset: int): seq<UsageEvent> {
    var first := if offset < 0 then 0 else if offset > |rows| then |rows| else offset;
    rows[first..if first + size > |rows| then |rows| else first + size]
  }

  function PageOf(ordered: seq<UsageEvent>, page: int, size: nat): seq<UsageEvent> {
    Limit(ordered, size, Wrap64((page - 1) * size))
  }

  method EventPage(table: seq<UsageEvent>, filter: UsageHistoryFilter, page: int, pageSize: int) returns (r: UsageEventPage)
    ensures var rows := Where(table, filter);
            && r.page == ClampPage(page) && r.pageSize == ClampSize(pageSize)
            && r.page == (if page < 1 then 1 else page)
            && r.pageSize == (if pageSize < 1 then 50 else if pageSize > 200 then 200 else pageSize)
            && r.total == |rows| && r.totalPages == TotalPages(|rows|, r.pageSize)
            && r.events == PageOf(OrderBy(rows), r.page, r.pageSize)
  {
    var p, size := page, pageSize;
    if p < 1 { p := 1; }
    if size < 1 { size := 50; }
    if size > 200 { size := 200; }
    var rows := Where(table, filter);
    var totalPages := 0;
    if |rows| > 0 { totalPages := (|rows| + size - 1) / size; }
    var offset := Wrap64((p - 1) * size);
    var found := Limit(OrderBy(rows), size, offset);
    var events, next := [], 0;
    while next < |found|
      invariant 0 <= next <= |found| && events == found[..next]
    {
      events, next := events + [found[next]], next + 1;
    }
    r := UsageEventPage(events, |rows|, p, size, totalPages);
  }

  /** The first n pages, one after the other. */
  function FirstPages(ordered: seq<UsageEvent>, n: nat, size: nat): seq<UsageEvent> {
    if n == 0 then [] else FirstPages(ordered, n - 1, size) + PageOf(ordered, n, size)
  }

  lemma {:induction false} LastPage(total: nat, size: int)
    requires size > 0 && total > 0
    ensures (TotalPages(total, size) - 1) * size < total <= TotalPages(total, size) * size && TotalPages(total, size) >= 1
  {
  }

  lemma {:induction false} PageWithin(ordered: seq<UsageEvent>, page: int, size: nat)
    requires page >= 1 && size >= 1 && (page - 1) * size <= MAX_INT64
    ensures Wrap64((page - 1) * size) == (page - 1) * size >= 0
    ensures var first := (page - 1) * size;
            PageOf(ordered, page, size)
            == if first >= |ordered| then [] else ordered[first..if first + size > |ordered| then |ordered| else first + size]
  {
  }

  lemma {:induction false} PagesPrefix(ordered: seq<UsageEvent>, n: nat, size: nat)
    requires 1 <= size && |ordered| <= MAX_INT64 && n <= TotalPages(|ordered|, size)
    ensures FirstPages(ordered, n, size) == ordered[..if n * size > |ordered| then |ordered| else n * size]
  {
    hide TotalPages, PageOf;
    if n > 0 {
      var first := (n - 1) * size;
      PageStartsWithin(|ordered|, n, size);
      assert n * size == first + size;
      PagesPrefix(ordered, n - 1, size);
      PageWithin(ordered, n, size);
    }
  }

  lemma {:induction false} PageStartsWithin(total: nat, page: int, size: int)
    requires 1 <= size && 1 <= page <= TotalPages(total, size)
    ensures 0 <= (page - 1) * size < total
  {
  }

  /**
   Pages 1 to `totalPages` are the whole filtered list in order, without gap or repeat; every page but the last is full
   and the last is not empty; every later page whose offset fits in 64 bits is empty.
   */
  lemma {:induction false} PagesPartition(ordered: seq<UsageEvent>, pageSize: int, page: int)
    requires |ordered| <= MAX_INT64
    ensures var size := ClampSize(pageSize);
            var pages := TotalPages(|ordered|, size);
            && 1 <= size <= 200 && FirstPages(ordered, pages, size) == ordered
            && (1 <= page < pages ==> |PageOf(ordered, page, size)| == size)
            && (1 <= page == pages ==> 1 <= |PageOf(ordered, page, size)| <= size)
            && (page > pages && (page - 1) * size <= MAX_INT64 ==> page >= 1 && PageOf(ordered, page, size) == [])
  {
    var size := ClampSize(pageSize);
    var pages := TotalPages(|ordered|, size);
    if |ordered| > 0 { LastPage(|ordered|, size); }
    PagesPrefix(ordered, pages, size);
    if 1 <= page <= pages {
      MultiplesGrow(page - 1, pages - 1, size);
      if page < pages {
        MultiplesGrow(page, pages - 1, size);
        assert page * size == (page - 1) * size + size;
      }
      PageWithin(ordered, page, size);
    } else if page > pages && (page - 1) * size <= MAX_INT64 {
      MultiplesGrow(pages, page - 1, size);
      PageWithin(ordered, page, size);
    }
  }

  lemma {:induction false} WhereIsDistinct(table: seq<UsageEvent>, f: UsageHistoryFilter)
    requires DistinctIds(table)
    ensures DistinctIds(Where(table, f)) && |Where(table, f)| <= |table|
  {
    hide Matches;
    if table != [] {
      var n := |table| - 1;
      var kept := Where(table[..n], f);
      WhereIsDistinct(table[..n], f);
      forall i | 0 <= i < |kept| ensures kept[i].id != table[n].id {
        WhereSelects(table[..n], f, i);
        var j :| 0 <= j < n && table[..n][j] == kept[i];
      }
    }
  }

  lemma {:induction false} WhereFinds(table: seq<UsageEvent>, f: UsageHistoryFilter, e: UsageEvent)
    ensures e in Where(table, f) <==> e in table && Matches(f, e)
  {
    hide Matches;
    if table != [] {
      var n := |table| - 1;
      WhereFinds(table[..n], f, e);
      assert table == table[..n] + [table[n]];
    }
  }

  /**
   Pagination of a table: for every table with distinct ids, every filter and every page size, the pages 1 to
   `total_pages` that are returned are, one after the other, the selected rows, newest first, none repeated and none
   missing; all but the last are full, and later ones are empty while their offset fits in 64 bits.
   */
  lemma {:induction false} PagesOfATable(table: seq<UsageEvent>, f: UsageHistoryFilter, pageSize: int, page: int)
    requires DistinctIds(table) && |table| <= MAX_INT64
    ensures var rows, size := Where(table, f), ClampSize(pageSize);
            var pages := TotalPages(|rows|, size);
            var all, shown := FirstPages(OrderBy(rows), pages, size), PageOf(OrderBy(rows), page, size);
            && (forall i, j :: 0 <= i < j < |all| ==>
                  all[i].timestamp > all[j].timestamp || (all[i].timestamp == all[j].timestamp && all[i].id > all[j].id))
            && multiset(all) == multiset(rows)
            && (forall e :: e in all <==> e in table && Matches(f, e))
            && (1 <= page < pages ==> |shown| == size)
            && (1 <= page == pages ==> 1 <= |shown| <= size)
            && (page > pages && (page - 1) * size <= MAX_INT64 ==> shown == [])
  {
    hide Matches, FirstPages, OrderBy, Where, PageOf;
    var rows := Where(table, f);
    WhereIsDistinct(table, f);
    OrderByOrders(rows);
    assert |OrderBy(rows)| == |multiset(OrderBy(rows))| == |rows|;
    PagesPartition(OrderBy(rows), pageSize, page);
    forall e ensures e in OrderBy(rows) <==> e in table && Matches(f, e) {
      WhereFinds(table, f, e);
      assert e in multiset(OrderBy(rows)) <==> e in multiset(rows);
    }
  }

  /** What the request for any page returns: nothing exactly when the offset, as a 64-bit number, is past the end. */
  lemma {:induction false} PageIsEmptyIff(ordered: seq<UsageEvent>, page: int, size: nat)
    requires size >= 1
    ensures PageOf(ordered, page, size) == [] <==> ordered == [] || Wrap64((page - 1) * size) >= |ordered|
  {
  }

  /** A page number so large that the offset wraps around shows the first page again. */
  lemma {:induction false} HugePageRepeatsTheFirst(ordered: seq<UsageEvent>)
    ensures PageOf(ordered, 0x4000_0000_0000_0001, 4) == PageOf(ordered, 1, 4) && 0x4000_0000_0000_0001 <= MAX_INT64
  {
  }
}
