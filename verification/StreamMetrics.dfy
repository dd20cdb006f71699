/** Nearest-rank percentiles and the nested success counts of a phase. Ranks are exact rationals. */
module StreamMetrics {
  import opened Sequences
  import opened StreamRows

  function Insert(x: real, s: seq<real>): seq<real> {
    if s == [] || s[|s| - 1] <= x then s + [x] else Insert(x, s[..|s| - 1]) + [s[|s| - 1]]
  }

  function Sorted(s: seq<real>): seq<real> {
    if s == [] then [] else Insert(s[|s| - 1], Sorted(s[..|s| - 1]))
  }

  ghost predicate Ordered(s: seq<real>) {
    forall i, j :: 0 <= i <= j < |s| ==> s[i] <= s[j]
  }

  lemma AppendOrdered(s: seq<real>, x: real)
    requires Ordered(s) && forall y :: y in s ==> y <= x
    ensures Ordered(s + [x])
  {
    assert forall i :: 0 <= i < |s| ==> s[i] in s;
  }

  lemma {:induction false} InsertOrdered(x: real, s: seq<real>)
    requires Ordered(s)
    ensures Ordered(Insert(x, s))
    ensures forall y :: y in Insert(x, s) <==> y in s || y == x
  {
    if s == [] || s[|s| - 1] <= x {
      AppendOrdered(s, x);
    } else {
      var front, last := s[..|s| - 1], s[|s| - 1];
      InsertOrdered(x, front);
      assert s == front + [last];
      AppendOrdered(Insert(x, front), last);
    }
  }

  lemma {:induction false} SortedOrdered(s: seq<real>)
    ensures Ordered(Sorted(s))
    ensures forall y :: y in Sorted(s) <==> y in s
  {
    if s != [] {
      SortedOrdered(s[..|s| - 1]);
      InsertOrdered(s[|s| - 1], Sorted(s[..|s| - 1]));
      assert s == s[..|s| - 1] + [s[|s| - 1]];
    }
  }

  lemma {:induction false} InsertCount(x: real, s: seq<real>, keep: real -> bool)
    ensures Count(Insert(x, s), keep) == Count(s, keep) + if keep(x) then 1 else 0
    ensures |Insert(x, s)| == |s| + 1
  {
    if s == [] || s[|s| - 1] <= x {
      assert (s + [x])[..|s|] == s;
    } else {
      var front := s[..|s| - 1];
      InsertCount(x, front, keep);
      assert Insert(x, s)[..|s|] == Insert(x, front);
    }
  }

  /** Sorting keeps every count. */
  lemma {:induction false} SortedCount(s: seq<real>, keep: real -> bool)
    ensures Count(Sorted(s), keep) == Count(s, keep)
    ensures |Sorted(s)| == |s|
  {
    if s != [] {
      SortedCount(s[..|s| - 1], keep);
      InsertCount(s[|s| - 1], Sorted(s[..|s| - 1]), keep);
    }
  }

  function Samples(values: seq<Option<real>>): seq<real> {
    if values == [] then []
    else Samples(values[..|values| - 1]) + match values[|values| - 1] case None => [] case Some(v) => [v]
  }

  /** `ceil(n * num / den)`. */
  function Rank(n: nat, num: nat, den: nat): nat
    requires den > 0
  {
    (n * num + den - 1) / den
  }

  /** `percentile(values, num / den)` before rounding. */
  function Percentile(values: seq<Option<real>>, num: nat, den: nat): Option<real>
    requires 0 < num <= den
  {
    var ordered := Sorted(Samples(values));
    SortedCount(Samples(values), x => true);
    RankBounds(|ordered|, num, den);
    if ordered == [] then None
    else Some(ordered[if Rank(|ordered|, num, den) >= 1 then Rank(|ordered|, num, den) - 1 else 0])
  }

  lemma RankBounds(n: nat, num: nat, den: nat)
    requires 0 < num <= den
    ensures Rank(n, num, den) <= n
    ensures n > 0 ==> Rank(n, num, den) >= 1
    ensures forall k: int :: k * den >= n * num <==> k >= Rank(n, num, den)
  {
    var m := n * num;
    assert m <= n * den;
    var r := (m + den - 1) / den;
    forall k: int ensures k * den >= m <==> k >= r {
      Ceiling(m, den, k);
    }
    assert n * den >= m;
    if n > 0 {
      assert m >= 1;
      assert !(0 * den >= m);
    }
  }

  lemma Ceiling(m: nat, den: nat, k: int)
    requires den > 0
    ensures k * den >= m <==> k >= (m + den - 1) / den
  {
    var r := (m + den - 1) / den;
    assert r * den <= m + den - 1 < r * den + den;
    if k >= r {
      assert (k - r) * den >= 0;
    } else {
      assert (r - 1 - k) * den >= 0;
    }
  }

  function AtMost(s: seq<real>, v: real): nat {
    Count(s, x => x <= v)
  }

  /** In ordered samples exactly the first ones are at or below a bound. */
  lemma {:induction false} OrderedCount(s: seq<real>, k: nat, v: real)
    requires Ordered(s) && k < |s|
    ensures s[k] <= v ==> AtMost(s, v) >= k + 1
    ensures v < s[k] ==> AtMost(s, v) <= k
    decreases |s|
  {
    var front := s[..|s| - 1];
    if k < |front| {
      OrderedCount(front, k, v);
    } else if s[k] <= v {
      AllAtMost(s, v);
    }
  }

  lemma {:induction false} AllAtMost(s: seq<real>, v: real)
    requires forall x :: x in s ==> x <= v
    ensures AtMost(s, v) == |s|
  {
    if s != [] {
      var front, last := s[..|s| - 1], s[|s| - 1];
      assert s == front + [last];
      assert last in s && forall x :: x in front ==> x in s;
      AllAtMost(front, v);
    }
  }

  /** The percentile is a sample, at least `num / den` of the samples are at or below it, and no smaller value has that. */
  lemma PercentileIsLeast(values: seq<Option<real>>, num: nat, den: nat)
    requires 0 < num <= den
    ensures Percentile(values, num, den).None? <==> Samples(values) == []
    ensures Percentile(values, num, den).Some? ==>
              var s, v := Samples(values), Percentile(values, num, den).value;
              && v in s
              && AtMost(s, v) * den >= |s| * num
              && forall w :: AtMost(s, w) * den >= |s| * num ==> v <= w
  {
    var s := Samples(values);
    var ordered := Sorted(s);
    SortedOrdered(s);
    SortedCount(s, x => true);
    if ordered != [] {
      var n := |ordered|;
      RankBounds(n, num, den);
      var k := Rank(n, num, den) - 1;
      var v := ordered[k];
      SortedCount(s, x => x <= v);
      OrderedCount(ordered, k, v);
      assert AtMost(s, v) >= k + 1;
      forall w | AtMost(s, w) * den >= n * num ensures v <= w {
        SortedCount(s, x => x <= w);
        OrderedCount(ordered, k, w);
      }
    }
  }

  /** Percentiles of one sample are ordered by their rank. */
  lemma PercentileMonotone(values: seq<Option<real>>, low: nat, high: nat, den: nat)
    requires 0 < low <= high <= den && Samples(values) != []
    ensures Percentile(values, low, den).Some? && Percentile(values, high, den).Some?
    ensures Percentile(values, low, den).value <= Percentile(values, high, den).value
  {
    PercentileIsLeast(values, low, den);
    PercentileIsLeast(values, high, den);
    var s, v := Samples(values), Percentile(values, high, den).value;
    Weaken(AtMost(s, v) * den, |s|, low, high);
  }

  lemma Weaken(a: nat, n: nat, low: nat, high: nat)
    requires low <= high && a >= n * high
    ensures a >= n * low
  {
  }

  // ---- The metrics of a phase ----

  datatype Spread = Spread(p50: Option<real>, p95: Option<real>, p99: Option<real>)

  function SpreadOf(values: seq<Option<real>>): Spread {
    Spread(Percentile(values, 50, 100), Percentile(values, 95, 100), Percentile(values, 99, 100))
  }

  datatype Metrics = Metrics(
    attempted: nat,
    http200: nat,
    protocolSuccess: nat,
    qualityPass: nat,
    emptyHttp200: nat,
    qualityFailure: int,
    usageRequests: nat,
    ttftSamples: nat,
    e2eSamples: nat,
    ttft: Spread,
    e2e: Spread)

  function IsHttp200(r: Row): bool { r.status == Some(200) }

  function IsProtocolSuccess(r: Row): bool { r.protocolSuccess }

  function IsQualityPass(r: Row): bool { r.qualityPass }

  function HasUsage(r: Row): bool { r.usage.Some? }

  function HasTtft(r: Row): bool { r.ttft.Some? }

  function MetricsOf(rows: seq<Row>): Metrics {
    var good := Filter(rows, IsQualityPass);
    var protocol := Filter(rows, IsProtocolSuccess);
    var usageRows := Filter(protocol, HasUsage);
    var ttftRows := Filter(protocol, HasTtft);
    Metrics(
      |rows|, Count(rows, IsHttp200), |protocol|, |good|,
      Count(rows, (r: Row) => IsHttp200(r) && !r.nonempty),
      |rows| - |good|,
      |usageRows|, |ttftRows|, |protocol|,
      SpreadOf(MapRows(ttftRows, (r: Row) => r.ttft)),
      SpreadOf(MapRows(protocol, (r: Row) => Some(r.e2e))))
  }

  /** The counts of a phase's metrics: nested successes, and failures exactly when a call did not pass. */
  ghost predicate Nested(rows: seq<Row>) {
    var m := MetricsOf(rows);
    && m.qualityPass <= m.ttftSamples <= m.e2eSamples == m.protocolSuccess <= m.http200 <= m.attempted == |rows|
    && m.qualityPass <= m.usageRequests <= m.protocolSuccess
    && m.emptyHttp200 + m.qualityPass <= m.http200
    && m.qualityPass + m.qualityFailure == m.attempted
    && (m.qualityFailure > 0 <==> exists r :: r in rows && !r.qualityPass)
  }

  /** The success counts are nested, and a failure count of zero means that every call passed. */
  lemma MetricsNested(rows: seq<Row>)
    requires forall r :: r in rows ==> RowSound(r)
    ensures Nested(rows)
  {
    FilterFilter(rows, IsProtocolSuccess, HasTtft, r => IsProtocolSuccess(r) && HasTtft(r));
    FilterFilter(rows, IsProtocolSuccess, HasUsage, r => IsProtocolSuccess(r) && HasUsage(r));
    FilterSubset(rows, IsQualityPass, r => IsProtocolSuccess(r) && HasTtft(r));
    FilterSubset(rows, IsQualityPass, r => IsProtocolSuccess(r) && HasUsage(r));
    FilterSubset(rows, IsProtocolSuccess, IsHttp200);
    EmptyOrGood(rows);
    PassesAll(rows);
  }

  lemma {:induction false} EmptyOrGood(rows: seq<Row>)
    requires forall r :: r in rows ==> RowSound(r)
    ensures Count(rows, (r: Row) => IsHttp200(r) && !r.nonempty) + Count(rows, IsQualityPass) <= Count(rows, IsHttp200)
  {
    if rows != [] {
      var n := |rows| - 1;
      assert rows[n] in rows && RowSound(rows[n]);
      EmptyOrGood(rows[..n]);
    }
  }

  lemma {:induction false} PassesAll(rows: seq<Row>)
    ensures Count(rows, IsQualityPass) < |rows| <==> exists r :: r in rows && !r.qualityPass
  {
    if rows != [] {
      var n := |rows| - 1;
      PassesAll(rows[..n]);
      assert rows == rows[..n] + [rows[n]];
      assert forall r :: r in rows <==> r in rows[..n] || r == rows[n];
    }
  }

  lemma {:induction false} AllSamples(values: seq<Option<real>>)
    ensures (forall v :: v in values ==> v.Some?) ==> |Samples(values)| == |values|
  {
    if values != [] {
      var front, last := values[..|values| - 1], values[|values| - 1];
      assert values == front + [last];
      assert last in values && forall v :: v in front ==> v in values;
      AllSamples(front);
    }
  }

  predicate Increasing(s: Spread) {
    s.p50.Some? && s.p95.Some? && s.p99.Some? && s.p50.value <= s.p95.value <= s.p99.value
  }

  lemma SpreadIncreasing(values: seq<Option<real>>)
    requires values != [] && forall v :: v in values ==> v.Some?
    ensures Increasing(SpreadOf(values))
  {
    AllSamples(values);
    PercentileMonotone(values, 50, 95, 100);
    PercentileMonotone(values, 95, 99, 100);
  }

  /** p50 <= p95 <= p99 for both timings, as soon as they have a sample. */
  lemma MetricsOrdered(rows: seq<Row>)
    ensures var m := MetricsOf(rows);
      (m.ttftSamples > 0 ==> Increasing(m.ttft)) && (m.e2eSamples > 0 ==> Increasing(m.e2e))
  {
    var protocol := Filter(rows, IsProtocolSuccess);
    var ttftRows := Filter(protocol, HasTtft);
    var ttfts, e2es := MapRows(ttftRows, (r: Row) => r.ttft), MapRows(protocol, (r: Row) => Some(r.e2e));
    if ttftRows != [] {
      assert forall i :: 0 <= i < |ttftRows| ==> ttftRows[i] in ttftRows;
      SpreadIncreasing(ttfts);
    }
    if protocol != [] {
      SpreadIncreasing(e2es);
    }
  }

  // ---- What the metrics report ----

  /** First-content times of the calls that completed, in order. */
  function FirstTimes(rows: seq<Row>): seq<real> {
    if rows == [] then []
    else
      var last := rows[|rows| - 1];
      FirstTimes(rows[..|rows| - 1]) + if last.protocolSuccess && last.ttft.Some? then [last.ttft.value] else []
  }

  /** Total times of the calls that completed, in order. */
  function TotalTimes(rows: seq<Row>): seq<real> {
    if rows == [] then []
    else
      var last := rows[|rows| - 1];
      TotalTimes(rows[..|rows| - 1]) + if last.protocolSuccess then [last.e2e] else []
  }

  lemma SamplesMore(values: seq<Option<real>>, v: Option<real>)
    ensures Samples(values + [v]) == Samples(values) + match v case None => [] case Some(x) => [x]
  {
    assert (values + [v])[..|values|] == values;
  }

  function TtftOf(r: Row): Option<real> { r.ttft }

  function E2eOf(r: Row): Option<real> { Some(r.e2e) }

  function Timed(r: Row): bool { r.protocolSuccess && r.ttft.Some? }

  lemma SampledMore(rows: seq<Row>, r: Row, f: Row -> Option<real>)
    ensures Samples(MapRows(rows + [r], f)) == Samples(MapRows(rows, f)) + match f(r) case None => [] case Some(x) => [x]
  {
    assert MapRows(rows + [r], f) == MapRows(rows, f) + [f(r)];
    SamplesMore(MapRows(rows, f), f(r));
  }

  lemma {:induction false} FirstSampled(rows: seq<Row>)
    ensures Samples(MapRows(Filter(rows, Timed), TtftOf)) == FirstTimes(rows)
    ensures |FirstTimes(rows)| == Count(rows, Timed)
  {
    if rows != [] {
      var front, last := rows[..|rows| - 1], rows[|rows| - 1];
      FirstSampled(front);
      SampledMore(Filter(front, Timed), last, TtftOf);
    }
  }

  lemma {:induction false} TotalSampled(rows: seq<Row>)
    ensures Samples(MapRows(Filter(rows, IsProtocolSuccess), E2eOf)) == TotalTimes(rows)
    ensures |TotalTimes(rows)| == Count(rows, IsProtocolSuccess)
  {
    if rows != [] {
      var front, last := rows[..|rows| - 1], rows[|rows| - 1];
      TotalSampled(front);
      SampledMore(Filter(front, IsProtocolSuccess), last, E2eOf);
    }
  }

  /** `v` is the least sample with `percent` hundredths of the samples at or below it; without samples there is none. */
  ghost predicate NearestRank(samples: seq<real>, percent: nat, v: Option<real>) {
    match v
    case None => samples == []
    case Some(x) =>
      && x in samples
      && 100 * AtMost(samples, x) >= percent * |samples|
      && forall w :: 100 * AtMost(samples, w) >= percent * |samples| ==> x <= w
  }

  lemma NearestRankOf(values: seq<Option<real>>, percent: nat)
    requires 0 < percent <= 100
    ensures NearestRank(Samples(values), percent, Percentile(values, percent, 100))
  {
    PercentileIsLeast(values, percent, 100);
  }

  ghost predicate SpreadTells(samples: seq<real>, s: Spread) {
    NearestRank(samples, 50, s.p50) && NearestRank(samples, 95, s.p95) && NearestRank(samples, 99, s.p99)
  }

  lemma SpreadIsNearestRank(values: seq<Option<real>>)
    ensures SpreadTells(Samples(values), SpreadOf(values))
  {
    NearestRankOf(values, 50);
    NearestRankOf(values, 95);
    NearestRankOf(values, 99);
  }

  /** Every number of a phase's metrics, from its rows: the five counts and the sample sizes, and of each timing the
      nearest-rank values over the calls that completed. */
  lemma MetricsTell(rows: seq<Row>)
    ensures var m := MetricsOf(rows);
      && m.attempted == |rows|
      && m.http200 == Count(rows, (r: Row) => r.status == Some(200))
      && m.emptyHttp200 == Count(rows, (r: Row) => r.status == Some(200) && !r.nonempty)
      && m.protocolSuccess == Count(rows, (r: Row) => r.protocolSuccess)
      && m.qualityPass == Count(rows, (r: Row) => r.qualityPass)
      && m.qualityFailure == Count(rows, (r: Row) => !r.qualityPass)
      && m.usageRequests == Count(rows, (r: Row) => r.protocolSuccess && r.usage.Some?)
      && m.ttftSamples == |FirstTimes(rows)| && m.e2eSamples == |TotalTimes(rows)|
      && SpreadTells(FirstTimes(rows), m.ttft) && SpreadTells(TotalTimes(rows), m.e2e)
  {
    CountsTell(rows);
    FilterFilter(rows, IsProtocolSuccess, HasTtft, Timed);
    FirstSampled(rows);
    TotalSampled(rows);
    FieldsSampled(Filter(rows, Timed), Filter(rows, IsProtocolSuccess));
    SpreadIsNearestRank(MapRows(Filter(rows, Timed), TtftOf));
    SpreadIsNearestRank(MapRows(Filter(rows, IsProtocolSuccess), E2eOf));
  }

  lemma FieldsSampled(timed: seq<Row>, protocol: seq<Row>)
    ensures MapRows(timed, (r: Row) => r.ttft) == MapRows(timed, TtftOf)
    ensures MapRows(protocol, (r: Row) => Some(r.e2e)) == MapRows(protocol, E2eOf)
  {
  }

  lemma CountsTell(rows: seq<Row>)
    ensures var m := MetricsOf(rows);
      && m.http200 == Count(rows, (r: Row) => r.status == Some(200))
      && m.emptyHttp200 == Count(rows, (r: Row) => r.status == Some(200) && !r.nonempty)
      && m.protocolSuccess == Count(rows, (r: Row) => r.protocolSuccess)
      && m.qualityPass == Count(rows, (r: Row) => r.qualityPass)
      && m.qualityFailure == Count(rows, (r: Row) => !r.qualityPass)
      && m.usageRequests == Count(rows, (r: Row) => r.protocolSuccess && r.usage.Some?)
  {
    FilterFilter(rows, IsProtocolSuccess, HasUsage, (r: Row) => r.protocolSuccess && r.usage.Some?);
    FilterSame(rows, IsHttp200, (r: Row) => r.status == Some(200));
    FilterSame(rows, (r: Row) => IsHttp200(r) && !r.nonempty, (r: Row) => r.status == Some(200) && !r.nonempty);
    FilterSame(rows, IsProtocolSuccess, (r: Row) => r.protocolSuccess);
    FilterSame(rows, IsQualityPass, (r: Row) => r.qualityPass);
    FailuresCounted(rows);
  }

  lemma {:induction false} FailuresCounted(rows: seq<Row>)
    ensures Count(rows, IsQualityPass) + Count(rows, (r: Row) => !r.qualityPass) == |rows|
  {
    if rows != [] {
      FailuresCounted(rows[..|rows| - 1]);
    }
  }
}
