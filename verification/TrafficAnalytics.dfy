/**
 Traffic analytics for the metric "usage": samples are bucketed into a series, summed up, laid out by
 hour and ranked, and every view accounts for the same bytes.

 Times are whole seconds, for samples whose time parses.
 */
module TrafficAnalytics {
  import opened Outcome
  import opened Grouping
  import opened Text

  datatype Sample = Sample(at: int, engine: string, scope: string, key: string, status: string, delta: Usage)

  datatype Point = Point(at: int, up: int, down: int, total: int)

  datatype Client = Client(key: string, name: string, enabled: bool)

  /** An inbound with the key its counters use and the engine expected to count it. */
  datatype Inbound = Inbound(key: string, name: string, engine: string, clients: seq<Client>)

  function Engine(s: Sample): string {
    if Token(s.engine) == "sing-box" then "singbox" else Token(s.engine)
  }

  /** Samples of other statuses say that nothing was counted. */
  predicate UsableStatus(status: string) {
    Token(status) == "" || Token(status) == "ok" || Token(status) == "partial"
  }

  predicate CanAggregate(s: Sample) {
    UsableStatus(s.status)
  }

  function Delta(s: Sample): Usage {
    s.delta
  }

  // ---------- Series ----------

  const DEFAULT_BUCKET := 300

  /** Division rounds towards zero. */
  function Truncate(a: int, b: int): int
    requires b > 0
  {
    if a >= 0 then a / b * b else -(-a / b * b)
  }

  function BucketOf(s: Sample, size: int): int {
    Truncate(s.at, SizeOf(size))
  }

  function SeriesKey(size: int): Sample -> Option<int> {
    (s: Sample) => if CanAggregate(s) then Some(BucketOf(s, size)) else None
  }

  predicate Increasing(s: seq<int>) {
    forall i, j :: 0 <= i < j < |s| ==> s[i] < s[j]
  }

  /** How many elements come before x. */
  function Place(x: int, s: seq<int>): (n: nat)
    requires Increasing(s)
    ensures n <= |s|
    ensures forall i :: 0 <= i < n ==> s[i] < x
    ensures forall i :: n <= i < |s| ==> x <= s[i]
  {
    if s == [] || s[|s| - 1] < x then |s| else Place(x, s[..|s| - 1])
  }

  /** The listed keys in increasing order. */
  function Sort(keys: seq<int>): (r: seq<int>)
    ensures Increasing(r)
  {
    if keys == [] then []
    else
      var x, r := keys[|keys| - 1], Sort(keys[..|keys| - 1]);
      var n := Place(x, r);
      if n < |r| && r[n] == x then r else r[..n] + [x] + r[n..]
  }

  lemma {:induction false} SortKeeps(keys: seq<int>, k: int)
    ensures k in Sort(keys) <==> k in keys
    decreases |keys|
  {
    hide Place, Increasing;
    if keys != [] {
      var init, x := keys[..|keys| - 1], keys[|keys| - 1];
      SortKeeps(init, k);
      assert keys == init + [x];
      PlacedKeeps(x, Sort(init), k);
    }
  }

  lemma PlacedKeeps(x: int, r: seq<int>, k: int)
    requires Increasing(r)
    ensures var n := Place(x, r); k in (if n < |r| && r[n] == x then r else r[..n] + [x] + r[n..]) <==> k == x || k in r
  {
    hide Place, Increasing;
    var n := Place(x, r);
    assert r == r[..n] + r[n..];
    assert n < |r| && r[n] == x ==> x in r;
  }

  lemma SortListsKeys(keys: seq<int>, m: map<int, Usage>)
    requires ListsKeys(keys, m)
    ensures ListsKeys(Sort(keys), m)
  {
    hide Sort;
    var r := Sort(keys);
    forall i | 0 <= i < |r| ensures r[i] in m {
      SortKeeps(keys, r[i]);
      var j :| 0 <= j < |keys| && keys[j] == r[i];
    }
    forall k | k in m ensures k in r {
      SortKeeps(keys, k);
    }
  }

  function PointAt(at: int, u: Usage): Point {
    Point(at, u.up, u.down, u.Total())
  }

  /** What the points of a series add up to. */
  function SeriesSum(series: seq<Point>): Usage {
    if series == [] then NONE
    else SeriesSum(series[..|series| - 1]).Plus(Usage(series[|series| - 1].up, series[|series| - 1].down))
  }

  // What the series has to hold, without its keys: samples count by what their status reads.

  const COUNTED := {"", "ok", "partial"}

  predicate Counts(s: Sample) {
    Lower(Trim(s.status)) in COUNTED
  }

  /** The bytes of every sample that counts. */
  function CountedBytes(samples: seq<Sample>): Usage {
    if samples == [] then NONE
    else
      var last := samples[|samples| - 1];
      CountedBytes(samples[..|samples| - 1]).Plus(if Counts(last) then last.delta else NONE)
  }

  /** The multiple of the size at or before a time, or at or after one before the epoch. */
  predicate InBucket(t: int, at: int, size: int)
    requires size > 0
  {
    at % size == 0 && if t >= 0 then at <= t < at + size else at - size < t <= at
  }

  /** The bytes of the samples that count and fall into the bucket. */
  function BytesIn(samples: seq<Sample>, at: int, size: int): Usage
    requires size > 0
  {
    if samples == [] then NONE
    else
      var last := samples[|samples| - 1];
      BytesIn(samples[..|samples| - 1], at, size).Plus(if Counts(last) && InBucket(last.at, at, size) then last.delta else NONE)
  }

  lemma Multiple(at: int, size: int) returns (k: int)
    requires size > 0 && at % size == 0
    ensures at == k * size
  {
    k := at / size;
  }

  lemma OneMultipleBelow(d: int, size: int)
    requires size > 0 && -size < d * size < size
    ensures d == 0
  {
    assert d >= 1 ==> d * size >= size;
    assert d <= -1 ==> d * size <= -size;
  }

  lemma SameMultiple(t: int, j: int, k: int, size: int)
    requires size > 0 && j * size <= t < j * size + size && k * size <= t < k * size + size
    ensures j == k
  {
    assert (j - k) * size == j * size - k * size;
    OneMultipleBelow(j - k, size);
  }

  lemma RoundsDown(t: nat, at: int, size: int)
    requires size > 0
    ensures t / size * size == at <==> at % size == 0 && at <= t < at + size
  {
    var q := t / size;
    assert t == q * size + t % size;
    MultipleOf(q, size);
    if at % size == 0 && at <= t < at + size {
      var k := Multiple(at, size);
      SameMultiple(t, k, q, size);
    }
  }

  lemma MultipleOf(q: int, size: int)
    requires size > 0
    ensures q * size % size == 0
  {
    var x := q * size;
    var k, r := x / size, x % size;
    assert x == k * size + r;
    assert (q - k) * size == q * size - k * size == r;
    OneMultipleBelow(q - k, size);
  }

  lemma NegatedMultiple(at: int, size: int)
    requires size > 0
    ensures -at % size == 0 <==> at % size == 0
  {
    if at % size == 0 {
      var k := Multiple(at, size);
      assert -at == (-k) * size;
      MultipleOf(-k, size);
    }
    if -at % size == 0 {
      var k := Multiple(-at, size);
      assert at == (-k) * size;
      MultipleOf(-k, size);
    }
  }

  lemma BucketIs(t: int, at: int, size: int)
    requires size > 0
    ensures Truncate(t, size) == at <==> InBucket(t, at, size)
  {
    if t >= 0 {
      RoundsDown(t, at, size);
    } else {
      RoundsDown(-t, -at, size);
      NegatedMultiple(at, size);
    }
  }

  function SizeOf(size: int): (s: int)
    ensures s > 0
  {
    if size <= 0 then DEFAULT_BUCKET else size
  }

  lemma {:induction false} BytesInIs(samples: seq<Sample>, at: int, size: int)
    ensures SumFor(samples, SeriesKey(size), Delta, at) == BytesIn(samples, at, SizeOf(size))
    decreases |samples|
  {
    hide SeriesKey, Counts, InBucket;
    if samples != [] {
      BytesInIs(samples[..|samples| - 1], at, size);
      KeyedIfCounted(samples[|samples| - 1], size);
    }
  }

  lemma {:induction false} CountedIs(samples: seq<Sample>, size: int)
    ensures SumKnown(samples, SeriesKey(size), Delta) == CountedBytes(samples)
    decreases |samples|
  {
    hide SeriesKey, Counts;
    if samples != [] {
      CountedIs(samples[..|samples| - 1], size);
      KeyedIfCounted(samples[|samples| - 1], size);
    }
  }

  lemma KeyedIfCounted(s: Sample, size: int)
    ensures SeriesKey(size)(s).Some? <==> Counts(s)
    ensures forall at :: SeriesKey(size)(s) == Some(at) <==> Counts(s) && InBucket(s.at, at, SizeOf(size))
  {
    hide Trim, Lower, InBucket, Truncate;
    forall at ensures BucketOf(s, size) == at <==> InBucket(s.at, at, SizeOf(size)) {
      BucketIs(s.at, at, SizeOf(size));
    }
  }

  /** Adds every usable sample to its bucket and notes the buckets in the order they appear. */
  method FillBuckets(samples: seq<Sample>, size: int) returns (buckets: map<int, Usage>, order: seq<int>)
    ensures buckets == Grouped(samples, SeriesKey(size), Delta) && ListsKeys(order, buckets)
  {
    hide CanAggregate, BucketOf;
    buckets, order := map[], [];
    for i := 0 to |samples|
      invariant buckets == Grouped(samples[..i], SeriesKey(size), Delta)
      invariant ListsKeys(order, buckets)
    {
      assert samples[..i + 1][..i] == samples[..i];
      if !CanAggregate(samples[i]) {
        continue;
      }
      var bucket := BucketOf(samples[i], size);
      assert SeriesKey(size)(samples[i]) == Some(bucket);
      ListsKeysMore(order, buckets, bucket, samples[i].delta);
      if bucket !in buckets {
        order := order + [bucket];
      }
      buckets := AddTo(buckets, bucket, samples[i].delta);
    }
    assert samples[..|samples|] == samples;
  }

  lemma ListsKeysMore(order: seq<int>, m: map<int, Usage>, k: int, u: Usage)
    requires ListsKeys(order, m)
    ensures ListsKeys(if k in m then order else order + [k], AddTo(m, k, u))
  {
    if k !in m {
      var longer := order + [k];
      assert longer[|order|] == k;
      forall j | j in m ensures j in longer {
        var i :| 0 <= i < |order| && order[i] == j;
        assert longer[i] == j;
      }
    }
  }

  /** The sums as points, in the order of the keys. */
  function PointList(order: seq<int>, m: map<int, Usage>): (series: seq<Point>)
    requires forall i :: 0 <= i < |order| ==> order[i] in m
    ensures |series| == |order| && forall i :: 0 <= i < |order| ==> series[i] == PointAt(order[i], m[order[i]])
  {
    if order == [] then []
    else PointList(order[..|order| - 1], m) + [PointAt(order[|order| - 1], m[order[|order| - 1]])]
  }

  lemma {:induction false} PointListSum(order: seq<int>, m: map<int, Usage>)
    requires forall i :: 0 <= i < |order| ==> order[i] in m
    ensures SeriesSum(PointList(order, m)) == ListSum(order, m)
    decreases |order|
  {
    if order != [] {
      PointListSum(order[..|order| - 1], m);
      var series := PointList(order, m);
      assert series[..|series| - 1] == PointList(order[..|order| - 1], m);
    }
  }

  method PointsOf(order: seq<int>, m: map<int, Usage>) returns (series: seq<Point>)
    requires ListsKeys(order, m)
    ensures series == PointList(order, m)
  {
    series := [];
    for i := 0 to |order|
      invariant series == PointList(order[..i], m)
    {
      assert order[..i + 1][..i] == order[..i];
      series := series + [PointAt(order[i], m[order[i]])];
    }
    assert order[..|order|] == order;
  }

  /** One point per bucket, in strictly increasing time, each with the bytes of the samples that count there, and nothing lost. */
  method BucketSeries(samples: seq<Sample>, size: int) returns (series: seq<Point>)
    ensures forall i, j :: 0 <= i < j < |series| ==> series[i].at < series[j].at
    ensures forall i :: 0 <= i < |series| ==> series[i] == PointAt(series[i].at, BytesIn(samples, series[i].at, if size > 0 then size else 300))
    ensures SeriesSum(series) == CountedBytes(samples)
  {
    hide BytesIn, CountedBytes, SumFor, SumKnown, Sort, MapSum, Grouped, SeriesKey, SeriesSum, PointList, ListSum;
    var buckets, order := FillBuckets(samples, size);
    SortListsKeys(order, buckets);
    order := Sort(order);
    series := PointsOf(order, buckets);
    PointListSum(order, buckets);
    ListSumIsMapSum(order, buckets);
    GroupedConserves(samples, SeriesKey(size), Delta);
    CountedIs(samples, size);
    forall i | 0 <= i < |series| ensures series[i] == PointAt(series[i].at, BytesIn(samples, series[i].at, SizeOf(size))) {
      BytesInIs(samples, order[i], size);
      GroupedAt(samples, SeriesKey(size), Delta, order[i]);
    }
  }

  // ---------- Summary ----------

  datatype Totals = Totals(up: int, down: int, total: int, peakTotal: int, points: nat)

  method Summarize(series: seq<Point>) returns (t: Totals)
    requires forall i :: 0 <= i < |series| ==> series[i].total == series[i].up + series[i].down
    ensures Usage(t.up, t.down) == SeriesSum(series) && t.total == t.up + t.down && t.points == |series|
    ensures forall i :: 0 <= i < |series| ==> series[i].total <= t.peakTotal
    ensures t.peakTotal == 0 || exists i :: 0 <= i < |series| && series[i].total == t.peakTotal
  {
    t := Totals(0, 0, 0, 0, |series|);
    for i := 0 to |series|
      invariant Usage(t.up, t.down) == SeriesSum(series[..i]) && t.total == t.up + t.down && t.points == |series|
      invariant forall j :: 0 <= j < i ==> series[j].total <= t.peakTotal
      invariant t.peakTotal == 0 || exists j :: 0 <= j < i && series[j].total == t.peakTotal
    {
      assert series[..i + 1][..i] == series[..i];
      var p := series[i];
      t := t.(up := t.up + p.up, down := t.down + p.down, total := t.total + p.total);
      if p.total > t.peakTotal {
        t := t.(peakTotal := p.total);
      }
    }
    assert series[..|series|] == series;
  }

  // ---------- Heatmap ----------

  const HOUR := 3600

  datatype Cell = Cell(day: int, hour: int, total: int)

  /** Days and hours of the day, by the hour since the epoch. */
  function HourKey(p: Point): Option<int> {
    Some(p.at / HOUR)
  }

  function PointUsage(p: Point): Usage {
    Usage(p.up, p.down)
  }

  function CellAt(hour: int, u: Usage): (c: Cell)
    ensures 0 <= c.hour < 24 && c.total == u.Total() && 24 * c.day + c.hour == hour
  {
    Cell(hour / 24, hour % 24, u.Total())
  }

  function CellSum(cells: seq<Cell>): int {
    if cells == [] then 0 else CellSum(cells[..|cells| - 1]) + cells[|cells| - 1].total
  }

  /** The bytes of the points within the hour. */
  function HourBytes(series: seq<Point>, day: int, hour: int): int {
    if series == [] then 0
    else
      var p := series[|series| - 1];
      HourBytes(series[..|series| - 1], day, hour) + (if (day * 24 + hour) * 3600 <= p.at < (day * 24 + hour) * 3600 + 3600 then p.up + p.down else 0)
  }

  lemma HourIs(p: Point, day: int, hour: int)
    ensures HourKey(p) == Some(24 * day + hour) <==> (day * 24 + hour) * 3600 <= p.at < (day * 24 + hour) * 3600 + 3600
  {
  }

  lemma {:induction false} HourBytesIs(series: seq<Point>, day: int, hour: int)
    ensures SumFor(series, HourKey, PointUsage, 24 * day + hour).Total() == HourBytes(series, day, hour)
    decreases |series|
  {
    hide HourKey;
    if series != [] {
      HourBytesIs(series[..|series| - 1], day, hour);
      HourIs(series[|series| - 1], day, hour);
    }
  }

  lemma {:induction false} SeriesSumKnown(series: seq<Point>)
    ensures SumKnown(series, HourKey, PointUsage) == SeriesSum(series)
    decreases |series|
  {
    if series != [] {
      SeriesSumKnown(series[..|series| - 1]);
    }
  }

  method FillHours(series: seq<Point>) returns (byHour: map<int, Usage>, order: seq<int>)
    ensures byHour == Grouped(series, HourKey, PointUsage) && ListsKeys(order, byHour)
  {
    byHour, order := map[], [];
    for i := 0 to |series|
      invariant byHour == Grouped(series[..i], HourKey, PointUsage)
      invariant ListsKeys(order, byHour)
    {
      assert series[..i + 1][..i] == series[..i];
      var hour := series[i].at / HOUR;
      ListsKeysMore(order, byHour, hour, PointUsage(series[i]));
      if hour !in byHour {
        order := order + [hour];
      }
      byHour := AddTo(byHour, hour, PointUsage(series[i]));
    }
    assert series[..|series|] == series;
  }

  function CellList(order: seq<int>, m: map<int, Usage>): (cells: seq<Cell>)
    requires forall i :: 0 <= i < |order| ==> order[i] in m
    ensures |cells| == |order| && forall i :: 0 <= i < |order| ==> cells[i] == CellAt(order[i], m[order[i]])
  {
    hide CellAt;
    if order == [] then []
    else CellList(order[..|order| - 1], m) + [CellAt(order[|order| - 1], m[order[|order| - 1]])]
  }

  lemma {:induction false} CellListSum(order: seq<int>, m: map<int, Usage>)
    requires forall i :: 0 <= i < |order| ==> order[i] in m
    ensures CellSum(CellList(order, m)) == ListSum(order, m).Total()
    decreases |order|
  {
    hide CellAt;
    if order != [] {
      CellListSum(order[..|order| - 1], m);
      var cells := CellList(order, m);
      assert cells[..|cells| - 1] == CellList(order[..|order| - 1], m);
    }
  }

  method CellsOf(order: seq<int>, m: map<int, Usage>) returns (cells: seq<Cell>)
    requires ListsKeys(order, m)
    ensures cells == CellList(order, m)
  {
    hide CellAt;
    cells := [];
    for i := 0 to |order|
      invariant cells == CellList(order[..i], m)
    {
      assert order[..i + 1][..i] == order[..i];
      cells := cells + [CellAt(order[i], m[order[i]])];
    }
    assert order[..|order|] == order;
  }

  /** One cell per hour that holds a point, in order, with the bytes of its points. */
  method Heatmap(series: seq<Point>) returns (cells: seq<Cell>)
    ensures forall i :: 0 <= i < |cells| ==> 0 <= cells[i].hour < 24
    ensures forall i, j :: 0 <= i < j < |cells| ==> cells[i].day < cells[j].day || (cells[i].day == cells[j].day && cells[i].hour < cells[j].hour)
    ensures forall i :: 0 <= i < |cells| ==> cells[i].total == HourBytes(series, cells[i].day, cells[i].hour)
    ensures CellSum(cells) == SeriesSum(series).Total()
  {
    hide HourBytes, SumFor, SumKnown, Sort, MapSum, Grouped, CellSum, SeriesSum, CellAt, CellList, ListSum;
    var byHour, order := FillHours(series);
    SortListsKeys(order, byHour);
    order := Sort(order);
    cells := CellsOf(order, byHour);
    CellListSum(order, byHour);
    ListSumIsMapSum(order, byHour);
    GroupedConserves(series, HourKey, PointUsage);
    SeriesSumKnown(series);
    forall i | 0 <= i < |cells| ensures cells[i].total == HourBytes(series, cells[i].day, cells[i].hour) {
      HourBytesIs(series, cells[i].day, cells[i].hour);
      GroupedAt(series, HourKey, PointUsage, order[i]);
    }
  }
}
