/** The activity heatmap: scheduled blocks counted per day, every day of
    the shown window given an intensity from 0 to 4 relative to the
    busiest day, and the window cut into weeks of seven days. The clock is
    not modelled: the day key of a start time and the key of the day `i`
    days ago are parameters, and so is the length of the three-month view. */
module HeatmapModule {
  import opened JsText
  import opened Seqs
  import opened TimeBlockContext

  datatype DayData = DayData(date: string, count: nat, intensity: nat)

  datatype ViewType = Week | Month

  /** `viewType === 'week' ? 28 : getDaysInLastThreeMonths()`. */
  function DaysToShow(view: ViewType, monthDays: nat): (n: nat)
    ensures view == Week ==> n == 28
    ensures view == Month ==> n == monthDays
  {
    if view == Week then 28 else monthDays
  }

  // -------------------------------------------------------------- buckets

  /** A block is counted when its start time is truthy. */
  predicate Scheduled(b: TimeBlock) {
    Truthy(b.startTime)
  }

  /** `if (!m[k]) m[k] = 0; m[k]++`. */
  function Bump(m: map<string, nat>, k: string): (r: map<string, nat>)
    ensures r.Keys == m.Keys + {k}
    ensures r[k] == (if k in m then m[k] else 0) + 1
    ensures forall j :: j in m && j != k ==> r[j] == m[j]
  {
    m[k := (if k in m then m[k] else 0) + 1]
  }

  /** The record `timeBlocksByDay` after the `forEach` has visited `blocks`
      in order. */
  function Buckets(blocks: seq<TimeBlock>, keyOf: string -> string): map<string, nat>
  {
    if blocks == [] then map[]
    else
      var m := Buckets(blocks[..|blocks| - 1], keyOf);
      var b := blocks[|blocks| - 1];
      if Scheduled(b) then Bump(m, keyOf(b.startTime.value)) else m
  }

  /** The scheduled blocks whose start time falls on day `k`. */
  function OnDay(blocks: seq<TimeBlock>, keyOf: string -> string, k: string): seq<TimeBlock> {
    Filter((b: TimeBlock) => Scheduled(b) && keyOf(b.startTime.value) == k, blocks)
  }

  /** A day has a bucket exactly when some scheduled block falls on it, and
      the bucket holds the number of such blocks. */
  lemma {:induction false} BucketsCount(blocks: seq<TimeBlock>, keyOf: string -> string, k: string)
    ensures k in Buckets(blocks, keyOf) <==> |OnDay(blocks, keyOf, k)| > 0
    ensures k in Buckets(blocks, keyOf) ==> Buckets(blocks, keyOf)[k] == |OnDay(blocks, keyOf, k)|
  {
    if blocks != [] {
      var init := blocks[..|blocks| - 1];
      var b := blocks[|blocks| - 1];
      assert blocks == init + [b];
      BucketsCount(init, keyOf, k);
      FilterConcat((x: TimeBlock) => Scheduled(x) && keyOf(x.startTime.value) == k, init, [b]);
    }
  }

  // --------------------------------------------------- the sum of buckets

  ghost function Pick(m: map<string, nat>): (k: string)
    requires m != map[]
    ensures k in m
  {
    var k :| k in m; k
  }

  /** The sum of a record's values. */
  ghost function MapSum(m: map<string, nat>): nat
    decreases |m.Keys|
  {
    if m == map[] then 0
    else
      var k := Pick(m);
      assert (m - {k}).Keys == m.Keys - {k};
      m[k] + MapSum(m - {k})
  }

  /** The sum does not depend on which key is taken first. */
  lemma {:induction false} MapSumRemove(m: map<string, nat>, k: string)
    requires k in m
    ensures MapSum(m) == m[k] + MapSum(m - {k})
    decreases |m.Keys|
  {
    var j := Pick(m);
    if j != k {
      assert (m - {j}).Keys == m.Keys - {j};
      assert (m - {k}).Keys == m.Keys - {k};
      MapSumRemove(m - {j}, k);
      MapSumRemove(m - {k}, j);
      assert m - {j} - {k} == m - {k} - {j};
    }
  }

  lemma MapSumBump(m: map<string, nat>, k: string)
    ensures MapSum(Bump(m, k)) == MapSum(m) + 1
  {
    var r := Bump(m, k);
    MapSumRemove(r, k);
    assert r - {k} == m - {k};
    if k in m {
      MapSumRemove(m, k);
    } else {
      assert m - {k} == m;
    }
  }

  /** Every scheduled block is counted exactly once and the others not at
      all: the buckets add up to the number of scheduled blocks. */
  lemma {:induction false} BucketsTotal(blocks: seq<TimeBlock>, keyOf: string -> string)
    ensures MapSum(Buckets(blocks, keyOf)) == |Filter(Scheduled, blocks)|
  {
    if blocks != [] {
      var init := blocks[..|blocks| - 1];
      var b := blocks[|blocks| - 1];
      assert blocks == init + [b];
      BucketsTotal(init, keyOf);
      FilterConcat(Scheduled, init, [b]);
      if Scheduled(b) {
        MapSumBump(Buckets(init, keyOf), keyOf(b.startTime.value));
      }
    }
  }

  /** The `forEach` over the blocks. */
  method CountByDay(blocks: seq<TimeBlock>, keyOf: string -> string) returns (m: map<string, nat>)
    ensures m == Buckets(blocks, keyOf)
  {
    m := map[];
    for i := 0 to |blocks|
      invariant m == Buckets(blocks[..i], keyOf)
    {
      assert blocks[..i + 1][..i] == blocks[..i];
      var b := blocks[i];
      if Truthy(b.startTime) {
        var k := keyOf(b.startTime.value);
        if k !in m {
          m := m[k := 0];
        }
        m := m[k := m[k] + 1];
      }
    }
    assert blocks[..|blocks|] == blocks;
  }

  // ------------------------------------------------------------ intensity

  /** `counts.length > 0 ? Math.max(...counts) : 0`, over every bucket. */
  ghost function MaxCount(m: map<string, nat>): (r: nat)
    ensures m == map[] ==> r == 0
    ensures m != map[] ==> exists k :: k in m && m[k] == r
    ensures forall k :: k in m ==> m[k] <= r
    decreases |m.Keys|
  {
    if m == map[] then 0
    else
      var k := Pick(m);
      assert (m - {k}).Keys == m.Keys - {k};
      var rest := MaxCount(m - {k});
      assert forall j :: j in m && j != k ==> j in m - {k};
      if m[k] >= rest then m[k] else rest
  }

  /** `Math.max(...counts)`, computed by visiting the keys. */
  method ComputeMax(m: map<string, nat>) returns (r: nat)
    ensures r == MaxCount(m)
  {
    r := 0;
    var keys := m.Keys;
    while keys != {}
      invariant keys <= m.Keys
      invariant forall k :: k in m && k !in keys ==> m[k] <= r
      invariant r == 0 || exists k :: k in m && k !in keys && m[k] == r
      decreases keys
    {
      var k :| k in keys;
      if m[k] > r {
        r := m[k];
      }
      keys := keys - {k};
    }
    ghost var best := MaxCount(m);
    if m != map[] {
      ghost var j :| j in m && m[j] == best;
      assert best <= r;
    }
  }

  /** `maxCount === 0 ? 0 : Math.min(4, Math.ceil((count / maxCount) * 4))`.
      Multiplying by 4 is exact in floating point and a quotient of two
      counts never rounds across a quarter, so the ceiling is the integer
      one. */
  function Intensity(count: nat, maxCount: nat): (r: nat)
    ensures r <= 4
    ensures maxCount == 0 || count == 0 ==> r == 0
  {
    if maxCount == 0 then 0
    else
      var q := (4 * count + maxCount - 1) / maxCount;
      if q < 4 then q else 4
  }

  /** `(n + d - 1) / d` is the ceiling of `n / d`. */
  lemma CeilQuotient(n: nat, d: nat)
    requires d > 0
    ensures var q := (n + d - 1) / d;
      (q - 1) * d < n <= q * d
  {
    var q := (n + d - 1) / d;
    var rem := (n + d - 1) % d;
    assert n + d - 1 == q * d + rem;
    assert (q - 1) * d == q * d - d;
  }

  /** Below 4 the intensity is the number of quarters of the maximum that
      the count reaches, rounded up; it is 4 exactly when the count is
      above three quarters of the maximum, so on the busiest day. */
  lemma IntensityQuarters(count: nat, maxCount: nat)
    requires maxCount > 0
    ensures var r := Intensity(count, maxCount);
      (r < 4 ==> (r - 1) * maxCount < 4 * count <= r * maxCount) &&
      (r == 4 <==> 3 * maxCount < 4 * count) &&
      (count >= maxCount ==> r == 4)
  {
    var q := (4 * count + maxCount - 1) / maxCount;
    CeilQuotient(4 * count, maxCount);
    if q < 4 {
      MulMono(q, 3, maxCount);
    } else {
      MulMono(3, q - 1, maxCount);
    }
  }

  lemma MulMono(a: int, b: int, d: nat)
    requires a <= b
    ensures a * d <= b * d
  {
  }

  /** For a fixed maximum, a busier day is never lighter. */
  lemma IntensityMonotone(c1: nat, c2: nat, maxCount: nat)
    requires c1 <= c2
    ensures Intensity(c1, maxCount) <= Intensity(c2, maxCount)
  {
    if maxCount > 0 {
      var r1, r2 := Intensity(c1, maxCount), Intensity(c2, maxCount);
      IntensityQuarters(c1, maxCount);
      IntensityQuarters(c2, maxCount);
      if r1 > r2 {
        MulMono(r2, r1 - 1, maxCount);
      }
    }
  }

  // --------------------------------------------------------------- window

  /** The entry for the day keyed `key`: its bucket, or 0. */
  function DayOf(m: map<string, nat>, maxCount: nat, key: string): DayData {
    var count := if key in m then m[key] else 0;
    DayData(key, count, Intensity(count, maxCount))
  }

  /** The window, oldest day first: entry `j` is the day `n - 1 - j` days
      ago. */
  ghost function Window(blocks: seq<TimeBlock>, keyOf: string -> string, daysAgo: nat -> string, n: nat): (days: seq<DayData>)
    ensures |days| == n
  {
    var m := Buckets(blocks, keyOf);
    seq(n, j requires 0 <= j < n => DayOf(m, MaxCount(m), daysAgo(n - 1 - j)))
  }

  /** Each shown day carries its own key, the number of scheduled blocks on
      it, and an intensity that is full on the busiest day. */
  lemma WindowDays(blocks: seq<TimeBlock>, keyOf: string -> string, daysAgo: nat -> string, n: nat, j: nat)
    requires j < n
    ensures var d := Window(blocks, keyOf, daysAgo, n)[j];
      d.date == daysAgo(n - 1 - j) && d.count == |OnDay(blocks, keyOf, d.date)| && d.intensity <= 4 &&
      (d.count > 0 && d.count == MaxCount(Buckets(blocks, keyOf)) ==> d.intensity == 4)
  {
    var m := Buckets(blocks, keyOf);
    var key := daysAgo(n - 1 - j);
    var d := Window(blocks, keyOf, daysAgo, n)[j];
    assert d == DayOf(m, MaxCount(m), key);
    BucketsCount(blocks, keyOf, key);
    if d.count > 0 && d.count == MaxCount(m) {
      IntensityQuarters(d.count, MaxCount(m));
    }
  }

  /** The effect's body: count, take the maximum, and push the shown days
      from the oldest to today. */
  method GenerateDays(blocks: seq<TimeBlock>, keyOf: string -> string, daysAgo: nat -> string, daysToShow: nat)
    returns (days: seq<DayData>)
    ensures days == Window(blocks, keyOf, daysAgo, daysToShow)
  {
    var m := CountByDay(blocks, keyOf);
    var maxCount := ComputeMax(m);
    days := [];
    var i := daysToShow;
    while i > 0
      invariant 0 <= i <= daysToShow
      invariant |days| == daysToShow - i
      invariant forall j :: 0 <= j < |days| ==> days[j] == DayOf(m, maxCount, daysAgo(daysToShow - 1 - j))
    {
      i := i - 1;
      var key := daysAgo(i);
      var count := if key in m then m[key] else 0;
      days := days + [DayData(key, count, Intensity(count, maxCount))];
    }
  }

  // ---------------------------------------------------------------- weeks

  /** `heatmapData.slice(i, i + 7)` for `i` = 0, 7, 14, ... */
  function Weeks<T>(data: seq<T>): (weeks: seq<seq<T>>)
    ensures |weeks| == (|data| + 6) / 7
    ensures forall w :: w in weeks ==> 0 < |w| <= 7
    decreases |data|
  {
    if data == [] then []
    else if |data| <= 7 then [data]
    else [data[..7]] + Weeks(data[7..])
  }

  /** The concatenation of a list of lists. */
  function Flatten<T>(weeks: seq<seq<T>>): seq<T> {
    if weeks == [] then [] else weeks[0] + Flatten(weeks[1..])
  }

  /** The weeks put back together are the data, and every week but the last
      is a full one. */
  lemma {:induction false} WeeksProperties<T>(data: seq<T>)
    ensures Flatten(Weeks(data)) == data
    ensures forall i :: 0 <= i < |Weeks(data)| - 1 ==> |Weeks(data)[i]| == 7
    decreases |data|
  {
    if |data| > 7 {
      WeeksProperties(data[7..]);
      var w := Weeks(data);
      assert w[1..] == Weeks(data[7..]);
      assert data == data[..7] + data[7..];
    } else if data != [] {
      assert Weeks(data)[1..] == [];
    }
  }

  /** The week view's 28 days make four full weeks. */
  lemma FourWeeks<T>(data: seq<T>)
    requires |data| == 28
    ensures |Weeks(data)| == 4
    ensures forall w :: w in Weeks(data) ==> |w| == 7
  {
    WeeksProperties(data);
    var d1 := data[7..];
    var d2 := d1[7..];
    var d3 := d2[7..];
    assert Weeks(d3) == [d3];
    assert Weeks(d2) == [d2[..7], d3];
    assert Weeks(d1) == [d1[..7], d2[..7], d3];
    assert Weeks(data) == [data[..7], d1[..7], d2[..7], d3];
  }

  /** One step of the slicing: the week starting at `i`, then the rest. */
  lemma WeeksFrom<T>(data: seq<T>, i: nat)
    requires i < |data|
    ensures i + 7 < |data| ==> Weeks(data[i..]) == [data[i..i + 7]] + Weeks(data[i + 7..])
    ensures i + 7 >= |data| ==> Weeks(data[i..]) == [data[i..]]
  {
    if i + 7 < |data| {
      assert data[i..][..7] == data[i..i + 7];
      assert data[i..][7..] == data[i + 7..];
    }
  }

  /** The `for` loop that pushes the slices. */
  method ChunkWeeks<T>(data: seq<T>) returns (weeks: seq<seq<T>>)
    ensures weeks == Weeks(data)
  {
    weeks := [];
    var i := 0;
    assert data[0..] == data;
    while i < |data|
      invariant 0 <= i
      invariant i < |data| ==> weeks + Weeks(data[i..]) == Weeks(data)
      invariant i >= |data| ==> weeks == Weeks(data)
      decreases |data| - i
    {
      var end := if i + 7 <= |data| then i + 7 else |data|;
      WeeksFrom(data, i);
      if i + 7 >= |data| {
        assert data[i..end] == data[i..];
      }
      weeks := weeks + [data[i..end]];
      i := i + 7;
    }
  }

  // ---------------------------------------------------------- the module

  class HeatmapView {
    const store: TimeBlockStore
    var viewType: ViewType
    var heatmapData: seq<DayData>

    /** Opens in the week view with no data until the effect runs. */
    constructor (store: TimeBlockStore)
      ensures this.store == store && viewType == Week && heatmapData == []
    {
      this.store := store;
      viewType := Week;
      heatmapData := [];
    }

    /** The effect, run after the blocks or the view change. */
    method Refresh(keyOf: string -> string, daysAgo: nat -> string, monthDays: nat)
      modifies this
      ensures viewType == old(viewType)
      ensures heatmapData == Window(store.timeBlocks, keyOf, daysAgo, DaysToShow(viewType, monthDays))
    {
      heatmapData := GenerateDays(store.timeBlocks, keyOf, daysAgo, DaysToShow(viewType, monthDays));
    }

    /** The Week and Month buttons, followed by the effect they trigger. */
    method SetViewType(v: ViewType, keyOf: string -> string, daysAgo: nat -> string, monthDays: nat)
      modifies this
      ensures viewType == v
      ensures heatmapData == Window(store.timeBlocks, keyOf, daysAgo, DaysToShow(v, monthDays))
    {
      viewType := v;
      Refresh(keyOf, daysAgo, monthDays);
    }

    /** The grid's rows. */
    method WeeksOfData() returns (weeks: seq<seq<DayData>>)
      ensures weeks == Weeks(heatmapData)
    {
      weeks := ChunkWeeks(heatmapData);
    }
  }
}
