/** Billing figures from the upstream service: checking a snapshot, turning it into a trend,
    and adding the trend up again in another package, all in 64-bit integers. */
module Billing {
  import opened Common

  const MAX: int := 0x7FFF_FFFF_FFFF_FFFF

  newtype int64 = x: int | -0x8000_0000_0000_0000 <= x <= 0x7FFF_FFFF_FFFF_FFFF

  datatype Usage = Usage(requests: int64, input: int64, cached: int64, output: int64, total: int64)

  datatype Point = Point(bucket: Time, usage: Usage)

  // The days from `first` to `last` of the fixed zone, by their first seconds.
  datatype Range = Range(first: Time, last: Time, hourly: bool)

  const NOTHING := Usage(0, 0, 0, 0, 0)

  // ---- Sums ----

  datatype Field = Requests | Input | Cached | Output | Total

  function Of(u: Usage, f: Field): int {
    match f
    case Requests => u.requests as int
    case Input => u.input as int
    case Cached => u.cached as int
    case Output => u.output as int
    case Total => u.total as int
  }

  function Sum(points: seq<Point>, f: Field): int {
    if points == [] then 0 else Sum(points[..|points| - 1], f) + Of(points[|points| - 1].usage, f)
  }

  predicate SumsTo(points: seq<Point>, u: Usage) {
    && Sum(points, Requests) == u.requests as int && Sum(points, Input) == u.input as int
    && Sum(points, Cached) == u.cached as int && Sum(points, Output) == u.output as int
    && Sum(points, Total) == u.total as int
  }

  // ---- What a valid snapshot is ----

  predicate ValidUsage(u: Usage) {
    && u.requests >= 0 && u.input >= 0 && u.cached >= 0 && u.output >= 0 && u.total >= 0
    && u.input as int + u.cached as int + u.output as int == u.total as int
  }

  predicate InRange(r: Range, b: Time) {
    r.first <= b < r.last + DAY && (r.hourly ==> (b + ZONE) % HOUR == 0)
  }

  predicate OneEach(points: seq<Point>) {
    forall i, j :: 0 <= i < j < |points| ==> points[i].bucket != points[j].bucket
  }

  predicate PointsOk(points: seq<Point>, r: Range) {
    forall i :: 0 <= i < |points| ==> InRange(r, points[i].bucket) && ValidUsage(points[i].usage)
  }

  predicate IsValid(points: seq<Point>, stats: Usage, r: Range) {
    r.first <= r.last && PointsOk(points, r) && OneEach(points) && SumsTo(points, stats)
  }

  // Sums of valid usages never fall as points are added.
  lemma {:induction false} SumsRise(points: seq<Point>, k: nat, f: Field)
    requires k <= |points| && forall i :: 0 <= i < |points| ==> ValidUsage(points[i].usage)
    ensures 0 <= Sum(points[..k], f) <= Sum(points, f)
    decreases |points|
  {
    if points != [] {
      var n := |points| - 1;
      SumsRise(points[..n], if k <= n then k else n, f);
      if k <= n {
        assert points[..n][..k] == points[..k];
      } else {
        assert points[..k] == points;
        assert points[..n][..n] == points[..n];
      }
    } else {
      assert points[..k] == [];
    }
  }

  method ValidateUsage(u: Usage) returns (ok: bool)
    ensures ok <==> ValidUsage(u)
  {
    if u.requests < 0 || u.input < 0 || u.cached < 0 || u.output < 0 || u.total < 0 {
      return false;
    }
    var total := u.input;
    if total > 0x7FFF_FFFF_FFFF_FFFF - u.cached {
      return false;
    }
    total := total + u.cached;
    if total > 0x7FFF_FFFF_FFFF_FFFF - u.output {
      return false;
    }
    total := total + u.output;
    ok := total == u.total;
  }

  // Adds, unless one of the additions would overflow.
  method AddUsage(u: Usage, v: Usage) returns (sum: Option<Usage>)
    requires u.requests >= 0 && u.input >= 0 && u.cached >= 0 && u.output >= 0 && u.total >= 0 && ValidUsage(v)
    ensures sum.Some? ==> forall f :: Of(sum.value, f) == Of(u, f) + Of(v, f)
    ensures sum.None? ==> exists f :: Of(u, f) + Of(v, f) > MAX
  {
    if u.requests > 0x7FFF_FFFF_FFFF_FFFF - v.requests {
      assert Of(u, Requests) + Of(v, Requests) > MAX;
      return None;
    }
    if u.input > 0x7FFF_FFFF_FFFF_FFFF - v.input {
      assert Of(u, Input) + Of(v, Input) > MAX;
      return None;
    }
    if u.cached > 0x7FFF_FFFF_FFFF_FFFF - v.cached {
      assert Of(u, Cached) + Of(v, Cached) > MAX;
      return None;
    }
    if u.output > 0x7FFF_FFFF_FFFF_FFFF - v.output {
      assert Of(u, Output) + Of(v, Output) > MAX;
      return None;
    }
    if u.total > 0x7FFF_FFFF_FFFF_FFFF - v.total {
      assert Of(u, Total) + Of(v, Total) > MAX;
      return None;
    }
    sum := Some(Usage(u.requests + v.requests, u.input + v.input, u.cached + v.cached, u.output + v.output,
        u.total + v.total));
  }

  // A snapshot passes just when it is valid: that its sums fit is no further condition.
  method ValidateSnapshot(points: seq<Point>, stats: Usage, r: Range) returns (ok: bool)
    ensures ok <==> IsValid(points, stats, r)
  {
    if r.last < r.first {
      return false;
    }
    var seen: set<Time> := {};
    var total := NOTHING;
    for i := 0 to |points|
      invariant PointsOk(points[..i], r) && OneEach(points[..i])
      invariant seen == set j | 0 <= j < i :: points[j].bucket
      invariant forall f :: Of(total, f) == Sum(points[..i], f) >= 0
    {
      var p := points[i];
      assert points[..i + 1] == points[..i] + [p];
      if p.bucket < r.first || p.bucket >= r.last + DAY || (r.hourly && (p.bucket + ZONE) % HOUR != 0) {
        return false;
      }
      if p.bucket in seen {
        return false;
      }
      seen := seen + {p.bucket};
      var valid := ValidateUsage(p.usage);
      if !valid {
        return false;
      }
      assert Of(total, Requests) >= 0 && Of(total, Input) >= 0 && Of(total, Cached) >= 0 && Of(total, Output) >= 0
          && Of(total, Total) >= 0;
      var sum := AddUsage(total, p.usage);
      if sum.None? {
        TooMuch(points, i, total, stats, r);
        return false;
      }
      total := sum.value;
      forall f
        ensures Of(total, f) == Sum(points[..i + 1], f) >= 0
      {
        assert points[..i + 1][..i] == points[..i];
      }
    }
    assert points[..|points|] == points;
    forall f
      ensures Of(total, f) == Sum(points, f)
    {}
    ok := total == stats;
    SameUsage(total, stats);
  }

  lemma SameUsage(u: Usage, v: Usage)
    ensures u == v <==> forall f :: Of(u, f) == Of(v, f)
  {
    if forall f :: Of(u, f) == Of(v, f) {
      assert Of(u, Requests) == Of(v, Requests) && Of(u, Input) == Of(v, Input) && Of(u, Cached) == Of(v, Cached);
      assert Of(u, Output) == Of(v, Output) && Of(u, Total) == Of(v, Total);
    }
  }

  // Where an addition would overflow, the sums of all points cannot be the given figures.
  lemma TooMuch(points: seq<Point>, i: nat, total: Usage, stats: Usage, r: Range)
    requires i < |points| && (forall f :: Of(total, f) == Sum(points[..i], f))
    requires exists f :: Of(total, f) + Of(points[i].usage, f) > MAX
    ensures !IsValid(points, stats, r)
  {
    var f :| Of(total, f) + Of(points[i].usage, f) > MAX;
    assert points[..i + 1][..i] == points[..i];
    if PointsOk(points, r) {
      SumsRise(points, i + 1, f);
      assert Sum(points, f) > MAX >= Of(stats, f);
    }
  }

  // ---- The trend handed on: input counts cached tokens in ----

  function Folded(u: Usage): Usage
    requires ValidUsage(u)
  {
    Usage(0, u.input + u.cached, u.cached, u.output, u.total)
  }

  predicate AllValid(points: seq<Point>) {
    forall i :: 0 <= i < |points| ==> ValidUsage(points[i].usage)
  }

  function FoldedTrend(points: seq<Point>): (trend: seq<Point>)
    requires AllValid(points)
    ensures |trend| == |points|
  {
    if points == [] then []
    else
      var p := points[|points| - 1];
      FoldedTrend(points[..|points| - 1]) + [Point(p.bucket, Folded(p.usage))]
  }

  // The point's figures, with cached input counted in.
  ghost predicate IsFolded(p: Point, q: Point) {
    && q.bucket == p.bucket && q.usage.requests == 0
    && q.usage.input as int == p.usage.input as int + p.usage.cached as int
    && q.usage.cached == p.usage.cached && q.usage.output == p.usage.output && q.usage.total == p.usage.total
  }

  // The additions are those of 64-bit integers: none overflows on a valid snapshot.
  method SnapshotTrend(points: seq<Point>) returns (trend: seq<Point>)
    requires AllValid(points)
    ensures |trend| == |points|
    ensures forall i :: 0 <= i < |points| ==> IsFolded(points[i], trend[i])
    ensures trend == FoldedTrend(points)
  {
    trend := [];
    for i := 0 to |points|
      invariant trend == FoldedTrend(points[..i])
      invariant forall j :: 0 <= j < i ==> IsFolded(points[j], trend[j])
    {
      var p := points[i];
      assert points[..i + 1][..i] == points[..i];
      var input := p.usage.input + p.usage.cached;
      trend := trend + [Point(p.bucket, Usage(0, input, p.usage.cached, p.usage.output, p.usage.total))];
    }
    assert points[..|points|] == points;
  }

  lemma {:induction false} FoldedSums(points: seq<Point>)
    requires AllValid(points)
    ensures var trend := FoldedTrend(points);
      && Sum(trend, Input) == Sum(points, Input) + Sum(points, Cached) && Sum(trend, Cached) == Sum(points, Cached)
      && Sum(trend, Output) == Sum(points, Output) && Sum(trend, Total) == Sum(points, Total)
  {
    if points != [] {
      FoldedSums(points[..|points| - 1]);
      var front := FoldedTrend(points[..|points| - 1]);
      assert FoldedTrend(points)[..|points| - 1] == front;
    }
  }

  lemma {:induction false} FoldedPoints(points: seq<Point>, i: nat)
    requires AllValid(points) && i < |points|
    ensures FoldedTrend(points)[i].bucket == points[i].bucket && FoldedTrend(points)[i].usage == Folded(points[i].usage)
  {
    if i < |points| - 1 {
      FoldedPoints(points[..|points| - 1], i);
    }
  }

  // Every input is folded in: the parts still make up the total.
  lemma {:induction false} PartsMakeTotal(points: seq<Point>)
    requires AllValid(points)
    ensures Sum(points, Input) + Sum(points, Cached) + Sum(points, Output) == Sum(points, Total)
  {
    if points != [] {
      PartsMakeTotal(points[..|points| - 1]);
    }
  }

  // ---- Adding the trend up ----

  predicate NonNegative(u: Usage) {
    u.input >= 0 && u.cached >= 0 && u.output >= 0 && u.total >= 0
  }

  predicate TooLarge(trend: seq<Point>) {
    Sum(trend, Input) > MAX || Sum(trend, Cached) > MAX || Sum(trend, Output) > MAX || Sum(trend, Total) > MAX
  }

  // The sum of a trend's points, or none when some addition would overflow.
  method SumTrend(trend: seq<Point>) returns (usage: Option<Usage>)
    requires forall i :: 0 <= i < |trend| ==> NonNegative(trend[i].usage)
    ensures usage.None? <==> TooLarge(trend)
    ensures usage.Some? ==>
        && usage.value.input as int == Sum(trend, Input) && usage.value.cached as int == Sum(trend, Cached)
        && usage.value.output as int == Sum(trend, Output) && usage.value.total as int == Sum(trend, Total)
  {
    var u := NOTHING;
    for i := 0 to |trend|
      invariant NonNegative(u)
      invariant u.input as int == Sum(trend[..i], Input) && u.cached as int == Sum(trend[..i], Cached)
      invariant u.output as int == Sum(trend[..i], Output) && u.total as int == Sum(trend[..i], Total)
    {
      var p := trend[i].usage;
      assert trend[..i + 1][..i] == trend[..i];
      TrendRises(trend, i + 1);
      if u.input > 0x7FFF_FFFF_FFFF_FFFF - p.input || u.cached > 0x7FFF_FFFF_FFFF_FFFF - p.cached
         || u.output > 0x7FFF_FFFF_FFFF_FFFF - p.output || u.total > 0x7FFF_FFFF_FFFF_FFFF - p.total {
        return None;
      }
      u := Usage(0, u.input + p.input, u.cached + p.cached, u.output + p.output, u.total + p.total);
    }
    assert trend[..|trend|] == trend;
    usage := Some(u);
  }

  lemma {:induction false} TrendRises(trend: seq<Point>, k: nat)
    requires k <= |trend| && forall i :: 0 <= i < |trend| ==> NonNegative(trend[i].usage)
    ensures Sum(trend[..k], Input) <= Sum(trend, Input) && Sum(trend[..k], Cached) <= Sum(trend, Cached)
    ensures Sum(trend[..k], Output) <= Sum(trend, Output) && Sum(trend[..k], Total) <= Sum(trend, Total)
    decreases |trend| - k
  {
    if k == |trend| {
      assert trend[..k] == trend;
    } else {
      TrendRises(trend, k + 1);
      assert trend[..k + 1][..k] == trend[..k];
    }
  }

  // On the trend of a valid snapshot no addition overflows, and the sums are the figures
  // of the snapshot with cached input folded in.
  lemma TotalsAreTheFigures(points: seq<Point>, stats: Usage, r: Range)
    requires IsValid(points, stats, r)
    ensures var trend := FoldedTrend(points);
      && !TooLarge(trend) && (forall i :: 0 <= i < |trend| ==> NonNegative(trend[i].usage))
      && Sum(trend, Input) == stats.input as int + stats.cached as int && Sum(trend, Cached) == stats.cached as int
      && Sum(trend, Output) == stats.output as int && Sum(trend, Total) == stats.total as int
  {
    FoldedSums(points);
    PartsMakeTotal(points);
    SumsRise(points, 0, Output);
    assert points[..0] == [];
    forall i | 0 <= i < |points|
      ensures NonNegative(FoldedTrend(points)[i].usage)
    {
      FoldedPoints(points, i);
    }
  }

  // ---- Filling the trend ----

  // The start of the k-th bucket.
  function Bucket(first: Time, step: int, k: nat): Time {
    if k == 0 then first else Bucket(first, step, k - 1) + step
  }

  // The last point given for a bucket, or an empty one.
  function PointFor(trend: seq<Point>, b: Time): Point {
    if trend == [] then Point(b, NOTHING)
    else if trend[|trend| - 1].bucket == b then trend[|trend| - 1]
    else PointFor(trend[..|trend| - 1], b)
  }

  function Filled(trend: seq<Point>, first: Time, step: int, n: nat): (out: seq<Point>)
    ensures |out| == n
  {
    if n == 0 then [] else Filled(trend, first, step, n - 1) + [PointFor(trend, Bucket(first, step, n - 1))]
  }

  // The last point that the trend has for this time, or one without any usage.
  ghost predicate IsFilledFrom(trend: seq<Point>, p: Point) {
    if forall q :: q in trend ==> q.bucket != p.bucket then forall f :: Of(p.usage, f) == 0
    else exists i :: 0 <= i < |trend| && trend[i] == p && forall j :: i < j < |trend| ==> trend[j].bucket != p.bucket
  }

  lemma {:induction false} PointForIs(trend: seq<Point>, b: Time)
    ensures PointFor(trend, b).bucket == b && IsFilledFrom(trend, PointFor(trend, b))
  {
    if trend != [] {
      var n := |trend| - 1;
      PointForIs(trend[..n], b);
      assert trend == trend[..n] + [trend[n]];
      if trend[n].bucket == b {
        assert trend[n] in trend;
      } else if exists q :: q in trend[..n] && q.bucket == b {
        var i :| 0 <= i < n && trend[..n][i] == PointFor(trend[..n], b)
            && forall j :: i < j < n ==> trend[..n][j].bucket != b;
        assert trend[i] == PointFor(trend, b);
        assert forall j :: i < j < n ==> trend[j] == trend[..n][j];
      }
    }
  }

  lemma {:induction false} FilledMeans(trend: seq<Point>, first: Time, step: int, n: nat)
    ensures var out := Filled(trend, first, step, n);
      forall k :: 0 <= k < n ==> out[k].bucket == Bucket(first, step, k) && IsFilledFrom(trend, out[k])
  {
    if n > 0 {
      FilledMeans(trend, first, step, n - 1);
      PointForIs(trend, Bucket(first, step, n - 1));
    }
  }

  method FillTrend(trend: seq<Point>, first: Time, end: Time, step: int) returns (out: seq<Point>)
    requires step > 0
    ensures forall k :: 0 <= k < |out| ==> out[k].bucket == Bucket(first, step, k) && IsFilledFrom(trend, out[k])
    ensures out == Filled(trend, first, step, |out|)
    ensures Bucket(first, step, |out|) >= end && (|out| > 0 ==> Bucket(first, step, |out| - 1) < end)
  {
    var byBucket: map<Time, Point> := map[];
    for i := 0 to |trend|
      invariant forall b :: PointFor(trend[..i], b) == if b in byBucket then byBucket[b] else Point(b, NOTHING)
    {
      assert trend[..i + 1][..i] == trend[..i];
      byBucket := byBucket[trend[i].bucket := trend[i]];
    }
    assert trend[..|trend|] == trend;
    out := [];
    var bucket := first;
    while bucket < end
      invariant bucket == Bucket(first, step, |out|) && out == Filled(trend, first, step, |out|)
      invariant |out| > 0 ==> Bucket(first, step, |out| - 1) < end
      decreases end - bucket
    {
      out := out + [if bucket in byBucket then byBucket[bucket] else Point(bucket, NOTHING)];
      bucket := bucket + step;
    }
    FilledMeans(trend, first, step, |out|);
  }

  ghost predicate OnGrid(first: Time, step: int, n: nat, b: Time) {
    exists k: nat :: k < n && Bucket(first, step, k) == b
  }

  // The points that stand at the start of one of the buckets.
  ghost function OnGridOnly(trend: seq<Point>, first: Time, step: int, n: nat): seq<Point> {
    if trend == [] then []
    else
      var front, p := OnGridOnly(trend[..|trend| - 1], first, step, n), trend[|trend| - 1];
      if OnGrid(first, step, n, p.bucket) then front + [p] else front
  }

  lemma {:induction false} BucketsRise(first: Time, step: int, j: nat, k: nat)
    requires step > 0 && j < k
    ensures Bucket(first, step, j) < Bucket(first, step, k)
  {
    if j < k - 1 {
      BucketsRise(first, step, j, k - 1);
    }
  }

  lemma {:induction false} FilledOneMore(trend: seq<Point>, p: Point, first: Time, step: int, n: nat, f: Field)
    requires step > 0 && forall i :: 0 <= i < |trend| ==> trend[i].bucket != p.bucket
    ensures Sum(Filled(trend + [p], first, step, n), f)
         == Sum(Filled(trend, first, step, n), f) + if OnGrid(first, step, n, p.bucket) then Of(p.usage, f) else 0
  {
    if n > 0 {
      FilledOneMore(trend, p, first, step, n - 1, f);
      LastBucket(trend, first, step, n, f);
      LastBucket(trend + [p], first, step, n, f);
      PointForOneMore(trend, p, Bucket(first, step, n - 1));
      GridOneMore(first, step, n, p.bucket);
      if Bucket(first, step, n - 1) == p.bucket {
        NotOnGridBefore(first, step, n - 1);
      }
    }
  }

  lemma PointForOneMore(trend: seq<Point>, p: Point, b: Time)
    requires forall i :: 0 <= i < |trend| ==> trend[i].bucket != p.bucket
    ensures PointFor(trend + [p], b) == if p.bucket == b then p else PointFor(trend, b)
    ensures p.bucket == b ==> PointFor(trend, b) == Point(b, NOTHING)
  {
    assert (trend + [p])[..|trend|] == trend;
    if p.bucket == b {
      Absent(trend, b);
    }
  }

  lemma NotOnGridBefore(first: Time, step: int, k: nat)
    requires step > 0
    ensures !OnGrid(first, step, k, Bucket(first, step, k))
  {
    forall j: nat | j < k
      ensures Bucket(first, step, j) != Bucket(first, step, k)
    {
      BucketsRise(first, step, j, k);
    }
  }

  lemma LastBucket(trend: seq<Point>, first: Time, step: int, n: nat, f: Field)
    requires n > 0
    ensures Sum(Filled(trend, first, step, n), f)
         == Sum(Filled(trend, first, step, n - 1), f) + Of(PointFor(trend, Bucket(first, step, n - 1)).usage, f)
  {
    assert Filled(trend, first, step, n)[..n - 1] == Filled(trend, first, step, n - 1);
  }

  lemma GridOneMore(first: Time, step: int, n: nat, b: Time)
    requires n > 0
    ensures OnGrid(first, step, n, b) <==> OnGrid(first, step, n - 1, b) || Bucket(first, step, n - 1) == b
  {}

  lemma {:induction false} Absent(trend: seq<Point>, b: Time)
    requires forall i :: 0 <= i < |trend| ==> trend[i].bucket != b
    ensures PointFor(trend, b) == Point(b, NOTHING)
  {
    if trend != [] {
      Absent(trend[..|trend| - 1], b);
    }
  }

  lemma {:induction false} FilledOfNone(first: Time, step: int, n: nat, f: Field)
    ensures Sum(Filled([], first, step, n), f) == 0
  {
    if n > 0 {
      FilledOfNone(first, step, n - 1, f);
      assert Filled([], first, step, n)[..n - 1] == Filled([], first, step, n - 1);
    }
  }

  // A filled trend adds up to just the points that stand at the start of a bucket; the
  // others are lost.
  lemma {:induction false} FilledSums(trend: seq<Point>, first: Time, step: int, n: nat, f: Field)
    requires step > 0 && OneEach(trend)
    ensures Sum(Filled(trend, first, step, n), f) == Sum(OnGridOnly(trend, first, step, n), f)
  {
    if trend == [] {
      FilledOfNone(first, step, n, f);
    } else {
      var front, p := trend[..|trend| - 1], trend[|trend| - 1];
      FilledSums(front, first, step, n, f);
      FilledOneMore(front, p, first, step, n, f);
      assert front + [p] == trend;
      var kept := OnGridOnly(front, first, step, n);
      assert (kept + [p])[..|kept|] == kept;
    }
  }

  lemma {:induction false} HourlyBuckets(first: Time, k: nat)
    ensures Bucket(first, HOUR, k) == first + HOUR * k
  {
    if k > 0 {
      HourlyBuckets(first, k - 1);
    }
  }

  lemma {:induction false} NothingLost(trend: seq<Point>, first: Time, step: int, n: nat)
    requires forall i :: 0 <= i < |trend| ==> OnGrid(first, step, n, trend[i].bucket)
    ensures OnGridOnly(trend, first, step, n) == trend
  {
    if trend != [] {
      NothingLost(trend[..|trend| - 1], first, step, n);
      assert OnGrid(first, step, n, trend[|trend| - 1].bucket);
    }
  }

  // What a figure becomes in the trend handed on, which has no requests.
  function Figure(stats: Usage, f: Field): int {
    match f
    case Requests => 0
    case Input => stats.input as int + stats.cached as int
    case _ => Of(stats, f)
  }

  lemma {:induction false} NoRequests(points: seq<Point>)
    requires AllValid(points)
    ensures Sum(FoldedTrend(points), Requests) == 0
  {
    if points != [] {
      NoRequests(points[..|points| - 1]);
      assert FoldedTrend(points)[..|points| - 1] == FoldedTrend(points[..|points| - 1]);
    }
  }

  lemma FoldedFigures(points: seq<Point>, stats: Usage, r: Range, f: Field)
    requires IsValid(points, stats, r)
    ensures Sum(FoldedTrend(points), f) == Figure(stats, f)
  {
    TotalsAreTheFigures(points, stats, r);
    NoRequests(points);
  }

  // With hourly points no point of a valid snapshot is lost: the filled trend adds up to
  // the figures.
  lemma HourlyTrendIsWhole(points: seq<Point>, stats: Usage, r: Range, n: nat, f: Field)
    requires IsValid(points, stats, r) && r.hourly && AtMidnight(r.first) && Bucket(r.first, HOUR, n) >= r.last + DAY
    ensures Sum(Filled(FoldedTrend(points), r.first, HOUR, n), f) == Figure(stats, f)
  {
    var trend := FoldedTrend(points);
    forall i | 0 <= i < |trend|
      ensures OnGrid(r.first, HOUR, n, trend[i].bucket)
    {
      FoldedPoints(points, i);
      assert InRange(r, points[i].bucket);
      HoursOnGrid(r.first, n, points[i].bucket);
    }
    NothingLost(trend, r.first, HOUR, n);
    FoldedOneEach(points);
    FilledSums(trend, r.first, HOUR, n, f);
    FoldedFigures(points, stats, r, f);
  }

  lemma FoldedOneEach(points: seq<Point>)
    requires AllValid(points) && OneEach(points)
    ensures OneEach(FoldedTrend(points))
  {
    var trend := FoldedTrend(points);
    forall i, j | 0 <= i < j < |trend|
      ensures trend[i].bucket != trend[j].bucket
    {
      FoldedPoints(points, i);
      FoldedPoints(points, j);
    }
  }

  predicate AtMidnight(b: Time) {
    (b + ZONE) % DAY == 0
  }

  // Times of one remainder are whole steps apart.
  lemma Apart(a: Time, b: Time, step: int) returns (k: nat)
    requires step == HOUR || step == DAY
    requires (a + ZONE) % step == 0 && (b + ZONE) % step == 0 && a <= b
    ensures b == a + step * k
  {
    var x, y := (a + ZONE) / step, (b + ZONE) / step;
    assert a + ZONE == step * x && b + ZONE == step * y;
    k := y - x;
  }

  lemma FullHour(x: int)
    ensures (HOUR * x) % HOUR == 0
  {}

  lemma MidnightIsFullHour(b: Time)
    requires AtMidnight(b)
    ensures (b + ZONE) % HOUR == 0
  {
    var x := (b + ZONE) / DAY;
    assert b + ZONE == DAY * x;
    FullHour(24 * x);
  }

  // Full hours after a midnight are starts of hourly buckets.
  lemma HoursOnGrid(first: Time, n: nat, b: Time)
    requires AtMidnight(first) && (b + ZONE) % HOUR == 0 && first <= b < Bucket(first, HOUR, n)
    ensures OnGrid(first, HOUR, n, b)
  {
    MidnightIsFullHour(first);
    var k := Apart(first, b, HOUR);
    HourlyBuckets(first, n);
    HourlyBuckets(first, k);
    assert Bucket(first, HOUR, k) == b;
  }

  lemma {:induction false} DailyBuckets(first: Time, k: nat)
    ensures Bucket(first, DAY, k) == first + DAY * k
  {
    if k > 0 {
      DailyBuckets(first, k - 1);
    }
  }

  lemma {:induction false} DailyBucketsAtMidnight(first: Time, k: nat)
    requires AtMidnight(first)
    ensures AtMidnight(Bucket(first, DAY, k))
  {
    if k > 0 {
      DailyBucketsAtMidnight(first, k - 1);
    }
  }

  // Midnights, and no other times, are starts of daily buckets.
  lemma DaysOnGrid(first: Time, n: nat, b: Time)
    requires AtMidnight(first) && first <= b < Bucket(first, DAY, n)
    ensures OnGrid(first, DAY, n, b) <==> AtMidnight(b)
  {
    if AtMidnight(b) {
      var k := Apart(first, b, DAY);
      DailyBuckets(first, n);
      DailyBuckets(first, k);
      assert Bucket(first, DAY, k) == b;
    } else {
      forall k: nat | k < n
        ensures Bucket(first, DAY, k) != b
      {
        DailyBucketsAtMidnight(first, k);
      }
    }
  }

  // What stands off the grid is lost, unless it is nothing.
  lemma {:induction false} LostOffGrid(trend: seq<Point>, first: Time, step: int, n: nat, f: Field)
    requires forall i :: 0 <= i < |trend| ==> Of(trend[i].usage, f) >= 0
    ensures Sum(OnGridOnly(trend, first, step, n), f) <= Sum(trend, f)
    ensures Sum(OnGridOnly(trend, first, step, n), f) == Sum(trend, f)
       <==> forall i :: 0 <= i < |trend| && !OnGrid(first, step, n, trend[i].bucket) ==> Of(trend[i].usage, f) == 0
  {
    if trend != [] {
      var front, p := trend[..|trend| - 1], trend[|trend| - 1];
      LostOffGrid(front, first, step, n, f);
      var kept := OnGridOnly(front, first, step, n);
      assert (kept + [p])[..|kept|] == kept;
      assert trend == front + [p];
      assert forall i :: 0 <= i < |front| ==> front[i] == trend[i];
    }
  }

  // A filled daily trend adds up to a figure if and only if all that the figure counts
  // stands at midnights, which no check makes sure of.
  lemma DailyTrendIsWhole(points: seq<Point>, stats: Usage, r: Range, n: nat, f: Field)
    requires IsValid(points, stats, r) && !r.hourly && AtMidnight(r.first) && Bucket(r.first, DAY, n) >= r.last + DAY
    ensures Sum(Filled(FoldedTrend(points), r.first, DAY, n), f) == Figure(stats, f)
       <==> forall i :: 0 <= i < |points| && !AtMidnight(points[i].bucket) ==> Of(Folded(points[i].usage), f) == 0
  {
    var trend := FoldedTrend(points);
    forall i | 0 <= i < |points|
      ensures trend[i] == Point(points[i].bucket, Folded(points[i].usage))
      ensures OnGrid(r.first, DAY, n, trend[i].bucket) <==> AtMidnight(points[i].bucket)
    {
      FoldedPoints(points, i);
      assert InRange(r, points[i].bucket);
      DaysOnGrid(r.first, n, points[i].bucket);
    }
    LostOffGrid(trend, r.first, DAY, n, f);
    FoldedOneEach(points);
    FilledSums(trend, r.first, DAY, n, f);
    FoldedFigures(points, stats, r, f);
  }

  // A point that is valid and yet lost.
  lemma DailyPointLost()
    ensures var p, r := Point(1, Usage(0, 1, 0, 0, 1)), Range(-ZONE, -ZONE, false);
      IsValid([p], Usage(0, 1, 0, 0, 1), r) && forall n: nat :: Sum(Filled([p], r.first, DAY, n), Total) == 0
  {
    var p, r := Point(1, Usage(0, 1, 0, 0, 1)), Range(-ZONE, -ZONE, false);
    assert [p][..0] == [];
    forall n: nat
      ensures Sum(Filled([p], r.first, DAY, n), Total) == 0
    {
      forall k: nat | k < n
        ensures Bucket(r.first, DAY, k) != 1
      {
        DailyBuckets(r.first, k);
      }
      FilledOneMore([], p, r.first, DAY, n, Total);
      FilledOfNone(r.first, DAY, n, Total);
      assert [] + [p] == [p];
    }
  }
}
