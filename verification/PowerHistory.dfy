// The bounded series of the sampler's history: which buckets fall into which
// point, and what the points add up to.
module PowerHistory {
  import opened Wrappers
  import P = Power

  // A number of points, each some seconds long.
  datatype Range = Range(points: nat, step: nat)

  const DAY := Range(96, 900)
  const WEEK := Range(168, 3600)
  const MONTH := Range(120, 21600)

  predicate IsRange(r: Range) {
    r == DAY || r == WEEK || r == MONTH
  }

  function Parse(name: string): (r: Option<Range>)
    ensures r.Some? ==> IsRange(r.value)
  {
    if name == "24h" then Some(DAY)
    else if name == "7d" then Some(WEEK)
    else if name == "30d" then Some(MONTH)
    else None
  }

  // The axis: where it ends, aligned to the step in local time, and where the
  // open bucket ends.
  datatype Axis = Axis(range: Range, end: int, openEnd: int)

  function RoundUp(x: int, step: nat): int
    requires step > 0
  {
    -((-x) / step) * step
  }

  function AxisAt(r: Range, wall: real, offset: int): Axis
    requires IsRange(r)
  {
    var openEnd := P.BucketStart(wall) + P.BUCKET_SECONDS;
    Axis(r, RoundUp(openEnd + offset, r.step) - offset, openEnd)
  }

  function FirstOf(a: Axis): int {
    a.end - a.range.points * a.range.step
  }

  // A bucket of the chart: not before it, and not later than now.
  predicate Shown(a: Axis, start: int) {
    FirstOf(a) <= start < (if a.end < a.openEnd then a.end else a.openEnd)
  }

  function Index(a: Axis, start: int): int
    requires a.range.step > 0
  {
    (start - FirstOf(a)) / a.range.step
  }

  // The open bucket lies in the last point, and every bucket shown has a point.
  lemma EveryBucketHasAPoint(r: Range, wall: real, offset: int, start: int)
    requires IsRange(r)
    ensures var a := AxisAt(r, wall, offset);
      && a.end - r.step < a.openEnd <= a.end
      && (Shown(a, start) ==> 0 <= Index(a, start) < r.points)
      && Shown(a, P.BucketStart(wall))
  {
  }

  // The whole bucket lies within its point.
  predicate Fits(a: Axis, start: int)
    requires a.range.step > 0
  {
    var begin := FirstOf(a) + Index(a, start) * a.range.step;
    begin <= start && start + P.BUCKET_SECONDS <= begin + a.range.step
  }

  // Every bucket shown lies wholly within one point exactly when the offset from
  // UTC is a whole number of buckets.
  lemma BucketsFitWholeOffsets(r: Range, wall: real, offset: int)
    requires IsRange(r)
    ensures var a := AxisAt(r, wall, offset);
      offset % P.BUCKET_SECONDS == 0 <==>
        forall start :: start % P.BUCKET_SECONDS == 0 && Shown(a, start) ==> Fits(a, start)
  {
    var a := AxisAt(r, wall, offset);
    if offset % P.BUCKET_SECONDS == 0 {
      forall start | start % P.BUCKET_SECONDS == 0 && Shown(a, start) ensures Fits(a, start) {
        WholeOffsetFits(r, wall, offset, start);
      }
    } else {
      var start := Straddling(a);
      OtherOffsetStraddles(r, wall, offset);
      assert start % P.BUCKET_SECONDS == 0 && Shown(a, start) && !Fits(a, start);
    }
  }

  lemma FirstIsWhole(r: Range, wall: real, offset: int)
    requires IsRange(r)
    ensures (FirstOf(AxisAt(r, wall, offset)) + offset) % P.BUCKET_SECONDS == 0
  {
    var openEnd := P.BucketStart(wall) + P.BUCKET_SECONDS;
    var steps := -((-(openEnd + offset)) / r.step) - r.points;
    Multiple(if r == DAY then steps else if r == WEEK then 4 * steps else 24 * steps);
  }

  lemma Multiple(k: int)
    ensures (k * 900) % 900 == 0
  {
  }

  lemma WholeRemainder(x: int, step: int)
    requires x % 900 == 0 && (step == 900 || step == 3600 || step == 21600)
    ensures 0 <= x % step <= step - 900
  {
    var k := x / 900;
    assert x == k * 900;
    if step == 3600 {
      HourRemainder(k / 4, k % 4);
    } else if step == 21600 {
      SixHourRemainder(k / 24, k % 24);
    }
  }

  lemma HourRemainder(q: int, m: int)
    requires 0 <= m < 4
    ensures ((4 * q + m) * 900) % 3600 == m * 900
  {
    assert (4 * q + m) * 900 == q * 3600 + m * 900;
  }

  lemma SixHourRemainder(q: int, m: int)
    requires 0 <= m < 24
    ensures ((24 * q + m) * 900) % 21600 == m * 900
  {
    assert (24 * q + m) * 900 == q * 21600 + m * 900;
  }

  lemma Difference(x: int, y: int, z: int)
    requires x % 900 == 0 && (y + z) % 900 == 0 && z % 900 == 0
    ensures (x - y) % 900 == 0
  {
  }

  lemma WholeOffsetFits(r: Range, wall: real, offset: int, start: int)
    requires IsRange(r) && offset % P.BUCKET_SECONDS == 0 && start % P.BUCKET_SECONDS == 0
    requires Shown(AxisAt(r, wall, offset), start)
    ensures Fits(AxisAt(r, wall, offset), start)
  {
    var a := AxisAt(r, wall, offset);
    FirstIsWhole(r, wall, offset);
    Difference(start, FirstOf(a), offset);
    WholeRemainder(start - FirstOf(a), r.step);
    InStep(start - FirstOf(a), r.step);
  }

  lemma InStep(x: int, step: int)
    requires step == 900 || step == 3600 || step == 21600
    ensures x == x / step * step + x % step
  {
  }

  // The bucket across the first boundary between points.
  function Straddling(a: Axis): int {
    (FirstOf(a) + a.range.step) / P.BUCKET_SECONDS * P.BUCKET_SECONDS
  }

  // A chart that begins off a bucket boundary, with at least two points.
  lemma BoundaryCutsBucket(first: int, step: int)
    requires first % 900 != 0 && (step == 900 || step == 3600 || step == 21600)
    ensures var start := (first + step) / 900 * 900;
      && first < start < first + step < start + 900 && start % 900 == 0
      && (start - first) / step == 0
  {
    var b := first + step;
    var q := b / 900;
    assert b == q * 900 + b % 900;
    assert b % 900 != 0;
    Multiple(q);
  }

  lemma StraddlingIsCut(a: Axis)
    requires IsRange(a.range) && FirstOf(a) % 900 != 0 && a.end - a.range.step < a.openEnd
    ensures Straddling(a) % P.BUCKET_SECONDS == 0 && Shown(a, Straddling(a)) && !Fits(a, Straddling(a))
  {
    BoundaryCutsBucket(FirstOf(a), a.range.step);
    assert FirstOf(a) + 2 * a.range.step <= a.end;
    assert Index(a, Straddling(a)) == 0;
  }

  lemma OtherOffsetStraddles(r: Range, wall: real, offset: int)
    requires IsRange(r) && offset % P.BUCKET_SECONDS != 0
    ensures var a := AxisAt(r, wall, offset);
      Straddling(a) % P.BUCKET_SECONDS == 0 && Shown(a, Straddling(a)) && !Fits(a, Straddling(a))
  {
    var a := AxisAt(r, wall, offset);
    FirstIsWhole(r, wall, offset);
    EveryBucketHasAPoint(r, wall, offset, 0);
    NotWhole(FirstOf(a), offset);
    StraddlingIsCut(a);
  }

  lemma NotWhole(x: int, y: int)
    requires (x + y) % 900 == 0 && y % 900 != 0
    ensures x % 900 != 0
  {
  }

  // ----- the points ---------------------------------------------------------

  type Buckets = map<int, P.Bucket>

  // The starts of the buckets shown, and of those in one point.
  function ShownStarts(m: Buckets, a: Axis): set<int> {
    set k | k in m && Shown(a, k)
  }

  function PointStarts(m: Buckets, a: Axis, i: int): set<int>
    requires a.range.step > 0
  {
    set k | k in m && Shown(a, k) && Index(a, k) == i
  }

  // What buckets of given starts add up to.
  ghost function Sum(m: Buckets, starts: set<int>, p: P.Part): real {
    P.TotalOver(starts, k => P.Held(m, k, p))
  }

  lemma SumWith(m: Buckets, starts: set<int>, k: int, p: P.Part)
    requires k !in starts
    ensures Sum(m, starts + {k}, p) == Sum(m, starts, p) + P.Held(m, k, p)
  {
    var f := (x: int) => P.Held(m, x, p);
    P.TakeOut(starts + {k}, f, k);
    assert starts + {k} - {k} == starts;
    P.SameTotal(starts, f, x => P.Held(m, x, p));
    P.SameTotal(starts + {k}, f, x => P.Held(m, x, p));
  }

  ghost function SumTo(n: nat, f: int -> real): real {
    if n == 0 then 0.0 else SumTo(n - 1, f) + f(n - 1)
  }

  lemma {:induction false} SumToRaised(n: nat, f: int -> real, g: int -> real, at: int, x: real)
    requires forall i :: 0 <= i < n && i != at ==> f(i) == g(i)
    requires 0 <= at < n ==> g(at) == f(at) + x
    ensures SumTo(n, g) == SumTo(n, f) + (if 0 <= at < n then x else 0.0)
  {
    if n > 0 { SumToRaised(n - 1, f, g, at, x); }
  }

  lemma {:induction false} SumToZero(n: nat, f: int -> real)
    requires forall i :: 0 <= i < n ==> f(i) == 0.0
    ensures SumTo(n, f) == 0.0
  {
    if n > 0 { SumToZero(n - 1, f); }
  }

  function InPoint(a: Axis, starts: set<int>, i: int): set<int>
    requires a.range.step > 0
  {
    set k | k in starts && Index(a, k) == i
  }

  // Starts with a point each: the points add up to all of them.
  lemma {:induction false} PointsAddUp(m: Buckets, a: Axis, starts: set<int>, p: P.Part)
    requires a.range.step > 0 && forall k :: k in starts ==> 0 <= Index(a, k) < a.range.points
    ensures SumTo(a.range.points, i => Sum(m, InPoint(a, starts, i), p)) == Sum(m, starts, p)
  {
    var f := (i: int) => Sum(m, InPoint(a, starts, i), p);
    if forall k: int :: k !in starts {
      P.Empty(starts);
      forall i: int ensures f(i) == 0.0 { assert InPoint(a, starts, i) == {}; }
      SumToZero(a.range.points, f);
    } else {
      var k: int :| k in starts;
      var rest := starts - {k};
      var g := (i: int) => Sum(m, InPoint(a, rest, i), p);
      PointsAddUp(m, a, rest, p);
      assert rest + {k} == starts;
      SumWith(m, rest, k, p);
      forall i: int ensures f(i) == g(i) + (if i == Index(a, k) then P.Held(m, k, p) else 0.0) {
        if i == Index(a, k) {
          assert InPoint(a, starts, i) == InPoint(a, rest, i) + {k};
          SumWith(m, InPoint(a, rest, i), k, p);
        } else {
          assert InPoint(a, starts, i) == InPoint(a, rest, i);
        }
      }
      SumToRaised(a.range.points, g, f, Index(a, k), P.Held(m, k, p));
    }
  }

  // The points of a chart add up to the buckets shown: for the total energy, the
  // covered time and each activity.
  lemma PointsMakeTotal(m: Buckets, r: Range, wall: real, offset: int, p: P.Part)
    requires IsRange(r)
    ensures var a := AxisAt(r, wall, offset);
      SumTo(r.points, i => Sum(m, PointStarts(m, a, i), p)) == Sum(m, ShownStarts(m, a), p)
  {
    var a := AxisAt(r, wall, offset);
    forall k | k in ShownStarts(m, a) ensures 0 <= Index(a, k) < r.points { EveryBucketHasAPoint(r, wall, offset, k); }
    PointsAddUp(m, a, ShownStarts(m, a), p);
    var f := (i: int) => Sum(m, PointStarts(m, a, i), p);
    var g := (i: int) => Sum(m, InPoint(a, ShownStarts(m, a), i), p);
    forall i: int ensures f(i) == g(i) { assert InPoint(a, ShownStarts(m, a), i) == PointStarts(m, a, i); }
    SumToRaised(r.points, g, f, -1, 0.0);
  }

  // In a sampler's history the points add up to what was loaded and measured for
  // the buckets shown, less what has been pruned.
  lemma HistoryIsMeasured(s: P.Sampler, l: P.Ledger, r: Range, wall: real, offset: int, p: P.Part)
    requires IsRange(r) && P.Valid(s, l)
    ensures var (m, a) := (P.Closing(s), AxisAt(r, wall, offset));
      SumTo(r.points, i => Sum(m, PointStarts(m, a, i), p))
      == P.TotalOver(ShownStarts(m, a),
        k => P.Held(l.loaded, k, p) + P.SumOf(l.windows, P.At(k), p) - P.Held(l.pruned, k, p))
  {
    var m, a := P.Closing(s), AxisAt(r, wall, offset);
    PointsMakeTotal(m, r, wall, offset, p);
    forall k: int
      ensures P.Held(m, k, p) == P.Held(l.loaded, k, p) + P.SumOf(l.windows, P.At(k), p) - P.Held(l.pruned, k, p)
    {
      P.ClosedAmount(s, k, p);
      assert P.BucketLaw(s, l, k, p);
    }
    P.SameTotal(ShownStarts(m, a), k => P.Held(m, k, p),
                k => P.Held(l.loaded, k, p) + P.SumOf(l.windows, P.At(k), p) - P.Held(l.pruned, k, p));
  }

  ghost predicate Sums(series: seq<P.Bucket>, m: Buckets, a: Axis, done: set<int>)
    requires a.range.step > 0
  {
    forall i, p :: 0 <= i < |series| ==> P.Amount(series[i], p) == Sum(m, Chosen(a, done, i), p)
  }

  // The series of one chart, one bucket of sums per point.
  method Series(m: Buckets, a: Axis) returns (series: array<P.Bucket>)
    requires IsRange(a.range) && forall k :: k in m && Shown(a, k) ==> 0 <= Index(a, k) < a.range.points
    ensures series.Length == a.range.points
    ensures forall i, p :: 0 <= i < series.Length ==> P.Amount(series[i], p) == Sum(m, PointStarts(m, a, i), p)
  {
    series := new P.Bucket[a.range.points](_ => P.ZERO);
    var left := m.Keys;
    ghost var done: set<int> := {};
    NothingYet(series[..], m, a);
    while left != {}
      invariant left !! done && left + done == m.Keys
      invariant Sums(series[..], m, a, done)
      decreases |left|
    {
      if forall k: int :: k !in left { P.Empty(left); assert false; }
      var k: int :| k in left;
      AddBucket(series, m, a, k, done);
      left, done := left - {k}, done + {k};
    }
    forall i, p | 0 <= i < series.Length ensures P.Amount(series[i], p) == Sum(m, PointStarts(m, a, i), p) {
      assert Chosen(a, done, i) == PointStarts(m, a, i);
      assert series[..][i] == series[i];
    }
  }

  // The chart of a named range: every bucket shown has its point, and an unknown
  // name is refused.
  method History(m: Buckets, name: string, wall: real, offset: int) returns (series: Option<array<P.Bucket>>)
    ensures series.None? <==> name !in {"24h", "7d", "30d"}
    ensures series.Some? ==>
      var (r, a) := (Parse(name).value, AxisAt(Parse(name).value, wall, offset));
      && series.value.Length == r.points
      && forall i, p :: 0 <= i < r.points ==> P.Amount(series.value[i], p) == Sum(m, PointStarts(m, a, i), p)
  {
    var range := Parse(name);
    if range.None? { return None; }
    var a := AxisAt(range.value, wall, offset);
    forall k | k in m && Shown(a, k) ensures 0 <= Index(a, k) < a.range.points {
      EveryBucketHasAPoint(range.value, wall, offset, k);
    }
    var points := Series(m, a);
    return Some(points);
  }

  lemma NothingYet(series: seq<P.Bucket>, m: Buckets, a: Axis)
    requires a.range.step > 0 && forall i :: 0 <= i < |series| ==> series[i] == P.ZERO
    ensures Sums(series, m, a, {})
  {
    forall i, p | 0 <= i < |series| ensures P.Amount(series[i], p) == Sum(m, Chosen(a, {}, i), p) {
      P.NoAmount(p);
      assert Chosen(a, {}, i) == {};
    }
  }

  method AddBucket(series: array<P.Bucket>, m: Buckets, a: Axis, k: int, ghost done: set<int>)
    requires a.range.step > 0 && k in m && k !in done && Sums(series[..], m, a, done)
    requires Shown(a, k) ==> 0 <= Index(a, k) < series.Length
    modifies series
    ensures Sums(series[..], m, a, done + {k})
  {
    ghost var was := series[..];
    if Shown(a, k) {
      series[Index(a, k)] := P.Plus(series[Index(a, k)], m[k]);
    }
    forall i, p | 0 <= i < series.Length ensures P.Amount(series[..][i], p) == Sum(m, Chosen(a, done + {k}, i), p) {
      ChosenNext(m, a, done, k, i, p);
      assert P.Amount(was[i], p) == Sum(m, Chosen(a, done, i), p);
      P.AmountAdds(was[i], m[k], p);
    }
  }

  lemma ChosenNext(m: Buckets, a: Axis, done: set<int>, k: int, i: int, p: P.Part)
    requires a.range.step > 0 && k !in done
    ensures Sum(m, Chosen(a, done + {k}, i), p)
      == Sum(m, Chosen(a, done, i), p) + (if Shown(a, k) && Index(a, k) == i then P.Held(m, k, p) else 0.0)
  {
    if Shown(a, k) && Index(a, k) == i {
      assert Chosen(a, done + {k}, i) == Chosen(a, done, i) + {k};
      SumWith(m, Chosen(a, done, i), k, p);
    } else {
      assert Chosen(a, done + {k}, i) == Chosen(a, done, i);
    }
  }

  function Chosen(a: Axis, starts: set<int>, i: int): set<int>
    requires a.range.step > 0
  {
    set k | k in starts && Shown(a, k) && Index(a, k) == i
  }
}
