/**
  The activity heatmap's time buckets. An instant is a Unix second and its nanoseconds; bucket
  boundaries are whole seconds. Local days are an increasing sequence of start seconds.
 */
module ActivityGrain {
  import opened Wrappers

  const BLOCKS: int := 364
  const MEDIUM_WINDOW: int := 604800
  const LONG_WINDOW: int := 2592000

  datatype Instant = Instant(sec: int, nanos: int)

  datatype Bucket = Bucket(start: int, end: int)

  datatype Grain = Short | Medium | Long | Daily | Other

  predicate Contains(b: Bucket, t: Instant) { b.start <= t.sec < b.end }

  // ----- floor division and boundaries -----

  /** Go's integer division and remainder, which truncate toward zero. */
  function GoDiv(a: int, b: int): int
    requires b > 0
  {
    if a >= 0 then a / b else -((-a) / b)
  }

  function GoMod(a: int, b: int): int
    requires b > 0
  {
    a - b * GoDiv(a, b)
  }

  function FloorDiv(value: int, divisor: int): int
    requires divisor > 0
  {
    if GoMod(value, divisor) < 0 then GoDiv(value, divisor) - 1 else GoDiv(value, divisor)
  }

  /** floorDiv is the mathematical floor for negative values too. */
  lemma FloorDivFloors(v: int, d: int)
    requires d > 0
    ensures d * FloorDiv(v, d) <= v < d * FloorDiv(v, d) + d
  {
    var q, r := GoDiv(v, d), GoMod(v, d);
    assert v == d * q + r;
    if v >= 0 {
      assert v == d * (v / d) + v % d;
    } else {
      assert -v == d * ((-v) / d) + (-v) % d;
      assert d * q == -(d * ((-v) / d));
      assert -d < r <= 0;
      if r < 0 { assert d * (q - 1) == d * q - d; }
    }
  }

  /** The second at which the i-th of the equal shares of a window starts, rounded down. */
  function Boundary(w: int, i: int): int { FloorDiv(i * w, BLOCKS) }

  lemma BoundarySpec(w: int, i: int)
    ensures 364 * Boundary(w, i) <= i * w < 364 * Boundary(w, i) + 364
  {
    FloorDivFloors(i * w, BLOCKS);
  }

  lemma BoundaryStep(w: int, i: int)
    requires w >= 364
    ensures Boundary(w, i) < Boundary(w, i + 1)
  {
    BoundarySpec(w, i);
    BoundarySpec(w, i + 1);
    assert (i + 1) * w == i * w + w;
  }

  lemma {:induction false} BoundaryIncreases(w: int, i: int, j: int)
    requires w >= 364 && i < j
    ensures Boundary(w, i) < Boundary(w, j)
    decreases j - i
  {
    BoundaryStep(w, j - 1);
    if i < j - 1 { BoundaryIncreases(w, i, j - 1); }
  }

  /** 364 shares later the whole window has passed, exactly. */
  lemma BoundaryPeriod(w: int, i: int)
    ensures Boundary(w, i + 364) == Boundary(w, i) + w
  {
    BoundarySpec(w, i);
    BoundarySpec(w, i + 364);
    assert (i + 364) * w == i * w + 364 * w;
  }

  lemma BoundaryEnds(w: int)
    ensures Boundary(w, 0) == 0 && Boundary(w, 364) == w
  {
    BoundarySpec(w, 0);
    BoundaryPeriod(w, 0);
  }

  /** The first guess of a bucket index for second u. */
  function Estimate(u: int, w: int): int
    requires w > 0
  {
    FloorDiv(u * BLOCKS, w)
  }

  lemma EstimateSpec(u: int, w: int)
    requires w > 0
    ensures Estimate(u, w) * w <= 364 * u < Estimate(u, w) * w + w
  {
    FloorDivFloors(u * BLOCKS, w);
    assert w * Estimate(u, w) == Estimate(u, w) * w;
  }

  /** The guess never lies past u, and the bucket after next always does. */
  lemma EstimateIsClose(u: int, w: int)
    requires w >= 364
    ensures Boundary(w, Estimate(u, w)) <= u < Boundary(w, Estimate(u, w) + 2)
  {
    var e := Estimate(u, w);
    EstimateSpec(u, w);
    BoundarySpec(w, e);
    BoundarySpec(w, e + 2);
    Distribute(e, w);
    CloseArithmetic(u, w, e * w, Boundary(w, e), Boundary(w, e + 2));
  }

  lemma Distribute(e: int, w: int)
    ensures (e + 2) * w == e * w + w + w
  {
  }

  lemma CloseArithmetic(u: int, w: int, start: int, low: int, high: int)
    requires w >= 364 && start <= 364 * u < start + w
    requires 364 * low <= start && start + w + w < 364 * high + 364
    ensures low <= u < high
  {
  }

  /** Inside the window the guess is one of its buckets. */
  lemma EstimateInRange(u: int, w: int)
    requires 0 <= u < w
    ensures 0 <= Estimate(u, w) < 364
  {
    var e := Estimate(u, w);
    EstimateSpec(u, w);
    if e < 0 { ScaleBound(e, -1, w); }
    if e >= 364 { ScaleBound(364, e, w); }
  }

  lemma ScaleBound(a: int, b: int, w: int)
    requires a <= b && w > 0
    ensures a * w <= b * w
  {
  }

  // ----- fixed windows -----

  function FixedBucket(w: int, i: int): Bucket { Bucket(Boundary(w, i), Boundary(w, i + 1)) }

  /** fixedBucketIndex: at most one correction upwards, none downwards. */
  method FixedBucketIndex(t: Instant, w: int) returns (index: int)
    requires w >= 364
    ensures Contains(FixedBucket(w, index), t)
    ensures Estimate(t.sec, w) <= index <= Estimate(t.sec, w) + 1
  {
    index := Estimate(t.sec, w);
    ghost var first := index;
    EstimateIsClose(t.sec, w);
    while t.sec >= Boundary(w, index + 1)
      invariant first <= index <= first + 1 && Boundary(w, index) <= t.sec
      decreases first + 1 - index
    {
      index := index + 1;
    }
    // the loop cannot run past any boundary that is not after t; nine back is as good as any
    ghost var corrected, notAfter := index, index - 9;
    BoundaryIncreases(w, notAfter, index);
    while t.sec < Boundary(w, index)
      invariant index >= notAfter && t.sec < Boundary(w, index + 1)
      decreases index - notAfter
    {
      index := index - 1;
    }
    FixedBucketUnique(w, index, corrected, t);
  }

  lemma FixedBucketUnique(w: int, i: int, j: int, t: Instant)
    requires w >= 364 && Contains(FixedBucket(w, i), t) && Contains(FixedBucket(w, j), t)
    ensures i == j
  {
    if i + 1 < j { BoundaryIncreases(w, i + 1, j); }
    if j + 1 < i { BoundaryIncreases(w, j + 1, i); }
  }

  // ----- local days -----

  /** The start second of every local day. */
  type Calendar = imap<int, int>

  /** Day d is on the calendar and long enough to be cut into 364 non-empty buckets. */
  predicate LongDay(cal: Calendar, d: int) { d in cal && d + 1 in cal && cal[d] + 364 <= cal[d + 1] }

  ghost predicate ValidCalendar(cal: Calendar) { forall d :: LongDay(cal, d) }

  lemma {:induction false} DaysIncrease(cal: Calendar, d: int, e: int)
    requires ValidCalendar(cal) && d < e
    ensures LongDay(cal, d) && LongDay(cal, e) && cal[d] + 364 * (e - d) <= cal[e]
    decreases e - d
  {
    assert LongDay(cal, d) && LongDay(cal, e) && LongDay(cal, e - 1);
    if d < e - 1 { DaysIncrease(cal, d, e - 1); }
  }

  /** The local day of an instant: its start, found on the calendar. */
  method LocalDay(cal: Calendar, t: Instant) returns (d: int)
    requires ValidCalendar(cal)
    ensures LongDay(cal, d) && cal[d] <= t.sec < cal[d + 1]
  {
    d := 0;
    assert LongDay(cal, 0);
    while t.sec < cal[d]
      invariant LongDay(cal, d)
      decreases cal[d] - t.sec
    {
      assert LongDay(cal, d - 1);
      d := d - 1;
    }
    while t.sec >= cal[d + 1]
      invariant LongDay(cal, d) && cal[d] <= t.sec
      decreases t.sec - cal[d]
    {
      assert LongDay(cal, d + 1);
      d := d + 1;
    }
  }

  function DayBucket(cal: Calendar, d: int): Bucket
    requires LongDay(cal, d)
  {
    Bucket(cal[d], cal[d + 1])
  }

  /** calendarBucket: the i-th of a day's 364 shares. */
  function ShortBucket(cal: Calendar, d: int, i: int): Bucket
    requires LongDay(cal, d)
  {
    var w := cal[d + 1] - cal[d];
    Bucket(cal[d] + Boundary(w, i), cal[d] + Boundary(w, i + 1))
  }

  /** shortBucketForTimestamp: numbered afresh from each local midnight. */
  method ShortBucketFor(cal: Calendar, t: Instant) returns (d: int, index: int)
    requires ValidCalendar(cal)
    ensures LongDay(cal, d) && 0 <= index < 364
    ensures Contains(ShortBucket(cal, d, index), t)
  {
    d := LocalDay(cal, t);
    var w := cal[d + 1] - cal[d];
    var u := t.sec - cal[d];
    index := Estimate(u, w);
    ghost var first := index;
    EstimateIsClose(u, w);
    EstimateInRange(u, w);
    BoundaryEnds(w);
    while index + 1 < BLOCKS && t.sec >= cal[d] + Boundary(w, index + 1)
      invariant first <= index <= first + 1 && 0 <= index < 364 && Boundary(w, index) <= u
      decreases first + 1 - index
    {
      index := index + 1;
    }
    while index > 0 && t.sec < cal[d] + Boundary(w, index)
      invariant 0 <= index < 364 && u < Boundary(w, index + 1)
    {
      index := index - 1;
    }
  }

  lemma DayUnique(cal: Calendar, d: int, e: int, u: int)
    requires ValidCalendar(cal) && LongDay(cal, d) && LongDay(cal, e)
    requires cal[d] <= u < cal[d + 1] && cal[e] <= u < cal[e + 1]
    ensures d == e
  {
    if d + 1 < e { DaysIncrease(cal, d + 1, e); }
    if e + 1 < d { DaysIncrease(cal, e + 1, d); }
  }

  /** A short bucket is not empty and lies inside its day. */
  lemma ShortBucketInDay(cal: Calendar, d: int, i: int)
    requires LongDay(cal, d) && 0 <= i < 364
    ensures cal[d] <= ShortBucket(cal, d, i).start < ShortBucket(cal, d, i).end <= cal[d + 1]
  {
    var w := cal[d + 1] - cal[d];
    BoundaryEnds(w);
    BoundaryStep(w, i);
    if i > 0 { BoundaryIncreases(w, 0, i); }
    if i + 1 < 364 { BoundaryIncreases(w, i + 1, 364); }
  }

  lemma ShortBucketUnique(cal: Calendar, d: int, i: int, e: int, j: int, t: Instant)
    requires ValidCalendar(cal) && LongDay(cal, d) && LongDay(cal, e) && 0 <= i < 364 && 0 <= j < 364
    requires Contains(ShortBucket(cal, d, i), t) && Contains(ShortBucket(cal, e, j), t)
    ensures d == e && i == j
  {
    ShortBucketInDay(cal, d, i);
    ShortBucketInDay(cal, e, j);
    DayUnique(cal, d, e, t.sec);
    var w := cal[d + 1] - cal[d];
    if i + 1 < j { BoundaryIncreases(w, i + 1, j); }
    if j + 1 < i { BoundaryIncreases(w, j + 1, i); }
  }

  // ----- the storage grid of a grain -----

  function WindowSeconds(g: Grain): int { if g == Medium then MEDIUM_WINDOW else LONG_WINDOW }

  /** b is one of the buckets a grain stores its counts under. */
  ghost predicate OnGrid(cal: Calendar, g: Grain, b: Bucket) {
    match g
    case Short => exists d, i :: LongDay(cal, d) && 0 <= i < 364 && b == ShortBucket(cal, d, i)
    case Daily => exists d :: LongDay(cal, d) && b == DayBucket(cal, d)
    case Other => false
    case _ => exists i :: b == FixedBucket(WindowSeconds(g), i)
  }

  /** The grid buckets of a grain never overlap. */
  lemma GridUnique(cal: Calendar, g: Grain, a: Bucket, b: Bucket, t: Instant)
    requires ValidCalendar(cal) && OnGrid(cal, g, a) && OnGrid(cal, g, b) && Contains(a, t) && Contains(b, t)
    ensures a == b
  {
    match g
    case Short =>
      var d, i :| LongDay(cal, d) && 0 <= i < 364 && a == ShortBucket(cal, d, i);
      var e, j :| LongDay(cal, e) && 0 <= j < 364 && b == ShortBucket(cal, e, j);
      ShortBucketUnique(cal, d, i, e, j, t);
    case Daily =>
      var d :| LongDay(cal, d) && a == DayBucket(cal, d);
      var e :| LongDay(cal, e) && b == DayBucket(cal, e);
      DayUnique(cal, d, e, t.sec);
    case Medium =>
      var i :| a == FixedBucket(WindowSeconds(g), i);
      var j :| b == FixedBucket(WindowSeconds(g), j);
      FixedBucketUnique(WindowSeconds(g), i, j, t);
    case Long =>
      var i :| a == FixedBucket(WindowSeconds(g), i);
      var j :| b == FixedBucket(WindowSeconds(g), j);
      FixedBucketUnique(WindowSeconds(g), i, j, t);
  }

  /** BucketForTimestamp: for every instant the one grid bucket that contains it. */
  method BucketForTimestamp(cal: Calendar, g: Grain, t: Instant) returns (r: Option<Bucket>)
    requires ValidCalendar(cal)
    ensures r.None? <==> g == Other
    ensures r.Some? ==> OnGrid(cal, g, r.value) && Contains(r.value, t)
    ensures r.Some? ==> forall b :: OnGrid(cal, g, b) && Contains(b, t) ==> b == r.value
  {
    if g == Short {
      var d, i := ShortBucketFor(cal, t);
      r := Some(ShortBucket(cal, d, i));
    } else if g == Daily {
      var d := LocalDay(cal, t);
      r := Some(DayBucket(cal, d));
    } else if g == Other {
      return None;
    } else {
      var i := FixedBucketIndex(t, WindowSeconds(g));
      r := Some(FixedBucket(WindowSeconds(g), i));
    }
    forall b | OnGrid(cal, g, b) && Contains(b, t) ensures b == r.value {
      GridUnique(cal, g, b, r.value, t);
    }
  }

  // ----- windows -----

  /** start < end <= b.end, compared as instants: b.end is the least boundary not before `end`. */
  predicate EndsAt(b: Bucket, end: Instant) {
    && b.start <= end.sec && !(end.sec == b.start && end.nanos == 0)
    && (end.sec < b.end || (end.sec == b.end && end.nanos == 0))
  }

  ghost predicate OnGridAll(cal: Calendar, g: Grain, bs: seq<Bucket>) {
    forall i :: 0 <= i < |bs| ==> OnGrid(cal, g, bs[i]) && bs[i].start < bs[i].end
  }

  /** Each bucket ends where the next one starts. */
  predicate Contiguous(bs: seq<Bucket>) { forall i :: 0 < i < |bs| ==> bs[i - 1].end == bs[i].start }

  /** 364 grid buckets in a row, the last one ending at the least boundary that is not before `end`. */
  ghost predicate IsWindow(cal: Calendar, g: Grain, end: Instant, bs: seq<Bucket>) {
    && |bs| == 364
    && OnGridAll(cal, g, bs)
    && Contiguous(bs)
    && EndsAt(bs[363], end)
  }

  /** Buckets in a row leave no instant out. */
  lemma {:induction false} RowCovers(bs: seq<Bucket>, n: int, t: Instant) returns (i: int)
    requires Contiguous(bs) && 0 < n <= |bs| && bs[0].start <= t.sec < bs[n - 1].end
    ensures 0 <= i < n && bs[i].start <= t.sec < bs[i].end
  {
    if t.sec >= bs[n - 1].start { return n - 1; }
    i := RowCovers(bs, n - 1, t);
  }

  /** In nanoseconds: the reference lies after the 364th bucket's start and not after its end, and no gap is left. */
  lemma WindowMeaning(cal: Calendar, g: Grain, end: Instant, bs: seq<Bucket>, t: Instant) returns (i: int)
    requires IsWindow(cal, g, end, bs) && 0 <= end.nanos < 1_000_000_000
    ensures |bs| == 364
    ensures bs[363].start * 1_000_000_000 < end.sec * 1_000_000_000 + end.nanos <= bs[363].end * 1_000_000_000
    ensures bs[0].start <= t.sec < bs[363].end ==> 0 <= i < 364 && bs[i].start <= t.sec < bs[i].end
  {
    i := 0;
    if bs[0].start <= t.sec < bs[363].end { i := RowCovers(bs, 364, t); }
  }

  /** Every instant inside a window is stored under the window's own bucket for it. */
  lemma WindowMatchesStorage(cal: Calendar, g: Grain, end: Instant, bs: seq<Bucket>, i: int, t: Instant, stored: Bucket)
    requires ValidCalendar(cal) && IsWindow(cal, g, end, bs) && 0 <= i < 364 && Contains(bs[i], t)
    requires OnGrid(cal, g, stored) && Contains(stored, t)
    ensures stored == bs[i]
  {
    GridUnique(cal, g, bs[i], stored, t);
  }

  /** bs are consecutive fixed buckets, the first one numbered `from`. */
  ghost predicate FixedRun(w: int, from: int, bs: seq<Bucket>) {
    forall k :: 0 <= k < |bs| ==> bs[k] == FixedBucket(w, from + k)
  }

  lemma FixedRunContiguous(w: int, from: int, bs: seq<Bucket>)
    requires FixedRun(w, from, bs)
    ensures Contiguous(bs)
  {
    forall i | 0 < i < |bs| ensures bs[i - 1].end == bs[i].start {
      assert from + (i - 1) + 1 == from + i;
    }
  }

  lemma FixedRunOnGrid(cal: Calendar, g: Grain, from: int, bs: seq<Bucket>)
    requires (g == Medium || g == Long) && FixedRun(WindowSeconds(g), from, bs)
    ensures OnGridAll(cal, g, bs)
  {
    forall k | 0 <= k < |bs| ensures OnGrid(cal, g, bs[k]) && bs[k].start < bs[k].end {
      BoundaryStep(WindowSeconds(g), from + k);
      assert bs[k] == FixedBucket(WindowSeconds(g), from + k);
    }
  }

  lemma FixedRunEnd(w: int, end: Instant, last: int)
    requires w >= 364 && Boundary(w, last) <= end.sec && 0 <= end.nanos
    requires end.sec < Boundary(w, last + 1)
    ensures EndsAt(FixedBucket(w, if end == Instant(Boundary(w, last), 0) then last - 1 else last), end)
  {
    BoundaryStep(w, last - 1);
  }

  method FixedWindow(cal: Calendar, g: Grain, end: Instant) returns (bs: seq<Bucket>)
    requires (g == Medium || g == Long) && 0 <= end.nanos
    ensures IsWindow(cal, g, end, bs)
    ensures bs[363].end - bs[0].start == WindowSeconds(g)
  {
    var w := WindowSeconds(g);
    var endIndex := FixedBucketIndex(end, w);
    FixedRunEnd(w, end, endIndex);
    if end != Instant(Boundary(w, endIndex), 0) { endIndex := endIndex + 1; }
    var startIndex := endIndex - BLOCKS;
    bs := FillFixed(w, startIndex);
    FixedRunContiguous(w, startIndex, bs);
    FixedRunOnGrid(cal, g, startIndex, bs);
    FixedRunLength(w, startIndex, bs);
  }

  lemma FixedRunLength(w: int, from: int, bs: seq<Bucket>)
    requires |bs| == 364 && FixedRun(w, from, bs)
    ensures bs[363].end - bs[0].start == w && bs[363] == FixedBucket(w, from + 363)
  {
    BoundaryPeriod(w, from);
  }

  method FillFixed(w: int, startIndex: int) returns (bs: seq<Bucket>)
    ensures |bs| == 364 && FixedRun(w, startIndex, bs)
  {
    bs := [];
    for offset := 0 to 364
      invariant |bs| == offset && FixedRun(w, startIndex, bs)
    {
      bs := bs + [FixedBucket(w, startIndex + offset)];
    }
  }

  method DailyWindow(cal: Calendar, end: Instant) returns (bs: seq<Bucket>)
    requires ValidCalendar(cal) && 0 <= end.nanos
    ensures IsWindow(cal, Daily, end, bs)
  {
    var d := LocalDay(cal, end);
    if !(end.sec == cal[d] && end.nanos == 0) { d := d + 1; }
    bs := [];
    for index := 0 to 364
      invariant |bs| == index
      invariant forall k :: 0 <= k < index ==> LongDay(cal, d - 364 + k) && bs[k] == DayBucket(cal, d - 364 + k)
    {
      assert LongDay(cal, d - 364 + index);
      bs := bs + [DayBucket(cal, d - 364 + index)];
    }
    assert LongDay(cal, d) && LongDay(cal, d - 1);
  }

  /** The bucket that ends where bucket (d, i) starts. */
  function Previous(d: int, i: int): (int, int) { if i > 0 then (d, i - 1) else (d - 1, 363) }

  /** Stepping one nanosecond back from a bucket's start lands in the bucket that ends there. */
  lemma StepBack(cal: Calendar, d: int, i: int, e: int, j: int)
    requires ValidCalendar(cal) && LongDay(cal, d) && 0 <= i < 364
    requires LongDay(cal, e) && 0 <= j < 364
    requires Contains(ShortBucket(cal, e, j), Instant(ShortBucket(cal, d, i).start - 1, 999_999_999))
    ensures (e, j) == Previous(d, i) && ShortBucket(cal, e, j).end == ShortBucket(cal, d, i).start
  {
    var (pd, pi) := Previous(d, i);
    assert LongDay(cal, pd);
    BoundaryEnds(cal[d + 1] - cal[d]);
    BoundaryEnds(cal[pd + 1] - cal[pd]);
    assert ShortBucket(cal, pd, pi).end == ShortBucket(cal, d, i).start;
    ShortBucketInDay(cal, pd, pi);
    ShortBucketUnique(cal, e, j, pd, pi, Instant(ShortBucket(cal, d, i).start - 1, 999_999_999));
  }

  lemma Prepend(cal: Calendar, g: Grain, b: Bucket, bs: seq<Bucket>)
    requires OnGridAll(cal, g, bs) && Contiguous(bs) && OnGrid(cal, g, b) && b.start < b.end
    requires bs != [] ==> b.end == bs[0].start
    ensures OnGridAll(cal, g, [b] + bs) && Contiguous([b] + bs)
  {
  }

  /** Some short bucket starts at u. */
  ghost predicate ShortStart(cal: Calendar, u: int) {
    exists d, i :: LongDay(cal, d) && 0 <= i < 364 && u == ShortBucket(cal, d, i).start
  }

  /** One turn of the backward walk: the bucket of the instant just before a start ends at that start. */
  method BucketBefore(cal: Calendar, cursor: int) returns (b: Bucket)
    requires ValidCalendar(cal) && ShortStart(cal, cursor)
    ensures OnGrid(cal, Short, b) && b.start < b.end == cursor && ShortStart(cal, b.start)
  {
    var e, j := ShortBucketFor(cal, Instant(cursor - 1, 999_999_999));
    ghost var d, i :| LongDay(cal, d) && 0 <= i < 364 && cursor == ShortBucket(cal, d, i).start;
    StepBack(cal, d, i, e, j);
    ShortBucketInDay(cal, e, j);
    b := ShortBucket(cal, e, j);
  }

  /** The walk's first cursor: the least boundary that is not before the reference end. */
  method ShortWindowEnd(cal: Calendar, end: Instant) returns (cursor: int)
    requires ValidCalendar(cal) && 0 <= end.nanos
    ensures ShortStart(cal, cursor)
    ensures forall b: Bucket :: OnGrid(cal, Short, b) && b.start < b.end == cursor ==> EndsAt(b, end)
  {
    var d, i := ShortBucketFor(cal, end);
    ShortBucketInDay(cal, d, i);
    cursor := ShortBucket(cal, d, i).start;
    if end != Instant(cursor, 0) {
      cursor := ShortBucket(cal, d, i).end;
      ghost var e, j := NextBucket(cal, d, i);
      forall b: Bucket | OnGrid(cal, Short, b) && b.start < b.end == cursor ensures EndsAt(b, end) {
        GridUnique(cal, Short, b, ShortBucket(cal, d, i), Instant(cursor - 1, 0));
      }
    }
  }

  /** shortWindowEndingAt: a walk backwards, gap-free across local midnights and unequal days. */
  method ShortWindow(cal: Calendar, end: Instant) returns (bs: seq<Bucket>)
    requires ValidCalendar(cal) && 0 <= end.nanos
    ensures IsWindow(cal, Short, end, bs)
  {
    var cursor := ShortWindowEnd(cal, end);
    bs := [];
    for index := 0 to 364
      invariant |bs| == index && ShortStart(cal, cursor)
      invariant bs != [] ==> bs[0].start == cursor && EndsAt(bs[|bs| - 1], end)
      invariant bs == [] ==> forall b: Bucket :: OnGrid(cal, Short, b) && b.start < b.end == cursor ==> EndsAt(b, end)
      invariant OnGridAll(cal, Short, bs) && Contiguous(bs)
    {
      var bucket := BucketBefore(cal, cursor);
      Prepend(cal, Short, bucket, bs);
      bs := [bucket] + bs;
      cursor := bucket.start;
    }
  }

  lemma NextBucket(cal: Calendar, d: int, i: int) returns (e: int, j: int)
    requires ValidCalendar(cal) && LongDay(cal, d) && 0 <= i < 364
    ensures LongDay(cal, e) && 0 <= j < 364 && ShortBucket(cal, e, j).start == ShortBucket(cal, d, i).end
  {
    if i < 363 { return d, i + 1; }
    assert LongDay(cal, d + 1);
    BoundaryEnds(cal[d + 1] - cal[d]);
    BoundaryEnds(cal[d + 2] - cal[d + 1]);
    return d + 1, 0;
  }

  /** WindowEndingAt. */
  method WindowEndingAt(cal: Calendar, g: Grain, end: Instant) returns (r: Option<seq<Bucket>>)
    requires ValidCalendar(cal) && 0 <= end.nanos
    ensures r.None? <==> g == Other
    ensures r.Some? ==> IsWindow(cal, g, end, r.value)
    ensures g == Medium ==> r.value[363].end - r.value[0].start == 7 * 24 * 60 * 60
    ensures g == Long ==> r.value[363].end - r.value[0].start == 30 * 24 * 60 * 60
  {
    if g == Other { return None; }
    var bs;
    if g == Short {
      bs := ShortWindow(cal, end);
    } else if g == Daily {
      bs := DailyWindow(cal, end);
    } else {
      bs := FixedWindow(cal, g, end);
    }
    return Some(bs);
  }
}
