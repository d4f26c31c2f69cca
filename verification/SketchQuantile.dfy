/**
  P95 of a sketch, its nearest rank and its accuracy, for every way a sketch can come about.
 */
module SketchQuantile {
  import opened Wrappers
  import opened Uvarint
  import opened LogBuckets
  import opened SketchCodec
  import opened Sketches

  ghost predicate Ascending(s: seq<int>) { forall i, j :: 0 <= i < j < |s| ==> s[i] < s[j] }

  ghost predicate Sorted(s: seq<int>) { forall i, j :: 0 <= i < j < |s| ==> s[i] <= s[j] }

  method InsertKey(s: seq<int>, k: int) returns (r: seq<int>)
    requires Ascending(s) && k !in s
    ensures Ascending(r) && forall x :: x in r <==> x in s || x == k
  {
    var i := 0;
    while i < |s| && s[i] < k
      invariant 0 <= i <= |s| && forall j :: 0 <= j < i ==> s[j] < k
    {
      i := i + 1;
    }
    r := s[..i] + [k] + s[i..];
  }

  /** sortedKeys. */
  method SortedKeys(bins: BinMap) returns (s: seq<int>)
    ensures Ascending(s) && forall k :: k in s <==> k in bins
  {
    s := [];
    var rest := bins;
    while rest.Keys != {}
      invariant Ascending(s) && forall k :: k in bins <==> k in s || k in rest
      invariant forall k :: k in s ==> k !in rest
      decreases |rest|
    {
      ghost var _ := Inhabited(rest.Keys);
      var k :| k in rest.Keys;
      s := InsertKey(s, k);
      rest := rest - {k};
    }
    assert forall k :: k in rest ==> k in rest.Keys;
  }

  // ----- rank -----

  /** The nearest rank of the 95th percentile: ceil(95 n / 100). */
  function NearestRank(n: nat): nat { (n * 95 + 99) / 100 }

  /** The rank as uint64 arithmetic computes it. */
  function ComputedRank(n: nat): nat { ((n * 95 + 99) % (MAX_UINT64 + 1)) / 100 }

  /** Where the walk over the buckets stops for a given rank. */
  function Picked(rank: nat): nat { if rank == 0 then 0 else rank - 1 }

  lemma RankFacts(n: nat)
    requires 0 < n <= MAX_UINT64
    ensures ComputedRank(n) <= n && Picked(ComputedRank(n)) < n
    ensures 1 <= NearestRank(n) <= n
    ensures n * 95 + 99 <= MAX_UINT64 ==> ComputedRank(n) == NearestRank(n)
    ensures n * 95 + 99 > MAX_UINT64 ==> ComputedRank(n) < NearestRank(n) && NearestRank(n) >= 3
  {
    var m := n * 95 + 99;
    if m > MAX_UINT64 {
      assert m % (MAX_UINT64 + 1) <= m - (MAX_UINT64 + 1);
      assert ComputedRank(n) <= (m - (MAX_UINT64 + 1)) / 100;
    }
  }

  /** The rank counts 95 in 100: it is the least that reaches 95 percent of the samples. */
  lemma NearestRankMeaning(n: nat, rank: nat)
    requires 0 < n
    ensures 100 * (NearestRank(n) - 1) < 95 * n <= 100 * NearestRank(n)
    ensures rank == NearestRank(n) <==> 100 * (rank - 1) < 95 * n <= 100 * rank
  {
  }

  ghost function AtMost(vs: seq<int>, x: int): set<int> { set i | 0 <= i < |vs| && vs[i] <= x }

  ghost function Below(vs: seq<int>, x: int): set<int> { set i | 0 <= i < |vs| && vs[i] < x }

  lemma {:induction false} UpTo(i: int) returns (s: set<int>)
    requires 0 <= i
    ensures |s| == i && forall j :: j in s <==> 0 <= j < i
  {
    if i == 0 { return {}; }
    var front := UpTo(i - 1);
    s := front + {i - 1};
  }

  lemma Within<T>(a: set<T>, b: set<T>)
    requires forall x :: x in a ==> x in b
    ensures |a| <= |b|
  {
    assert a <= b;
    assert b == a + (b - a);
  }

  lemma CountsAround(vs: seq<int>, i: nat, x: int)
    requires i <= |vs| && (forall j :: 0 <= j < i ==> vs[j] <= x) && (forall j :: i <= j < |vs| ==> vs[j] >= x)
    ensures |AtMost(vs, x)| >= i && |Below(vs, x)| <= i
  {
    var s := UpTo(i);
    Within(s, AtMost(vs, x));
    Within(Below(vs, x), s);
  }

  /** The sample at the nearest rank: 95 in 100 samples are at most as large, and fewer are smaller. */
  lemma NinetyFive(vs: seq<int>)
    requires Sorted(vs) && vs != []
    ensures 1 <= NearestRank(|vs|) <= |vs|
    ensures var x := vs[NearestRank(|vs|) - 1];
            100 * |AtMost(vs, x)| >= 95 * |vs| && 100 * |Below(vs, x)| < 95 * |vs|
  {
    var rank := NearestRank(|vs|);
    CountsAround(vs, rank, vs[rank - 1]);
    CountsAround(vs, rank - 1, vs[rank - 1]);
  }

  /** A sorted run: everything before c is below k, everything after is at least k. */
  ghost predicate SplitAt(s: seq<int>, k: int, c: nat) {
    c <= |s| && (forall i :: 0 <= i < c ==> s[i] < k) && (forall i :: c <= i < |s| ==> s[i] >= k)
  }

  /** In a sorted sequence the occurrences of k stand together. */
  lemma {:induction false} RunLength(s: seq<int>, k: int, c: nat)
    requires Sorted(s) && SplitAt(s, k, c)
    ensures c + multiset(s)[k] <= |s|
    ensures forall i :: c <= i < c + multiset(s)[k] ==> s[i] == k
    ensures forall i :: c + multiset(s)[k] <= i < |s| ==> s[i] > k
  {
    if s == [] {
      assert multiset(s)[k] == 0;
    } else {
      var n := |s| - 1;
      var front := s[..n];
      assert s == front + [s[n]];
      assert multiset(s) == multiset(front) + multiset{s[n]};
      if c > n {
        RunLength(front, k, n);
      } else {
        RunLength(front, k, c);
        var d := c + multiset(front)[k];
        assert d < n ==> front[d] > k && s[d] <= s[n];
      }
    }
  }

  /** The walk has passed c samples and is about to look at bucket ks[j]. */
  ghost predicate Walking(sorted: seq<int>, ks: seq<int>, j: nat, c: nat) {
    j <= |ks| && c <= |sorted| && (if j < |ks| then SplitAt(sorted, ks[j], c) else c == |sorted|)
  }

  lemma WalkStep(sorted: seq<int>, ks: seq<int>, j: nat, c: nat)
    requires Sorted(sorted) && Ascending(ks) && (forall x :: x in sorted ==> x in ks)
    requires j < |ks| && Walking(sorted, ks, j, c)
    ensures Walking(sorted, ks, j + 1, c + multiset(sorted)[ks[j]])
    ensures forall i :: c <= i < c + multiset(sorted)[ks[j]] ==> sorted[i] == ks[j]
  {
    RunLength(sorted, ks[j], c);
    var c' := c + multiset(sorted)[ks[j]];
    forall i | c' <= i < |sorted|
      ensures j + 1 < |ks| && sorted[i] >= ks[j + 1]
    {
      assert sorted[i] in ks;
      var m :| 0 <= m < |ks| && ks[m] == sorted[i];
      assert m > j;
    }
    if j + 1 < |ks| {
      forall i | 0 <= i < c' ensures sorted[i] < ks[j + 1] { assert ks[j] < ks[j + 1]; }
    }
    assert c' < |sorted| ==> sorted[c'] >= ks[j];
  }

  /**
    P95: the bucket of the sample at the computed rank, whatever the count; the defensive last return
    is never reached. `sorted` are the counted bucket keys in order.
   */
  method P95(sketch: Sketch, ghost sorted: seq<int>) returns (r: int)
    requires sketch.Valid() && Sorted(sorted) && multiset(sorted) == sketch.keys
    ensures sketch.count == 0 ==> r == 0
    ensures sketch.count > 0 ==>
              && Picked(ComputedRank(sketch.count)) < |sorted| == sketch.count
              && r == RepresentativeValue(sorted[Picked(ComputedRank(sketch.count))])
  {
    assert |multiset(sorted)| == |sorted|;
    if sketch.count == 0 { return 0; }
    RankFacts(sketch.count);
    var rank := ComputedRank(sketch.count);
    var ks := SortedKeys(sketch.bins);
    assert forall x :: x in sorted ==> x in multiset(sorted);
    assert ks != [] by { assert sorted[0] in multiset(sorted); }
    FirstBucket(sorted, ks, sketch.bins, sketch.keys);
    var cumulative: nat := 0;
    for j := 0 to |ks|
      invariant Walking(sorted, ks, j, cumulative)
      invariant j > 0 ==> cumulative < rank
    {
      WalkStep(sorted, ks, j, cumulative);
      assert ks[j] in ks && ks[j] in sketch.bins;
      cumulative := cumulative + sketch.bins[ks[j]];
      if cumulative >= rank {
        return RepresentativeValue(ks[j]);
      }
    }
    assert false;
  }

  lemma FirstBucket(sorted: seq<int>, ks: seq<int>, bins: BinMap, keys: multiset<int>)
    requires Sorted(sorted) && multiset(sorted) == keys && Counts(bins, keys)
    requires Ascending(ks) && (forall k :: k in ks <==> k in bins) && ks != []
    ensures Walking(sorted, ks, 0, 0) && (forall x :: x in sorted ==> x in ks)
  {
    forall i | 0 <= i < |sorted| ensures sorted[i] in ks && sorted[i] >= ks[0] {
      assert sorted[i] in multiset(sorted);
      assert keys[sorted[i]] > 0;
    }
  }

  // ----- accuracy -----

  /** The bucket keys of samples, in the samples' order. */
  ghost predicate KeysOfSamples(vs: seq<int>, ks: seq<int>) {
    |vs| == |ks| && forall i :: 0 <= i < |vs| ==> 1 <= vs[i] <= MAX_INT64 && ks[i] == Key(vs[i])
  }

  lemma SortedSamplesSortKeys(vs: seq<int>, ks: seq<int>)
    requires Sorted(vs) && KeysOfSamples(vs, ks)
    ensures Sorted(ks)
  {
    forall i, j | 0 <= i < j < |ks| ensures ks[i] <= ks[j] { KeyMonotone(vs[i], vs[j]); }
  }

  /**
    For any positive samples vs in order, P95 of a sketch that counted them is the representative of the
    bucket of the exact nearest-rank sample, and that representative is within one percent of it.
   */
  method P95OfSamples(sketch: Sketch, ghost vs: seq<int>, ghost ks: seq<int>) returns (r: int)
    requires sketch.Valid() && Sorted(vs) && vs != [] && KeysOfSamples(vs, ks) && multiset(ks) == sketch.keys
    requires |vs| * 95 + 99 <= MAX_UINT64
    ensures 0 <= NearestRank(|vs|) - 1 < |vs|
    ensures var x := vs[NearestRank(|vs|) - 1];
            && 100 * |AtMost(vs, x)| >= 95 * |vs| && 100 * |Below(vs, x)| < 95 * |vs|
            && r == RepresentativeValue(Key(x))
            && 0.99 * x as real <= Representative(Key(x)) <= 1.01 * x as real
            && 0.99 * x as real - 0.5 <= r as real <= 1.01 * x as real + 0.5
  {
    SortedSamplesSortKeys(vs, ks);
    assert |multiset(ks)| == |ks|;
    RankFacts(|vs|);
    NinetyFive(vs);
    OnePercent(vs[NearestRank(|vs|) - 1]);
    RoundedOnePercent(vs[NearestRank(|vs|) - 1]);
    r := P95(sketch, ks);
  }

  /** What P95 returns for samples in ascending order: the representative of the bucket at the computed rank. */
  function P95Value(vs: seq<int>): int
    requires 0 < |vs| <= MAX_UINT64 && ValidSamples(vs)
  {
    RankFacts(|vs|);
    RepresentativeValue(Key(vs[Picked(ComputedRank(|vs|))]))
  }

  predicate ValidSamples(vs: seq<int>) { forall i :: 0 <= i < |vs| ==> 1 <= vs[i] <= MAX_INT64 }

  /** Within one percent, and half a unit for rounding. */
  predicate Close(r: int, x: int) { 0.99 * x as real - 0.5 <= r as real <= 1.01 * x as real + 0.5 }

  /** A short latency at first, a long one from `at` on. */
  ghost function TwoLatencies(n: nat, at: nat): (vs: seq<int>)
    ensures |vs| == n && ValidSamples(vs) && Sorted(vs)
  {
    seq(n, i => if i < at then 1 else 1000)
  }

  /**
    P95 is close to the exact nearest-rank sample of every n samples if and only if n * 95 + 99 does
    not wrap around: where it wraps, a latency of 1000 is reported as 1.
   */
  lemma RankExactness(n: nat)
    requires 0 < n <= MAX_UINT64
    ensures 0 <= NearestRank(n) - 1 < n
    ensures n * 95 + 99 <= MAX_UINT64 <==>
              forall vs: seq<int> :: Sorted(vs) && |vs| == n && ValidSamples(vs)
                  ==> Close(P95Value(vs), vs[NearestRank(n) - 1])
  {
    RankFacts(n);
    if n * 95 + 99 <= MAX_UINT64 {
      forall vs: seq<int> | Sorted(vs) && |vs| == n && ValidSamples(vs)
          ensures Close(P95Value(vs), vs[NearestRank(n) - 1]) {
        RoundedOnePercent(vs[NearestRank(n) - 1]);
      }
    } else {
      var vs := TwoLatencies(n, NearestRank(n) - 1);
      assert vs[Picked(ComputedRank(n))] == 1 && vs[NearestRank(n) - 1] == 1000;
      RoundedOnePercent(1);
      assert !Close(P95Value(vs), 1000);
    }
  }
}
