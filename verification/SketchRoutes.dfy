/**
  Writing sketches, and the main result about them: however samples are added, encoded, decoded and
  merged, the sketch has counted exactly their buckets, so its P95 is theirs.
 */
module SketchRoutes {
  import opened Wrappers
  import opened Uvarint
  import opened SampleCodec
  import opened LogBuckets
  import opened SketchCodec
  import opened Sketches
  import opened SketchQuantile

  // ----- MarshalBinary -----

  /** bs lists the bins of the first keys of ks. */
  ghost predicate ListsBins(bins: BinMap, ks: seq<int>, bs: seq<Bin>) {
    |bs| == |ks| && forall i :: 0 <= i < |ks| ==> ks[i] in bins && bs[i] == Bin(ks[i], bins[ks[i]])
  }

  lemma {:induction false} ListedKeys(bins: BinMap, keys: multiset<int>, ks: seq<int>, bs: seq<Bin>, k: int)
    requires Counts(bins, keys) && Ascending(ks) && ListsBins(bins, ks, bs)
    ensures KeysOf(bs)[k] == if k in ks then keys[k] else 0
    decreases |ks|
  {
    if bs != [] {
      var n := |bs| - 1;
      ListedKeys(bins, keys, ks[..n], bs[..n], k);
      assert KeysOf(bs) == KeysOf(bs[..n]) + Repeat(ks[n], keys[ks[n]]);
      assert ks == ks[..n] + [ks[n]];
      assert ks[n] !in ks[..n];
    }
  }

  lemma ListedBins(bins: BinMap, keys: multiset<int>, ks: seq<int>, bs: seq<Bin>)
    requires Counts(bins, keys) && |keys| <= MAX_UINT64 && (forall k :: keys[k] > 0 ==> IsInt64(k))
    requires Ascending(ks) && (forall k :: k in ks <==> k in bins) && ListsBins(bins, ks, bs)
    ensures ValidBins(bs) && KeysOf(bs) == keys && Total(bs) == |keys|
  {
    forall i | 0 <= i < |bs| ensures ValidBin(bs[i]) {
      assert keys[ks[i]] > 0;
      AtMostAll(keys, ks[i]);
    }
    forall k ensures KeysOf(bs)[k] == keys[k] { ListedKeys(bins, keys, ks, bs, k); }
    assert KeysOf(bs) == keys;
    KeysOfFacts(bs);
  }

  method AppendBin(b: seq<byte>, bin: Bin) returns (r: seq<byte>)
    requires ValidBin(bin)
    ensures r == b + BinBytes(bin)
  {
    ZigzagBijection(bin.key, 0);
    r := AppendUvarint(b, ZigzagEncode(bin.key));
    r := AppendUvarint(r, bin.count);
    ConcatAssoc(b, Bytes(ZigzagEncode(bin.key)), Bytes(bin.count));
  }

  lemma {:induction false} BinsBytesSnoc(bs: seq<Bin>, bin: Bin)
    requires (forall i :: 0 <= i < |bs| ==> ValidBin(bs[i])) && ValidBin(bin)
    ensures BinsBytes(bs + [bin]) == BinsBytes(bs) + BinBytes(bin)
  {
    if bs == [] {
      assert bs + [bin] == [bin];
    } else {
      BinsBytesSnoc(bs[1..], bin);
      assert (bs + [bin])[1..] == bs[1..] + [bin];
      ConcatAssoc(BinBytes(bs[0]), BinsBytes(bs[1..]), BinBytes(bin));
    }
  }

  /** The bytes MarshalBinary may write for a sketch. */
  ghost predicate EncodesSketch(b: seq<byte>, keys: multiset<int>) {
    exists bs :: ValidBins(bs) && KeysOf(bs) == keys && Total(bs) <= MAX_UINT64 && b == EncodeBins(bs)
  }

  lemma EncodedSketchDecodes(b: seq<byte>, keys: multiset<int>)
    requires EncodesSketch(b, keys)
    ensures DecodeBins(b).Ok? && KeysOf(DecodeBins(b).value.0) == keys && DecodeBins(b).value.1 == |keys|
  {
    var bs :| ValidBins(bs) && KeysOf(bs) == keys && Total(bs) <= MAX_UINT64 && b == EncodeBins(bs);
    DecodeEncodeBins(bs);
    KeysOfFacts(bs);
  }

  /** The bins in key order; no bin of a reachable sketch is empty, so the zero-count error cannot occur. */
  method ListBins(sketch: Sketch) returns (bs: seq<Bin>)
    requires sketch.Valid()
    ensures ValidBins(bs) && KeysOf(bs) == sketch.keys && Total(bs) == sketch.count
  {
    var ks := SortedKeys(sketch.bins);
    bs := [];
    for i := 0 to |ks|
      invariant ListsBins(sketch.bins, ks[..i], bs)
    {
      assert ks[i] in ks && ks[i] in sketch.bins;
      bs := bs + [Bin(ks[i], sketch.bins[ks[i]])];
    }
    assert ks[..|ks|] == ks;
    ListedBins(sketch.bins, sketch.keys, ks, bs);
  }

  /** MarshalBinary. */
  method MarshalSketch(sketch: Sketch) returns (b: seq<byte>)
    requires sketch.Valid()
    ensures EncodesSketch(b, sketch.keys)
    ensures DecodeBins(b).Ok? && KeysOf(DecodeBins(b).value.0) == sketch.keys && DecodeBins(b).value.1 == sketch.count
  {
    var bs := ListBins(sketch);
    TotalNonNegative(bs);
    b := AppendUvarint([FORMAT_VERSION], |bs|);
    ghost var head := b;
    for i := 0 to |bs|
      invariant b == head + BinsBytes(bs[..i])
    {
      BinsBytesSnoc(bs[..i], bs[i]);
      assert bs[..i + 1] == bs[..i] + [bs[i]];
      ConcatAssoc(head, BinsBytes(bs[..i]), BinBytes(bs[i]));
      b := AppendBin(b, bs[i]);
    }
    assert bs[..|bs|] == bs;
    ConcatAssoc([FORMAT_VERSION], Bytes(|bs|), BinsBytes(bs));
    assert b == EncodeBins(bs);
    EncodedSketchDecodes(b, sketch.keys);
  }

  // ----- every route to a sketch -----

  datatype SketchRoute =
    | NoSamples
    | AddValue(before: SketchRoute, value: int)            // Sketch.Add
    | MergeBoth(left: SketchRoute, right: SketchRoute)     // Sketch.Merge
    | RecodeSketch(whole: SketchRoute)                     // MarshalBinary, then UnmarshalSketch
    | QueryBoth(merger: SketchRoute, row: SketchRoute)     // MarshalBinary, then QuerySketchMerger.MergeBinary

  ghost function Samples(route: SketchRoute): seq<int> {
    match route
    case NoSamples => []
    case AddValue(r, v) => Samples(r) + [v]
    case MergeBoth(l, r) => Samples(l) + Samples(r)
    case RecodeSketch(r) => Samples(r)
    case QueryBoth(m, r) => Samples(m) + Samples(r)
  }

  /** A table giving every value its bucket. */
  type Table = map<int, int>

  function Bucket(m: Table, v: int): int { if v in m then m[v] else 0 }

  /** The table Sketch.Add uses: the logarithmic bucket of every positive int64. */
  ghost function LogTable(): Table {
    map v | 1 <= v <= MAX_INT64 :: Key(v)
  }

  /** The buckets of the samples, in the samples' order. */
  ghost function Buckets(m: Table, route: SketchRoute): seq<int> {
    match route
    case NoSamples => []
    case AddValue(r, v) => Buckets(m, r) + [Bucket(m, v)]
    case MergeBoth(l, r) => Buckets(m, l) + Buckets(m, r)
    case RecodeSketch(r) => Buckets(m, r)
    case QueryBoth(q, r) => Buckets(m, q) + Buckets(m, r)
  }

  /** keys is what the route has counted, by the contracts of the operations on it, all of which succeed. */
  ghost predicate CountsKeys(m: Table, route: SketchRoute, keys: multiset<int>) {
    match route
    case NoSamples => keys == multiset{}
    case AddValue(r, v) =>
      1 <= v <= MAX_INT64 && exists a :: CountsKeys(m, r, a) && |a| < MAX_UINT64 && keys == a + multiset{Bucket(m, v)}
    case MergeBoth(l, r) =>
      exists a, b :: CountsKeys(m, l, a) && CountsKeys(m, r, b) && |a| + |b| <= MAX_UINT64 && keys == a + b
    case RecodeSketch(r) =>
      exists a, b :: CountsKeys(m, r, a) && EncodesSketch(b, a) && DecodeBins(b).Ok?
          && keys == KeysOf(DecodeBins(b).value.0)
    case QueryBoth(q, r) =>
      exists a, s, b, n :: CountsKeys(m, q, a) && CountsKeys(m, r, s) && EncodesSketch(b, s)
          && MergesSketch(a, b, Some(n), keys)
  }

  lemma CountedParts(m: Table, route: SketchRoute, l: SketchRoute, r: SketchRoute, keys: multiset<int>)
    returns (a: multiset<int>, b: multiset<int>)
    requires route == MergeBoth(l, r) || route == QueryBoth(l, r)
    requires CountsKeys(m, route, keys)
    ensures CountsKeys(m, l, a) && CountsKeys(m, r, b) && keys == a + b && |a| + |b| <= MAX_UINT64
  {
    if route.MergeBoth? {
      a, b :| CountsKeys(m, l, a) && CountsKeys(m, r, b) && |a| + |b| <= MAX_UINT64 && keys == a + b;
    } else {
      var s, n;
      a, b, s, n :| CountsKeys(m, l, a) && CountsKeys(m, r, b) && EncodesSketch(s, b)
          && MergesSketch(a, s, Some(n), keys);
      EncodedSketchDecodes(s, b);
    }
  }

  lemma RecodedIsSame(m: Table, r: SketchRoute, keys: multiset<int>)
    requires CountsKeys(m, RecodeSketch(r), keys)
    ensures CountsKeys(m, r, keys)
  {
    var a, b :| CountsKeys(m, r, a) && EncodesSketch(b, a) && DecodeBins(b).Ok?
        && keys == KeysOf(DecodeBins(b).value.0);
    EncodedSketchDecodes(b, a);
  }

  lemma AddedPart(m: Table, r: SketchRoute, v: int, keys: multiset<int>) returns (a: multiset<int>)
    requires CountsKeys(m, AddValue(r, v), keys)
    ensures 1 <= v <= MAX_INT64 && CountsKeys(m, r, a) && |a| < MAX_UINT64 && keys == a + multiset{Bucket(m, v)}
  {
    a :| CountsKeys(m, r, a) && |a| < MAX_UINT64 && keys == a + multiset{Bucket(m, v)};
  }

  /** ks are the buckets of the samples vs, in the same order. */
  ghost predicate BucketsOf(m: Table, vs: seq<int>, ks: seq<int>) {
    |vs| == |ks| && forall i :: 0 <= i < |vs| ==> 1 <= vs[i] <= MAX_INT64 && ks[i] == Bucket(m, vs[i])
  }

  lemma JoinBuckets(m: Table, vs: seq<int>, ks: seq<int>, ws: seq<int>, js: seq<int>)
    requires BucketsOf(m, vs, ks) && BucketsOf(m, ws, js)
    ensures BucketsOf(m, vs + ws, ks + js) && multiset(ks + js) == multiset(ks) + multiset(js)
  {
  }

  /** keys are the buckets of the samples vs, each as often as it occurs. */
  ghost predicate Counted(m: Table, vs: seq<int>, ks: seq<int>, keys: multiset<int>) {
    BucketsOf(m, vs, ks) && keys == multiset(ks) && |keys| == |vs| <= MAX_UINT64
  }

  lemma JoinCounted(m: Table, vs: seq<int>, ks: seq<int>, a: multiset<int>, ws: seq<int>, js: seq<int>,
                    b: multiset<int>)
    requires Counted(m, vs, ks, a) && Counted(m, ws, js, b) && |a| + |b| <= MAX_UINT64
    ensures Counted(m, vs + ws, ks + js, a + b)
  {
  }

  lemma OneCounted(m: Table, v: int)
    requires 1 <= v <= MAX_INT64
    ensures Counted(m, [v], [Bucket(m, v)], multiset{Bucket(m, v)})
  {
  }

  /** Whatever the grouping, merging path and coding on the way, a sketch has counted exactly its samples. */
  lemma {:induction false} RouteCountsSamples(m: Table, route: SketchRoute, keys: multiset<int>)
    requires CountsKeys(m, route, keys)
    ensures Counted(m, Samples(route), Buckets(m, route), keys)
    decreases route
  {
    if route.NoSamples? { return; }
    if route.RecodeSketch? {
      RecodedIsSame(m, route.whole, keys);
      RouteCountsSamples(m, route.whole, keys);
      return;
    }
    if route.AddValue? {
      var v := route.value;
      var a := AddedPart(m, route.before, v, keys);
      RouteCountsSamples(m, route.before, a);
      OneCounted(m, v);
      JoinCounted(m, Samples(route.before), Buckets(m, route.before), a, [v], [Bucket(m, v)], multiset{Bucket(m, v)});
      return;
    }
    var l := if route.MergeBoth? then route.left else route.merger;
    var r := if route.MergeBoth? then route.right else route.row;
    var a, b := CountedParts(m, route, l, r, keys);
    RouteCountsSamples(m, l, a);
    RouteCountsSamples(m, r, b);
    JoinCounted(m, Samples(l), Buckets(m, l), a, Samples(r), Buckets(m, r), b);
  }

  // ----- P95 of any route -----

  ghost function Without(s: seq<int>, i: nat): seq<int>
    requires i < |s|
  {
    s[..i] + s[i + 1..]
  }

  lemma WithoutBag(s: seq<int>, i: nat)
    requires i < |s|
    ensures multiset(s) == multiset(Without(s, i)) + multiset{s[i]}
  {
    assert s == s[..i] + [s[i]] + s[i + 1..];
  }

  lemma Cancel(a: multiset<int>, b: multiset<int>, x: int)
    requires a + multiset{x} == b + multiset{x}
    ensures a == b
  {
    forall y ensures a[y] == b[y] { assert (a + multiset{x})[y] == (b + multiset{x})[y]; }
  }

  /** Pair off the last of ws with an equal sample of vs. */
  lemma MatchLast(m: Table, vs: seq<int>, ks: seq<int>, ws: seq<int>) returns (i: nat)
    requires BucketsOf(m, vs, ks) && multiset(vs) == multiset(ws) && ws != []
    ensures i < |vs| && vs[i] == ws[|ws| - 1]
    ensures multiset(Without(vs, i)) == multiset(ws[..|ws| - 1])
    ensures BucketsOf(m, Without(vs, i), Without(ks, i))
  {
    var n := |ws| - 1;
    assert ws[n] in multiset(ws) && ws[n] in multiset(vs);
    i :| 0 <= i < |vs| && vs[i] == ws[n];
    WithoutBag(vs, i);
    assert ws == ws[..n] + [ws[n]];
    Cancel(multiset(Without(vs, i)), multiset(ws[..n]), ws[n]);
  }

  /** Reordering the samples reorders their buckets. */
  lemma {:induction false} BucketsPermute(m: Table, vs: seq<int>, ks: seq<int>, ws: seq<int>) returns (js: seq<int>)
    requires BucketsOf(m, vs, ks) && multiset(vs) == multiset(ws)
    ensures BucketsOf(m, ws, js) && multiset(js) == multiset(ks)
    decreases |ws|
  {
    if ws == [] {
      assert |multiset(vs)| == |vs|;
      return [];
    }
    var n := |ws| - 1;
    var i := MatchLast(m, vs, ks, ws);
    var front := BucketsPermute(m, Without(vs, i), Without(ks, i), ws[..n]);
    WithoutBag(ks, i);
    JoinBuckets(m, ws[..n], front, [ws[n]], [ks[i]]);
    assert ws == ws[..n] + [ws[n]];
    js := front + [ks[i]];
  }

  lemma LogBucketsOf(vs: seq<int>, ks: seq<int>)
    requires BucketsOf(LogTable(), vs, ks)
    ensures KeysOfSamples(vs, ks)
  {
  }

  /**
    P95 of a sketch that came about by any route, against the samples themselves: for their sorted
    order, the exact nearest-rank sample is found up to one percent (and rounding): at least 95 in 100
    samples are at most that sample, and fewer are below it.
   */
  method P95OfRoute(sketch: Sketch, ghost route: SketchRoute, ghost sorted: seq<int>) returns (r: int)
    requires sketch.Valid() && CountsKeys(LogTable(), route, sketch.keys)
    requires Sorted(sorted) && multiset(sorted) == multiset(Samples(route)) && sorted != []
    requires |sorted| * 95 + 99 <= MAX_UINT64
    ensures 0 <= NearestRank(|sorted|) - 1 < |sorted| && sorted[NearestRank(|sorted|) - 1] >= 1
    ensures var x := sorted[NearestRank(|sorted|) - 1];
            && 100 * |AtMost(sorted, x)| >= 95 * |sorted| && 100 * |Below(sorted, x)| < 95 * |sorted|
            && r == RepresentativeValue(Key(x))
            && 0.99 * x as real <= Representative(Key(x)) <= 1.01 * x as real
            && 0.99 * x as real - 0.5 <= r as real <= 1.01 * x as real + 0.5
  {
    RouteCountsSamples(LogTable(), route, sketch.keys);
    ghost var ks := BucketsPermute(LogTable(), Samples(route), Buckets(LogTable(), route), sorted);
    LogBucketsOf(sorted, ks);
    RankFacts(|sorted|);
    r := P95OfSamples(sketch, sorted, ks);
  }
}
