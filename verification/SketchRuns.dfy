/** Routes and rows followed on real sketches, operation by operation. */
module SketchRuns {
  import opened Wrappers
  import opened Uvarint
  import opened LogBuckets
  import opened SketchCodec
  import opened Sketches
  import opened SketchRoutes

  // ----- rows, both ways -----

  /** Two outcomes of merging the same row into the same counts agree. */
  lemma SketchOutcomeUnique(keys: multiset<int>, row: seq<byte>, r: Option<int>, after: multiset<int>,
                            r': Option<int>, after': multiset<int>)
    requires MergesSketch(keys, row, r, after) && MergesSketch(keys, row, r', after')
    ensures r == r' && (r.Some? ==> after == after')
  {
  }

  /** Both paths over the same rows from empty: the same verdict at the same row, and the same counts until then. */
  method MergeSketchRowsBothWays(rows: seq<seq<byte>>)
    returns (fast: Option<BinMap>, slow: Option<BinMap>, fastRows: int, slowRows: int)
    ensures fastRows == slowRows && fast == slow && (fast.Some? ==> fastRows == |rows|)
  {
    var merger := new QuerySketchMerger();
    var plain := new Sketch();
    for i := 0 to |rows|
      invariant merger.Valid() && merger.sketch != null && plain.Valid() && merger.sketch.keys == plain.keys
      invariant fresh(merger) && fresh(merger.sketch) && fresh(plain) && merger.sketch != plain
    {
      ghost var keys := plain.keys;
      var r := merger.MergeBinary(rows[i]);
      var r' := DecodeAndMergeSketch(plain, rows[i]);
      SketchOutcomeUnique(keys, rows[i], r, RowKeys(merger.rows), r', plain.keys);
      if r.None? { return None, None, i, i; }
    }
    SameBins(merger.sketch.bins, plain.bins, plain.keys);
    return Some(merger.sketch.bins), Some(plain.bins), |rows|, |rows|;
  }

  lemma SameBins(a: BinMap, b: BinMap, keys: multiset<int>)
    requires Counts(a, keys) && Counts(b, keys)
    ensures a == b
  {
    forall k | k in a ensures k in b && a[k] == b[k] { assert keys[k] == a[k] > 0; }
    forall k | k in b ensures k in a { assert keys[k] == b[k] > 0; }
  }

  // ----- routes -----

  /** All samples are positive int64 values, and there are not too many of them. */
  ghost predicate Countable(vs: seq<int>) {
    |vs| <= MAX_UINT64 && forall i :: 0 <= i < |vs| ==> 1 <= vs[i] <= MAX_INT64
  }

  lemma CountableParts(vs: seq<int>, ws: seq<int>)
    requires Countable(vs + ws)
    ensures Countable(vs) && Countable(ws)
  {
    assert forall i :: 0 <= i < |vs| ==> vs[i] == (vs + ws)[i];
    assert forall i :: 0 <= i < |ws| ==> ws[i] == (vs + ws)[|vs| + i];
  }

  /** k has counted the samples vs, whose buckets are ks. */
  ghost predicate HasCounted(k: Sketch, vs: seq<int>, ks: seq<int>)
    reads k
  {
    k.Valid() && k.keys == multiset(ks) && |ks| == |vs|
  }

  lemma LogBucket(v: int)
    requires 1 <= v <= MAX_INT64
    ensures Bucket(LogTable(), v) == Key(v)
  {
  }

  lemma JoinBags(ks: seq<int>, js: seq<int>)
    ensures multiset(ks + js) == multiset(ks) + multiset(js) && |multiset(ks)| == |ks|
  {
  }

  method Recoded(k: Sketch, ghost vs: seq<int>, ghost ks: seq<int>) returns (t: Sketch)
    requires HasCounted(k, vs, ks)
    ensures fresh(t) && HasCounted(t, vs, ks)
  {
    var b := MarshalSketch(k);
    var u, e := UnmarshalSketch(b);
    t := u;
  }

  method MergeInto(k: Sketch, other: Sketch, ghost vs: seq<int>, ghost ks: seq<int>, ghost ws: seq<int>,
                   ghost js: seq<int>)
    requires k != other && HasCounted(k, vs, ks) && HasCounted(other, ws, js) && |vs| + |ws| <= MAX_UINT64
    modifies k
    ensures HasCounted(k, vs + ws, ks + js)
  {
    JoinBags(ks, js);
    JoinBags(js, ks);
    var ok := k.Merge(other);
  }

  method MergeByQuery(k: Sketch, other: Sketch, ghost vs: seq<int>, ghost ks: seq<int>, ghost ws: seq<int>,
                      ghost js: seq<int>)
    returns (t: Sketch)
    requires HasCounted(k, vs, ks) && HasCounted(other, ws, js) && |vs| + |ws| <= MAX_UINT64
    ensures fresh(t) && HasCounted(t, vs + ws, ks + js)
  {
    JoinBags(ks, js);
    JoinBags(js, ks);
    var first := MarshalSketch(k);
    var second := MarshalSketch(other);
    var merger := new QuerySketchMerger();
    var r := merger.MergeBinary(first);
    assert merger.sketch.keys == multiset{} + k.keys == k.keys;
    r := merger.MergeBinary(second);
    var taken := merger.TakeSketch();
    t := taken;
  }

  /** Any route, followed: no operation on it fails, and the sketch at its end has counted exactly its samples. */
  method Follow(route: SketchRoute) returns (k: Sketch)
    requires Countable(Samples(route))
    ensures fresh(k) && HasCounted(k, Samples(route), Buckets(LogTable(), route))
    decreases route
  {
    match route
    case NoSamples => k := new Sketch();
    case AddValue(r, v) =>
      CountableParts(Samples(r), [v]);
      assert [v][0] == v;
      k := Follow(r);
      JoinBags(Buckets(LogTable(), r), [Bucket(LogTable(), v)]);
      LogBucket(v);
      var ok := k.Add(v);
    case MergeBoth(l, r) =>
      CountableParts(Samples(l), Samples(r));
      k := Follow(l);
      var other := Follow(r);
      MergeInto(k, other, Samples(l), Buckets(LogTable(), l), Samples(r), Buckets(LogTable(), r));
    case RecodeSketch(r) =>
      var plain := Follow(r);
      k := Recoded(plain, Samples(r), Buckets(LogTable(), r));
    case QueryBoth(m, r) =>
      CountableParts(Samples(m), Samples(r));
      var plain := Follow(m);
      var other := Follow(r);
      k := MergeByQuery(plain, other, Samples(m), Buckets(LogTable(), m), Samples(r), Buckets(LogTable(), r));
  }
}
