/**
  Sketch and QuerySketchMerger. A sketch is specified by the multiset of bucket keys it has counted;
  its bins and its count are two views of that multiset.
 */
module Sketches {
  import opened Wrappers
  import opened Uvarint
  import opened SketchCodec
  import opened LogBuckets

  type BinMap = map<int, int>

  /** The bins are exactly the positive multiplicities of keys. */
  ghost predicate Counts(bins: BinMap, keys: multiset<int>) {
    && (forall k :: k in bins ==> bins[k] == keys[k] && keys[k] > 0)
    && (forall k :: keys[k] > 0 ==> k in bins)
  }

  ghost function Repeat(k: int, c: nat): multiset<int> { multiset{}[k := c] }

  function Get(bins: BinMap, k: int): int { if k in bins then bins[k] else 0 }

  lemma AtMostAll(keys: multiset<int>, k: int)
    ensures keys[k] <= |keys|
  {
    assert |keys[k := 0]| == |keys| - keys[k];
  }

  lemma CountMore(bins: BinMap, keys: multiset<int>, k: int, c: int)
    requires Counts(bins, keys) && c > 0
    ensures Get(bins, k) == keys[k]
    ensures Counts(bins[k := Get(bins, k) + c], keys + Repeat(k, c))
    ensures |keys + Repeat(k, c)| == |keys| + c
  {
    assert |Repeat(k, c)| == c;
  }

  /** Taking one bin out of the view takes all occurrences of its key out of the multiset. */
  lemma CountLess(bins: BinMap, keys: multiset<int>, k: int)
    requires Counts(bins, keys) && k in bins
    ensures Counts(bins - {k}, keys[k := 0]) && keys == keys[k := 0] + Repeat(k, bins[k])
  {
  }

  lemma CountsNone(bins: BinMap, keys: multiset<int>)
    requires Counts(bins, keys) && bins.Keys == {}
    ensures keys == multiset{}
  {
    forall k ensures keys[k] == 0 { assert keys[k] > 0 ==> k in bins.Keys; }
  }

  // ----- the multiset behind encoded bins -----

  ghost function KeysOf(bs: seq<Bin>): multiset<int> {
    if bs == [] then multiset{}
    else KeysOf(bs[..|bs| - 1]) + Repeat(bs[|bs| - 1].key, if bs[|bs| - 1].count >= 0 then bs[|bs| - 1].count else 0)
  }

  lemma {:induction false} TotalSnoc(bs: seq<Bin>, b: Bin)
    ensures Total(bs + [b]) == Total(bs) + b.count
  {
    if bs == [] {
      assert bs + [b] == [b];
    } else {
      TotalSnoc(bs[1..], b);
      assert (bs + [b])[1..] == bs[1..] + [b];
    }
  }

  lemma {:induction false} KeysOfTotal(bs: seq<Bin>)
    requires ValidBins(bs)
    ensures |KeysOf(bs)| == Total(bs)
    decreases |bs|
  {
    if bs == [] { return; }
    var n := |bs| - 1;
    KeysOfTotal(bs[..n]);
    TotalSnoc(bs[..n], bs[n]);
    assert bs == bs[..n] + [bs[n]];
    BagSize(KeysOf(bs[..n]), bs[n].key, bs[n].count);
  }

  lemma BagSize(a: multiset<int>, k: int, c: nat)
    ensures |a + Repeat(k, c)| == |a| + c
  {
  }

  lemma {:induction false} KeyOccurs(bs: seq<Bin>, k: int)
    requires ValidBins(bs) && KeysOf(bs)[k] > 0
    ensures IsInt64(k) && exists i :: 0 <= i < |bs| && bs[i].key == k
    decreases |bs|
  {
    var n := |bs| - 1;
    if KeysOf(bs[..n])[k] == 0 {
      assert bs[n].key == k;
      return;
    }
    KeyOccurs(bs[..n], k);
    var i :| 0 <= i < n && bs[..n][i].key == k;
    assert bs[i].key == k;
  }

  lemma KeysOfFacts(bs: seq<Bin>)
    requires ValidBins(bs)
    ensures |KeysOf(bs)| == Total(bs)
    ensures forall k :: KeysOf(bs)[k] > 0 ==> IsInt64(k) && exists i :: 0 <= i < |bs| && bs[i].key == k
  {
    KeysOfTotal(bs);
    forall k | KeysOf(bs)[k] > 0 ensures IsInt64(k) && exists i :: 0 <= i < |bs| && bs[i].key == k { KeyOccurs(bs, k); }
  }

  /** The next bin's key has not been counted before. */
  lemma NextBin(bs: seq<Bin>, i: nat, bins: BinMap)
    requires ValidBins(bs) && i < |bs| && Counts(bins, KeysOf(bs[..i]))
    ensures bs[i].key !in bins
    ensures KeysOf(bs[..i + 1]) == KeysOf(bs[..i]) + Repeat(bs[i].key, bs[i].count)
  {
    KeysOfFacts(bs[..i]);
    assert bs[..i + 1][..i] == bs[..i];
  }

  class Sketch {
    var bins: BinMap
    var count: int
    ghost var keys: multiset<int>

    ghost predicate Valid() reads this {
      && Counts(bins, keys) && count == |keys| <= MAX_UINT64
      && (forall k :: keys[k] > 0 ==> IsInt64(k))
    }

    constructor ()
      ensures Valid() && keys == multiset{}
    {
      bins, count, keys := map[], 0, multiset{};
    }

    /** Add: one more value in its logarithmic bucket; refused only for a non-positive value or a full count. */
    method Add(value: int) returns (ok: bool)
      requires Valid() && IsInt64(value)
      modifies this
      ensures Valid()
      ensures ok <==> value > 0 && old(|keys|) < MAX_UINT64
      ensures ok ==> keys == old(keys) + multiset{Key(value)}
      ensures !ok ==> bins == old(bins) && count == old(count) && keys == old(keys)
    {
      if value <= 0 { return false; }
      var key := Key(value);
      KeyBound(value);
      AtMostAll(keys, key);
      CountMore(bins, keys, key, 1);
      if Get(bins, key) == MAX_UINT64 || count == MAX_UINT64 { return false; }
      assert Repeat(key, 1) == multiset{key};
      bins, count, keys := bins[key := Get(bins, key) + 1], count + 1, keys + multiset{key};
      return true;
    }

    /** Merge: all or nothing; the per-bin overflow check can never fire. */
    method Merge(other: Sketch) returns (ok: bool)
      requires Valid() && other.Valid()
      modifies this
      ensures Valid()
      ensures ok <==> old(|keys|) + old(|other.keys|) <= MAX_UINT64
      ensures ok ==> keys == old(keys) + old(other.keys)
      ensures !ok ==> bins == old(bins) && count == old(count) && keys == old(keys)
    {
      var more := other.count;
      if count > MAX_UINT64 - more { return false; }
      var merged := MergeBins(bins, keys, other.bins, other.keys);
      KeysStayInt64(keys, other.keys);
      bins, count, keys := merged, count + more, keys + other.keys;
      return true;
    }
  }

  lemma KeysStayInt64(a: multiset<int>, b: multiset<int>)
    requires forall k :: a[k] > 0 ==> IsInt64(k)
    requires forall k :: b[k] > 0 ==> IsInt64(k)
    ensures forall k :: (a + b)[k] > 0 ==> IsInt64(k)
  {
    assert forall k :: (a + b)[k] == a[k] + b[k];
  }

  /** Merge's loop over the other sketch's bins, in any order. */
  method MergeBins(mine: BinMap, ghost a: multiset<int>, theirs: BinMap, ghost b: multiset<int>)
    returns (merged: BinMap)
    requires Counts(mine, a) && Counts(theirs, b) && |a| + |b| <= MAX_UINT64
    ensures Counts(merged, a + b)
  {
    ghost var now, left := a, b;
    var todo := theirs;
    merged := mine;
    while todo.Keys != {}
      invariant Counts(todo, left) && Counts(merged, now) && now + left == a + b
      decreases |todo|
    {
      ghost var _ := Inhabited(todo.Keys);
      var k :| k in todo.Keys;
      var c := todo[k];
      CountMore(merged, now, k, c);
      CountLess(todo, left, k);
      AtMostAll(a + b, k);
      if Get(merged, k) > MAX_UINT64 - c {
        assert false;
      }
      merged := merged[k := Get(merged, k) + c];
      todo, now, left := todo - {k}, now + Repeat(k, c), left[k := 0];
    }
    CountsNone(todo, left);
    assert now + left == now;
  }

  lemma NewBin(bins: BinMap, k: int, c: int)
    requires k !in bins
    ensures |bins[k := c]| == |bins| + 1
  {
    assert bins[k := c].Keys == bins.Keys + {k};
    assert |bins| == |bins.Keys| && |bins[k := c]| == |bins[k := c].Keys|;
  }

  /** UnmarshalSketch. */
  method UnmarshalSketch(encoded: seq<byte>) returns (sketch: Sketch?, error: Option<SketchError>)
    ensures sketch == null <==> DecodeBins(encoded).Err?
    ensures sketch == null ==> error == Some(DecodeBins(encoded).error)
    ensures sketch != null ==> fresh(sketch) && sketch.Valid()
    ensures sketch != null ==>
              sketch.keys == KeysOf(DecodeBins(encoded).value.0) && sketch.count == DecodeBins(encoded).value.1
    ensures sketch != null ==> |sketch.bins| == |DecodeBins(encoded).value.0|
  {
    var walked := WalkSketch(encoded);
    if walked.Err? { return null, Some(walked.error); }
    DecodedSketchIsStrict(encoded);
    var bs := walked.value.0;
    var bins := map[];
    for i := 0 to |bs|
      invariant Counts(bins, KeysOf(bs[..i])) && |bins| == i
    {
      NextBin(bs, i, bins);
      CountMore(bins, KeysOf(bs[..i]), bs[i].key, bs[i].count);
      NewBin(bins, bs[i].key, bs[i].count);
      bins := bins[bs[i].key := bs[i].count];
    }
    assert bs[..|bs|] == bs;
    KeysOfFacts(bs);
    var filled := new Sketch();
    filled.bins, filled.count, filled.keys := bins, walked.value.1, KeysOf(bs);
    sketch, error := filled, None;
  }

  /** The outcome every way of merging one encoded sketch into `keys` must have. */
  ghost predicate MergesSketch(keys: multiset<int>, row: seq<byte>, r: Option<int>, after: multiset<int>) {
    match DecodeBins(row)
    case Err(_) => r.None?
    case Ok((bs, total)) =>
      && (r.Some? <==> |keys| + total <= MAX_UINT64)
      && (r.Some? ==> r.value == total && after == keys + KeysOf(bs))
  }

  /** The multiset of a list of rows that all decode. */
  ghost function RowKeys(rows: seq<seq<byte>>): multiset<int> {
    if rows == [] then multiset{}
    else
      var last := DecodeBins(rows[|rows| - 1]);
      RowKeys(rows[..|rows| - 1]) + (if last.Ok? then KeysOf(last.value.0) else multiset{})
  }

  lemma RowKeysSnoc(rows: seq<seq<byte>>, row: seq<byte>)
    ensures RowKeys(rows + [row])
         == RowKeys(rows) + (if DecodeBins(row).Ok? then KeysOf(DecodeBins(row).value.0) else multiset{})
  {
    assert (rows + [row])[..|rows|] == rows;
  }

  class QuerySketchMerger {
    var sketch: Sketch?
    ghost var rows: seq<seq<byte>>

    /** While it is open it holds the sum of every row given to it, and all of those rows decoded. */
    ghost predicate Valid()
      reads this, sketch
    {
      sketch != null ==>
        && sketch.Valid() && sketch.keys == RowKeys(rows)
        && (forall i :: 0 <= i < |rows| ==> DecodeBins(rows[i]).Ok?)
    }

    constructor ()
      ensures Valid() && fresh(sketch) && sketch != null && rows == []
    {
      sketch := new Sketch();
      rows := [];
    }

    /** The walk's callback over a decoded row, on the bins as they grow. */
    method AddBins(bs: seq<Bin>, start: BinMap, ghost keys: multiset<int>) returns (bins: BinMap, overflow: bool)
      requires ValidBins(bs) && Counts(start, keys)
      ensures overflow ==> |keys| + Total(bs) > MAX_UINT64
      ensures !overflow ==> Counts(bins, keys + KeysOf(bs))
    {
      bins, overflow := start, false;
      assert keys + KeysOf(bs[..0]) == keys;
      for i := 0 to |bs|
        invariant overflow ==> |keys| + Total(bs) > MAX_UINT64
        invariant !overflow ==> Counts(bins, keys + KeysOf(bs[..i]))
      {
        if !overflow {
          var k, c := bs[i].key, bs[i].count;
          CountMore(bins, keys + KeysOf(bs[..i]), k, c);
          NextSum(keys, bs, i);
          if Get(bins, k) > MAX_UINT64 - c {
            AtMostAll(keys + KeysOf(bs[..i + 1]), k);
            overflow := true;
          } else {
            bins := bins[k := Get(bins, k) + c];
          }
        }
      }
      assert bs[..|bs|] == bs;
    }

    /** MergeBinary: any failure closes the merger for good. */
    method MergeBinary(encoded: seq<byte>) returns (r: Option<int>)
      requires Valid()
      modifies this, sketch
      ensures Valid() && rows == old(rows) + [encoded]
      ensures old(sketch) == null ==> r.None? && sketch == null
      ensures old(sketch) != null ==> MergesSketch(old(sketch.keys), encoded, r, RowKeys(rows))
      ensures old(sketch) != null ==> (r.Some? <==> sketch != null) && (r.Some? ==> sketch == old(sketch))
    {
      rows := rows + [encoded];
      if sketch == null { return None; }
      RowKeysSnoc(old(rows), encoded);
      r := MergeRow(encoded);
      if r.None? { sketch := null; }
    }

    /** The row is walked, and merged unless it is malformed or the count would overflow. */
    method MergeRow(encoded: seq<byte>) returns (r: Option<int>)
      requires sketch != null && sketch.Valid()
      modifies sketch
      ensures MergesSketch(old(sketch.keys), encoded, r, sketch.keys)
      ensures r.Some? ==> sketch.Valid()
    {
      var walked := WalkSketch(encoded);
      if walked.Err? { return None; }
      DecodedSketchIsStrict(encoded);
      var bs, total := walked.value.0, walked.value.1;
      KeysOfFacts(bs);
      var bins, overflow := AddBins(bs, sketch.bins, sketch.keys);
      if overflow || sketch.count > MAX_UINT64 - total { return None; }
      KeysStayInt64(sketch.keys, KeysOf(bs));
      sketch.bins, sketch.count, sketch.keys := bins, sketch.count + total, sketch.keys + KeysOf(bs);
      return Some(total);
    }

    /** TakeSketch: what is handed over is the sum of all rows, every one of which was accepted. */
    method TakeSketch() returns (taken: Sketch?)
      requires Valid()
      modifies this
      ensures sketch == null && Valid() && taken == old(sketch)
      ensures taken != null ==> taken.Valid() && taken.keys == RowKeys(old(rows))
      ensures taken != null ==> forall i :: 0 <= i < |old(rows)| ==> DecodeBins(old(rows)[i]).Ok?
    {
      taken := sketch;
      sketch := null;
    }
  }

  lemma NextSum(keys: multiset<int>, bs: seq<Bin>, i: nat)
    requires ValidBins(bs) && i < |bs|
    ensures keys + KeysOf(bs[..i + 1]) == keys + KeysOf(bs[..i]) + Repeat(bs[i].key, bs[i].count)
    ensures |keys + KeysOf(bs[..i + 1])| <= |keys| + Total(bs)
  {
    assert bs[..i + 1][..i] == bs[..i];
    KeysOfFacts(bs[..i + 1]);
    TotalPrefix(bs, i + 1);
  }

  lemma {:induction false} TotalPrefix(bs: seq<Bin>, i: nat)
    requires i <= |bs| && forall j :: 0 <= j < |bs| ==> ValidBin(bs[j])
    ensures Total(bs[..i]) <= Total(bs)
    decreases |bs| - i
  {
    if i == |bs| {
      assert bs[..i] == bs;
    } else {
      TotalPrefix(bs, i + 1);
      TotalSnoc(bs[..i], bs[i]);
      assert bs[..i + 1] == bs[..i] + [bs[i]];
    }
  }

  /** Decode, then Sketch.Merge: the same verdict, row count and result as the query merger. */
  method DecodeAndMergeSketch(into: Sketch, encoded: seq<byte>) returns (r: Option<int>)
    requires into.Valid()
    modifies into
    ensures into.Valid() && MergesSketch(old(into.keys), encoded, r, into.keys)
    ensures r.None? ==> into.keys == old(into.keys) && into.bins == old(into.bins) && into.count == old(into.count)
  {
    var row, e := UnmarshalSketch(encoded);
    if row == null { return None; }
    var ok := into.Merge(row);
    return if ok then Some(row.count) else None;
  }
}
