/**
  The binary form of a sketch: version, bin count, then per bin its zigzag key and its count as
  varints, keys strictly ascending, counts positive, total within uint64.
 */
module SketchCodec {
  import opened Wrappers
  import opened Uvarint
  import opened SampleCodec

  datatype Bin = Bin(key: int, count: int)

  datatype BinRead = BinAt(bin: Bin, next: nat) | BadBin(error: SketchError)
  datatype BinsRead = Bins(bins: seq<Bin>, total: int, next: nat) | BadBins(error: SketchError)
  datatype SketchError = NoData | WrongVersion | BadVarint(error: DecodeError) | KeysNotIncreasing | BadCount | Trailing

  ghost predicate ValidBin(b: Bin) { IsInt64(b.key) && 0 < b.count <= MAX_UINT64 }

  /** What an encoded sketch holds: ascending keys, positive counts, a uint64 total. */
  ghost predicate ValidBins(bs: seq<Bin>) {
    && (forall i :: 0 <= i < |bs| ==> ValidBin(bs[i]))
    && (forall i, j :: 0 <= i < j < |bs| ==> bs[i].key < bs[j].key)
  }

  function Total(bs: seq<Bin>): int {
    if bs == [] then 0 else bs[0].count + Total(bs[1..])
  }

  function BinBytes(b: Bin): seq<byte>
    requires ValidBin(b)
  {
    Bytes(ZigzagEncode(b.key)) + Bytes(b.count)
  }

  function BinsBytes(bs: seq<Bin>): seq<byte>
    requires forall i :: 0 <= i < |bs| ==> ValidBin(bs[i])
  {
    if bs == [] then [] else BinBytes(bs[0]) + BinsBytes(bs[1..])
  }

  function EncodeBins(bs: seq<Bin>): seq<byte>
    requires ValidBins(bs)
  {
    [FORMAT_VERSION] + (Bytes(|bs|) + BinsBytes(bs))
  }

  /** One bin, checked against the previous key and the running total. */
  function ReadBin(b: seq<byte>, at: nat, previous: Option<int>, total: int): (r: BinRead)
    ensures r.BinAt? ==> at < r.next <= |b| && ValidBin(r.bin) && total + r.bin.count <= MAX_UINT64
    ensures r.BinAt? && previous.Some? ==> previous.value < r.bin.key
  {
    var k := ReadField(b, at);
    if k.BadField? then BadBin(BadVarint(k.error)) else
    ZigzagBijection(0, k.value);
    var key := ZigzagDecode(k.value);
    if previous.Some? && key <= previous.value then BadBin(KeysNotIncreasing) else
    var c := ReadField(b, k.next);
    if c.BadField? then BadBin(BadVarint(c.error))
    else if c.value == 0 || total > MAX_UINT64 - c.value then BadBin(BadCount)
    else BinAt(Bin(key, c.value), c.next)
  }

  function ReadBins(b: seq<byte>, at: nat, n: nat, previous: Option<int>, total: int): BinsRead
    decreases n
  {
    if n == 0 then Bins([], total, at)
    else
      var r := ReadBin(b, at, previous, total);
      if r.BadBin? then BadBins(r.error)
      else Behind([r.bin], ReadBins(b, r.next, n - 1, Some(r.bin.key), total + r.bin.count))
  }

  function Behind(visited: seq<Bin>, r: BinsRead): BinsRead {
    if r.Bins? then Bins(visited + r.bins, r.total, r.next) else r
  }

  /** The bins walkSketch visits and the total it returns, when it accepts the bytes. */
  function DecodeBins(b: seq<byte>): Result<(seq<Bin>, int), SketchError> {
    if b == [] then Err(NoData)
    else if b[0] != FORMAT_VERSION then Err(WrongVersion)
    else
      var n := ReadField(b, 1);
      if n.BadField? then Err(BadVarint(n.error))
      else
        var r := ReadBins(b, n.next, n.value, None, 0);
        if r.BadBins? then Err(r.error)
        else if r.next != |b| then Err(Trailing)
        else Ok((r.bins, r.total))
  }

  /** walkSketch's loop over an offset, with the running total and previous key. */
  method WalkBins(b: seq<byte>, start: nat, n: nat) returns (r: BinsRead)
    ensures r == ReadBins(b, start, n, None, 0)
  {
    var offset, total := start, 0;
    var visited: seq<Bin> := [];
    var previous: Option<int> := None;
    for index := 0 to n
      invariant ReadBins(b, start, n, None, 0) == Behind(visited, ReadBins(b, offset, n - index, previous, total))
    {
      var read := ReadBin(b, offset, previous, total);
      if read.BadBin? { return BadBins(read.error); }
      BehindTwice(visited, [read.bin],
          ReadBins(b, read.next, n - index - 1, Some(read.bin.key), total + read.bin.count));
      visited := visited + [read.bin];
      total, previous, offset := total + read.bin.count, Some(read.bin.key), read.next;
    }
    return Bins(visited, total, offset);
  }

  method WalkSketch(b: seq<byte>) returns (r: Result<(seq<Bin>, int), SketchError>)
    ensures r == DecodeBins(b)
  {
    if |b| == 0 { return Err(NoData); }
    if b[0] != FORMAT_VERSION { return Err(WrongVersion); }
    var n := ReadField(b, 1);
    if n.BadField? { return Err(BadVarint(n.error)); }
    var all := WalkBins(b, n.next, n.value);
    if all.BadBins? { return Err(all.error); }
    if all.next != |b| { return Err(Trailing); }
    return Ok((all.bins, all.total));
  }

  lemma BehindTwice(p: seq<Bin>, q: seq<Bin>, r: BinsRead)
    ensures Behind(p, Behind(q, r)) == Behind(p + q, r)
  {
    assert r.Bins? ==> p + (q + r.bins) == (p + q) + r.bins;
  }

  // ----- round trip and strictness -----

  lemma BinRoundTrip(pre: seq<byte>, bin: Bin, rest: seq<byte>, previous: Option<int>, total: int)
    requires ValidBin(bin) && 0 <= total && total + bin.count <= MAX_UINT64
            && (previous.Some? ==> previous.value < bin.key)
    ensures ReadBin(pre + (BinBytes(bin) + rest), |pre|, previous, total) == BinAt(bin, |pre + BinBytes(bin)|)
  {
    var k, c := Bytes(ZigzagEncode(bin.key)), Bytes(bin.count);
    ZigzagBijection(bin.key, 0);
    FieldRoundTrip(pre, ZigzagEncode(bin.key), c + rest);
    FieldRoundTrip(pre + k, bin.count, rest);
    ConcatAssoc(pre, k, c + rest);
    ConcatAssoc(k, c, rest);
    ConcatAssoc(pre, k, c);
  }

  lemma ReadBinStep(b: seq<byte>, at: nat, n: nat, previous: Option<int>, total: int, bin: Bin, next: nat)
    requires n > 0 && ReadBin(b, at, previous, total) == BinAt(bin, next)
    ensures ReadBins(b, at, n, previous, total)
            == Behind([bin], ReadBins(b, next, n - 1, Some(bin.key), total + bin.count))
  {
  }

  /** Reading bin after bin from `at` gives exactly bs and stops at `end`. */
  ghost predicate Reads(b: seq<byte>, at: nat, previous: Option<int>, total: int, bs: seq<Bin>, end: nat)
    decreases |bs|
  {
    if bs == [] then end == at
    else
      var r := ReadBin(b, at, previous, total);
      r.BinAt? && r.bin == bs[0] && Reads(b, r.next, Some(r.bin.key), total + r.bin.count, bs[1..], end)
  }

  lemma {:induction false} ReadsGivesBins(b: seq<byte>, at: nat, previous: Option<int>, total: int, bs: seq<Bin>,
                                          end: nat)
    requires Reads(b, at, previous, total, bs, end)
    ensures ReadBins(b, at, |bs|, previous, total) == Bins(bs, total + Total(bs), end)
    decreases |bs|
  {
    if bs != [] {
      var r := ReadBin(b, at, previous, total);
      ReadsGivesBins(b, r.next, Some(r.bin.key), total + r.bin.count, bs[1..], end);
      ReadBinStep(b, at, |bs|, previous, total, r.bin, r.next);
      assert [r.bin] + bs[1..] == bs;
    }
  }

  lemma {:induction false} BinsRoundTrip(pre: seq<byte>, bs: seq<Bin>, previous: Option<int>, total: int)
    requires ValidBins(bs) && 0 <= total && total + Total(bs) <= MAX_UINT64
    requires previous.Some? && bs != [] ==> previous.value < bs[0].key
    ensures Reads(pre + BinsBytes(bs), |pre|, previous, total, bs, |pre + BinsBytes(bs)|)
    decreases |bs|
  {
    if bs != [] {
      var bin, tail := bs[0], bs[1..];
      TotalNonNegative(tail);
      BinRoundTrip(pre, bin, BinsBytes(tail), previous, total);
      BinsRoundTrip(pre + BinBytes(bin), tail, Some(bin.key), total + bin.count);
      ConcatAssoc(pre, BinBytes(bin), BinsBytes(tail));
    }
  }

  lemma {:induction false} TotalNonNegative(bs: seq<Bin>)
    requires forall i :: 0 <= i < |bs| ==> ValidBin(bs[i])
    ensures Total(bs) >= |bs|
  {
    if bs != [] { TotalNonNegative(bs[1..]); }
  }

  /** Decoding an encoded sketch returns its bins and their sum. */
  lemma DecodeEncodeBins(bs: seq<Bin>)
    requires ValidBins(bs) && Total(bs) <= MAX_UINT64
    ensures DecodeBins(EncodeBins(bs)) == Ok((bs, Total(bs)))
  {
    TotalNonNegative(bs);
    var v := [FORMAT_VERSION];
    var b := EncodeBins(bs);
    FieldRoundTrip(v, |bs|, BinsBytes(bs));
    ConcatAssoc(v, Bytes(|bs|), BinsBytes(bs));
    BinsRoundTrip(v + Bytes(|bs|), bs, None, 0);
    DecodeReads(b, |v + Bytes(|bs|)|, bs);
  }

  lemma DecodeReads(b: seq<byte>, at: nat, bs: seq<Bin>)
    requires b != [] && b[0] == FORMAT_VERSION && ReadField(b, 1) == Field(|bs|, at)
    requires Reads(b, at, None, 0, bs, |b|)
    ensures DecodeBins(b) == Ok((bs, Total(bs)))
  {
    ReadsGivesBins(b, at, None, 0, bs, |b|);
  }

  lemma ConsBin(previous: Option<int>, bin: Bin, bs: seq<Bin>)
    requires ValidBin(bin) && ValidBins(bs) && (forall i :: 0 <= i < |bs| ==> bin.key < bs[i].key)
    requires previous.Some? ==> previous.value < bin.key
    ensures ValidBins([bin] + bs) && Total([bin] + bs) == bin.count + Total(bs)
    ensures previous.Some? ==> forall i :: 0 <= i < |[bin] + bs| ==> previous.value < ([bin] + bs)[i].key
  {
    assert ([bin] + bs)[1..] == bs;
  }

  lemma {:induction false} ReadBinsStrict(b: seq<byte>, at: nat, n: nat, previous: Option<int>, total: int)
    requires total <= MAX_UINT64 && ReadBins(b, at, n, previous, total).Bins?
    ensures var r := ReadBins(b, at, n, previous, total);
            && |r.bins| == n && ValidBins(r.bins) && r.total == total + Total(r.bins) <= MAX_UINT64
            && (previous.Some? ==> forall i :: 0 <= i < n ==> previous.value < r.bins[i].key)
    decreases n
  {
    if n > 0 {
      var r := ReadBin(b, at, previous, total);
      ReadBinStep(b, at, n, previous, total, r.bin, r.next);
      ReadBinsStrict(b, r.next, n - 1, Some(r.bin.key), total + r.bin.count);
      ConsBin(previous, r.bin, ReadBins(b, r.next, n - 1, Some(r.bin.key), total + r.bin.count).bins);
    }
  }

  /**
    An accepted sketch has as many bins as declared, ascending distinct keys, positive counts, and a
    total that is their sum.
   */
  lemma DecodedSketchIsStrict(b: seq<byte>)
    requires DecodeBins(b).Ok?
    ensures var (bs, total) := DecodeBins(b).value;
            ValidBins(bs) && ReadField(b, 1).Field? && |bs| == ReadField(b, 1).value && total == Total(bs) <= MAX_UINT64
  {
    var n := ReadField(b, 1);
    ReadBinsStrict(b, n.next, n.value, None, 0);
  }

  /** What an accepted sketch holds, in plain numbers. */
  lemma AcceptedSketch(b: seq<byte>)
    requires DecodeBins(b).Ok?
    ensures b != [] && b[0] == 1
    ensures var (bs, total) := DecodeBins(b).value;
            && total == Total(bs) < 0x1_0000_0000_0000_0000
            && (forall i | 0 <= i < |bs| ::
                 -0x8000_0000_0000_0000 <= bs[i].key < 0x8000_0000_0000_0000 && 0 < bs[i].count <= total)
            && (forall i, j | 0 <= i < j < |bs| :: bs[i].key < bs[j].key)
  {
    DecodedSketchIsStrict(b);
    var (bs, total) := DecodeBins(b).value;
    forall i | 0 <= i < |bs| ensures bs[i].count <= total { CountWithin(bs, i); }
  }

  lemma {:induction false} CountWithin(bs: seq<Bin>, i: nat)
    requires ValidBins(bs) && i < |bs|
    ensures bs[i].count <= Total(bs)
  {
    TotalNonNegative(bs[1..]);
    if i > 0 { CountWithin(bs[1..], i - 1); }
  }

  /** The layout of a sketch, field by field. */
  lemma SketchLayout(bin: Bin)
    requires ValidBin(bin)
    ensures EncodeBins([bin]) == [1, 1] + Bytes(ZigzagEncode(bin.key)) + Bytes(bin.count)
    ensures EncodeBins([Bin(-2, 300)]) == [1, 1, 3, 172, 2]
  {
    var k, c := Bytes(ZigzagEncode(bin.key)), Bytes(bin.count);
    assert BinsBytes([bin]) == BinBytes(bin) + BinsBytes([bin][1..]);
    assert [1, 1] + k + c == [1] + ([1] + (k + c));
    var example := Bin(-2, 300);
    BytesGroups(300);
    assert BinBytes(example) == [3] + [172, 2];
    assert BinsBytes([example]) == BinBytes(example) + BinsBytes([example][1..]);
  }
}
