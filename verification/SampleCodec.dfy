/**
  The binary form of a sample set: version, point count, then per point event ID, priority, TTFT and
  latency as varints, points strictly ascending in sampling order.
 */
module SampleCodec {
  import opened Wrappers
  import opened Uvarint
  import opened SampleOrder

  const FORMAT_VERSION: byte := 1

  datatype DecodeError =
    | EmptyData | UnsupportedVersion | TruncatedField | FieldOverflow | TooManyPoints
    | NotPositiveInt64 | PriorityMismatch | NotStrictlyOrdered | TrailingBytes

  function Elems(ps: seq<SamplePoint>): set<SamplePoint> { set p | p in ps }

  ghost predicate StrictlySorted(ps: seq<SamplePoint>) {
    forall i, j :: 0 <= i < j < |ps| ==> Less(ps[i], ps[j])
  }

  ghost predicate AllValid(h: Hash, ps: seq<SamplePoint>) {
    forall i :: 0 <= i < |ps| ==> ValidPoint(h, ps[i])
  }

  // ----- encoding -----

  function PointBytes(h: Hash, p: SamplePoint): seq<byte>
    requires ValidPoint(h, p)
  {
    Bytes(p.eventID) + (Bytes(p.priority) + (Bytes(p.ttftMS) + Bytes(p.latencyMS)))
  }

  function PointsBytes(h: Hash, ps: seq<SamplePoint>): seq<byte>
    requires AllValid(h, ps)
  {
    if ps == [] then [] else PointBytes(h, ps[0]) + PointsBytes(h, ps[1..])
  }

  function Encode(h: Hash, ps: seq<SamplePoint>): seq<byte>
    requires AllValid(h, ps)
  {
    [FORMAT_VERSION] + (Bytes(|ps|) + PointsBytes(h, ps))
  }

  lemma {:induction false} PointsBytesSnoc(h: Hash, ps: seq<SamplePoint>, p: SamplePoint)
    requires AllValid(h, ps) && ValidPoint(h, p)
    ensures AllValid(h, ps + [p])
    ensures PointsBytes(h, ps + [p]) == PointsBytes(h, ps) + PointBytes(h, p)
  {
    if ps == [] {
      assert ps + [p] == [p];
    } else {
      PointsBytesSnoc(h, ps[1..], p);
      assert (ps + [p])[1..] == ps[1..] + [p];
    }
  }

  lemma Regroup(b: seq<byte>, e: seq<byte>, p: seq<byte>, t: seq<byte>, l: seq<byte>)
    ensures b + e + p + t + l == b + (e + (p + (t + l)))
  {
  }

  method AppendPoint(h: Hash, b: seq<byte>, p: SamplePoint) returns (r: seq<byte>)
    requires ValidPoint(h, p)
    ensures r == b + PointBytes(h, p)
  {
    r := AppendUvarint(b, p.eventID);
    r := AppendUvarint(r, p.priority);
    r := AppendUvarint(r, p.ttftMS);
    r := AppendUvarint(r, p.latencyMS);
    Regroup(b, Bytes(p.eventID), Bytes(p.priority), Bytes(p.ttftMS), Bytes(p.latencyMS));
  }

  /** The append loop of MarshalBinary over points already in sampling order. */
  method EncodePoints(h: Hash, ps: seq<SamplePoint>) returns (b: seq<byte>)
    requires AllValid(h, ps) && |ps| <= MAX_UINT64
    ensures b == Encode(h, ps)
  {
    b := AppendUvarint([FORMAT_VERSION], |ps|);
    ghost var head := b;
    assert ps[..0] == [];
    for i := 0 to |ps|
      invariant b == head + PointsBytes(h, ps[..i])
    {
      var p := ps[i];
      PointsBytesSnoc(h, ps[..i], p);
      assert ps[..i + 1] == ps[..i] + [p];
      b := AppendPoint(h, b, p);
      ConcatAssoc(head, PointsBytes(h, ps[..i]), PointBytes(h, p));
    }
    assert ps[..|ps|] == ps;
    ConcatAssoc([FORMAT_VERSION], Bytes(|ps|), PointsBytes(h, ps));
  }

  // ----- decoding -----

  datatype FieldRead = Field(value: nat, next: nat) | BadField(error: DecodeError)
  datatype PointRead = Point(point: SamplePoint, next: nat) | BadPoint(error: DecodeError)
  datatype PointsRead = Points(points: seq<SamplePoint>, next: nat) | BadPoints(error: DecodeError)

  /** readUvarint: a field and the offset after it. */
  function ReadField(b: seq<byte>, at: nat): (r: FieldRead)
    ensures r.Field? ==> at < r.next <= |b| && IsUint64(r.value)
  {
    ReadBounds(b, at, at);
    TopBound();
    match ReadFrom(b, at, at)
    case Value(v, n) => Field(v, at + n)
    case Truncated => BadField(TruncatedField)
    case Overflow => BadField(FieldOverflow)
  }

  function ReadPositive(b: seq<byte>, at: nat): (r: FieldRead)
    ensures r.Field? ==> at < r.next <= |b| && 0 < r.value <= MAX_INT64
  {
    var r := ReadField(b, at);
    if r.Field? && (r.value == 0 || r.value > MAX_INT64) then BadField(NotPositiveInt64) else r
  }

  function ReadPoint(h: Hash, b: seq<byte>, at: nat): (r: PointRead)
    ensures r.Point? ==> at < r.next <= |b| && ValidPoint(h, r.point)
  {
    var e := ReadPositive(b, at);
    if e.BadField? then BadPoint(e.error) else
    var p := ReadField(b, e.next);
    if p.BadField? then BadPoint(p.error) else
    var t := ReadPositive(b, p.next);
    if t.BadField? then BadPoint(t.error) else
    var l := ReadPositive(b, t.next);
    if l.BadField? then BadPoint(l.error)
    else if p.value != Priority(h, e.value) then BadPoint(PriorityMismatch)
    else Point(SamplePoint(e.value, p.value, t.value, l.value), l.next)
  }

  /** n further points from offset `at`, each strictly above its predecessor. */
  function ReadPoints(h: Hash, b: seq<byte>, at: nat, n: nat, previous: Option<SamplePoint>): PointsRead
    decreases n
  {
    if n == 0 then Points([], at)
    else
      var r := ReadPoint(h, b, at);
      if r.BadPoint? then BadPoints(r.error)
      else if previous.Some? && !Less(previous.value, r.point) then BadPoints(NotStrictlyOrdered)
      else Prefixed([r.point], ReadPoints(h, b, r.next, n - 1, Some(r.point)))
  }

  function Prefixed(visited: seq<SamplePoint>, r: PointsRead): PointsRead {
    if r.Points? then Points(visited + r.points, r.next) else r
  }

  /** The points walkSampleSet visits, when it accepts the bytes. */
  function Decode(h: Hash, b: seq<byte>): Result<seq<SamplePoint>, DecodeError> {
    if b == [] then Err(EmptyData)
    else if b[0] != FORMAT_VERSION then Err(UnsupportedVersion)
    else
      var n := ReadField(b, 1);
      if n.BadField? then Err(n.error)
      else if n.value > MAX_ENCODED_SAMPLE_POINTS then Err(TooManyPoints)
      else
        var r := ReadPoints(h, b, n.next, n.value, None);
        if r.BadPoints? then Err(r.error)
        else if r.next != |b| then Err(TrailingBytes)
        else Ok(r.points)
  }

  /** walkSampleSet's loop over an offset; the visited points are collected in order. */
  method WalkSampleSet(h: Hash, b: seq<byte>) returns (r: Result<seq<SamplePoint>, DecodeError>)
    ensures r == Decode(h, b)
  {
    if |b| == 0 { return Err(EmptyData); }
    if b[0] != FORMAT_VERSION { return Err(UnsupportedVersion); }
    var count := ReadField(b, 1);
    if count.BadField? { return Err(count.error); }
    if count.value > MAX_ENCODED_SAMPLE_POINTS { return Err(TooManyPoints); }
    var all := WalkPoints(h, b, count.next, count.value);
    if all.BadPoints? { return Err(all.error); }
    if all.next != |b| { return Err(TrailingBytes); }
    return Ok(all.points);
  }

  method WalkPoints(h: Hash, b: seq<byte>, start: nat, n: nat) returns (r: PointsRead)
    ensures r == ReadPoints(h, b, start, n, None)
  {
    var offset := start;
    var visited: seq<SamplePoint> := [];
    var previous := None;
    for index := 0 to n
      invariant ReadPoints(h, b, start, n, None) == Prefixed(visited, ReadPoints(h, b, offset, n - index, previous))
    {
      var read := ReadPoint(h, b, offset);
      if read.BadPoint? { return BadPoints(read.error); }
      if previous.Some? && !Less(previous.value, read.point) { return BadPoints(NotStrictlyOrdered); }
      PrefixedTwice(visited, [read.point], ReadPoints(h, b, read.next, n - index - 1, Some(read.point)));
      visited := visited + [read.point];
      previous, offset := Some(read.point), read.next;
    }
    return Points(visited, offset);
  }

  lemma PrefixedTwice(p: seq<SamplePoint>, q: seq<SamplePoint>, r: PointsRead)
    ensures Prefixed(p, Prefixed(q, r)) == Prefixed(p + q, r)
  {
    assert r.Points? ==> p + (q + r.points) == (p + q) + r.points;
  }

  // ----- round trip and strictness -----

  lemma FieldRoundTrip(pre: seq<byte>, x: nat, rest: seq<byte>)
    requires IsUint64(x)
    ensures ReadField(pre + (Bytes(x) + rest), |pre|) == Field(x, |pre + Bytes(x)|)
  {
    RoundTrip(pre, x, rest);
    assert pre + Bytes(x) + rest == pre + (Bytes(x) + rest);
  }

  lemma PointRoundTrip(h: Hash, pre: seq<byte>, p: SamplePoint, rest: seq<byte>)
    requires ValidPoint(h, p)
    ensures ReadPoint(h, pre + (PointBytes(h, p) + rest), |pre|) == Point(p, |pre + PointBytes(h, p)|)
  {
    var e, r, t, l := Bytes(p.eventID), Bytes(p.priority), Bytes(p.ttftMS), Bytes(p.latencyMS);
    var b := pre + (PointBytes(h, p) + rest);
    assert b == pre + (e + (r + (t + (l + rest))));
    assert b == (pre + e) + (r + (t + (l + rest)));
    assert b == (pre + e + r) + (t + (l + rest));
    assert b == (pre + e + r + t) + (l + rest);
    FieldRoundTrip(pre, p.eventID, r + (t + (l + rest)));
    FieldRoundTrip(pre + e, p.priority, t + (l + rest));
    FieldRoundTrip(pre + e + r, p.ttftMS, l + rest);
    FieldRoundTrip(pre + e + r + t, p.latencyMS, rest);
  }

  /** One turn of the reading loop. */
  lemma ReadStep(h: Hash, b: seq<byte>, at: nat, n: nat, previous: Option<SamplePoint>, p: SamplePoint, next: nat)
    requires n > 0 && ReadPoint(h, b, at) == Point(p, next) && (previous.Some? ==> Less(previous.value, p))
    ensures ReadPoints(h, b, at, n, previous) == Prefixed([p], ReadPoints(h, b, next, n - 1, Some(p)))
  {
  }

  lemma {:induction false} PointsRoundTrip(h: Hash, pre: seq<byte>, ps: seq<SamplePoint>, rest: seq<byte>,
                                           previous: Option<SamplePoint>)
    requires AllValid(h, ps) && StrictlySorted(ps)
    requires previous.Some? && ps != [] ==> Less(previous.value, ps[0])
    ensures ReadPoints(h, pre + (PointsBytes(h, ps) + rest), |pre|, |ps|, previous)
         == Points(ps, |pre + PointsBytes(h, ps)|)
    decreases |ps|
  {
    if ps != [] {
      var p, tail := ps[0], ps[1..];
      var pb, tb := PointBytes(h, p), PointsBytes(h, tail);
      ConcatAssoc(pb, tb, rest);
      PointRoundTrip(h, pre, p, tb + rest);
      ConcatAssoc(pre, pb, tb + rest);
      PointsRoundTrip(h, pre + pb, tail, rest, Some(p));
      ReadStep(h, pre + (pb + (tb + rest)), |pre|, |ps|, previous, p, |pre + pb|);
      ConcatAssoc(pre, pb, tb);
      assert [p] + tail == ps;
    }
  }

  /** A row is read up to its last point, whatever follows it. */
  lemma RowRead(h: Hash, ps: seq<SamplePoint>, rest: seq<byte>)
    requires AllValid(h, ps) && StrictlySorted(ps) && |ps| <= MAX_ENCODED_SAMPLE_POINTS
    ensures Decode(h, Encode(h, ps) + rest) == if rest == [] then Ok(ps) else Err(TrailingBytes)
  {
    var v, count, body := [FORMAT_VERSION], Bytes(|ps|), PointsBytes(h, ps);
    Join(v, count, body, rest);
    FieldRoundTrip(v, |ps|, body + rest);
    PointsRoundTrip(h, v + count, ps, rest, None);
    var b := Encode(h, ps) + rest;
    assert b[0] == FORMAT_VERSION;
    ReadRow(h, b, |ps|, |v + count|, ps, |v + count + body|);
  }

  lemma Join(v: seq<byte>, count: seq<byte>, body: seq<byte>, rest: seq<byte>)
    ensures v + (count + body) + rest == v + (count + (body + rest)) == v + count + (body + rest)
    ensures |v + (count + body)| == |v + count + body|
  {
  }

  /** A version, a count and so many points read up to `end`. */
  lemma ReadRow(h: Hash, b: seq<byte>, n: nat, start: nat, ps: seq<SamplePoint>, end: nat)
    requires b != [] && b[0] == FORMAT_VERSION && n <= MAX_ENCODED_SAMPLE_POINTS
    requires ReadField(b, 1) == Field(n, start) && ReadPoints(h, b, start, n, None) == Points(ps, end)
    ensures Decode(h, b) == if end == |b| then Ok(ps) else Err(TrailingBytes)
  {
  }

  /** Decoding what was encoded returns exactly the points that were encoded. */
  lemma DecodeEncode(h: Hash, ps: seq<SamplePoint>)
    requires AllValid(h, ps) && StrictlySorted(ps) && |ps| <= MAX_ENCODED_SAMPLE_POINTS
    ensures Decode(h, Encode(h, ps)) == Ok(ps)
  {
    RowRead(h, ps, []);
    assert Encode(h, ps) + [] == Encode(h, ps);
  }

  ghost predicate Above(previous: Option<SamplePoint>, ps: seq<SamplePoint>) {
    previous.Some? ==> forall i :: 0 <= i < |ps| ==> Less(previous.value, ps[i])
  }

  lemma ConsSorted(h: Hash, previous: Option<SamplePoint>, p: SamplePoint, ps: seq<SamplePoint>)
    requires ValidPoint(h, p) && AllValid(h, ps) && StrictlySorted(ps) && Above(Some(p), ps) && Above(previous, [p])
    ensures AllValid(h, [p] + ps) && StrictlySorted([p] + ps) && Above(previous, [p] + ps)
  {
    assert previous.Some? ==> Less(previous.value, [p][0]);
  }

  lemma {:induction false} ReadPointsStrict(h: Hash, b: seq<byte>, at: nat, n: nat, previous: Option<SamplePoint>)
    requires ReadPoints(h, b, at, n, previous).Points?
    ensures var ps := ReadPoints(h, b, at, n, previous).points;
            |ps| == n && AllValid(h, ps) && StrictlySorted(ps) && Above(previous, ps)
    decreases n
  {
    if n > 0 {
      var r := ReadPoint(h, b, at);
      ReadStep(h, b, at, n, previous, r.point, r.next);
      ReadPointsStrict(h, b, r.next, n - 1, Some(r.point));
      ConsSorted(h, previous, r.point, ReadPoints(h, b, r.next, n - 1, Some(r.point)).points);
    }
  }

  /** Strictly ascending points of one hash are all distinct events. */
  lemma StrictMeansDistinct(h: Hash, ps: seq<SamplePoint>)
    requires AllValid(h, ps) && StrictlySorted(ps)
    ensures forall i, j :: 0 <= i < j < |ps| ==> ps[i].eventID != ps[j].eventID
    ensures Consistent(h, Elems(ps)) && multiset(ps) == multiset(Elems(ps)) && |Elems(ps)| == |ps|
  {
    forall i, j | 0 <= i < j < |ps| ensures ps[i].eventID != ps[j].eventID {
      assert Less(ps[i], ps[j]);
    }
    DistinctCounts(ps);
  }

  lemma {:induction false} DistinctCounts(ps: seq<SamplePoint>)
    requires forall i, j :: 0 <= i < j < |ps| ==> ps[i] != ps[j]
    ensures multiset(ps) == multiset(Elems(ps)) && |Elems(ps)| == |ps|
  {
    if ps != [] {
      var n := |ps| - 1;
      DistinctCounts(ps[..n]);
      assert ps == ps[..n] + [ps[n]];
      assert Elems(ps) == Elems(ps[..n]) + {ps[n]};
    }
  }

  /** An accepted row holds valid, strictly ascending points, so no two share an event ID. */
  lemma DecodedRowIsStrict(h: Hash, b: seq<byte>)
    requires Decode(h, b).Ok?
    ensures var ps := Decode(h, b).value;
            && AllValid(h, ps) && StrictlySorted(ps) && |ps| <= MAX_ENCODED_SAMPLE_POINTS
            && ReadField(b, 1).value == |ps| == |Elems(ps)| && Consistent(h, Elems(ps))
  {
    var n := ReadField(b, 1);
    ReadPointsStrict(h, b, n.next, n.value, None);
    StrictMeansDistinct(h, Decode(h, b).value);
  }

  /** A set of points has only one ascending listing. */
  lemma {:induction false} ListingUnique(ps: seq<SamplePoint>, qs: seq<SamplePoint>)
    requires StrictlySorted(ps) && StrictlySorted(qs) && Elems(ps) == Elems(qs)
    ensures ps == qs
    decreases |ps|
  {
    assert ps != [] ==> ps[0] in Elems(ps);
    assert qs != [] ==> qs[0] in Elems(qs);
    if ps != [] && qs != [] {
      var m, n := |ps| - 1, |qs| - 1;
      assert ps[m] in Elems(qs) && qs[n] in Elems(ps);
      assert ps[m] == qs[n];
      assert Elems(ps[..m]) == Elems(ps) - {ps[m]};
      assert Elems(qs[..n]) == Elems(qs) - {qs[n]};
      ListingUnique(ps[..m], qs[..n]);
    }
  }

  /** The row's meaning in plain numbers, for every accepted row. */
  lemma AcceptedRowAscends(h: Hash, b: seq<byte>)
    requires Decode(h, b).Ok?
    ensures b != [] && b[0] == 1 && |Decode(h, b).value| <= 2500
    ensures var ps := Decode(h, b).value;
            && (forall i | 0 <= i < |ps| ::
                 && 0 < ps[i].eventID < 0x8000_0000_0000_0000 && 0 < ps[i].ttftMS < 0x8000_0000_0000_0000
                 && 0 < ps[i].latencyMS < 0x8000_0000_0000_0000 && ps[i].priority == Priority(h, ps[i].eventID))
            && (forall i, j | 0 <= i < j < |ps| ::
                 Ascends(ps[i].priority, ps[i].eventID, ps[j].priority, ps[j].eventID))
  {
    DecodedRowIsStrict(h, b);
    var ps := Decode(h, b).value;
    forall i, j | 0 <= i < j < |ps|
      ensures Ascends(ps[i].priority, ps[i].eventID, ps[j].priority, ps[j].eventID)
    {
      assert Less(ps[i], ps[j]);
    }
  }

  /** First the priority counts, then the event ID. */
  predicate Ascends(priority: int, eventID: int, nextPriority: int, nextEventID: int) {
    priority < nextPriority || (priority == nextPriority && eventID < nextEventID)
  }

  /** Conversely, every row of at most 2500 positive int64 points that ascends is accepted. */
  lemma AscendingRowAccepted(h: Hash, ps: seq<SamplePoint>)
    requires |ps| <= 2500
    requires forall i | 0 <= i < |ps| ::
               && 0 < ps[i].eventID < 0x8000_0000_0000_0000 && 0 < ps[i].ttftMS < 0x8000_0000_0000_0000
               && 0 < ps[i].latencyMS < 0x8000_0000_0000_0000 && ps[i].priority == Priority(h, ps[i].eventID)
    requires forall i, j | 0 <= i < j < |ps| :: Ascends(ps[i].priority, ps[i].eventID, ps[j].priority, ps[j].eventID)
    ensures AllValid(h, ps) && Decode(h, Encode(h, ps)) == Ok(ps)
  {
    assert StrictlySorted(ps);
    DecodeEncode(h, ps);
  }

  /** The layout of a row, field by field. */
  lemma RowLayout(h: Hash, p: SamplePoint)
    requires ValidPoint(h, p)
    ensures Encode(h, [p]) == [1, 1] + Bytes(p.eventID) + Bytes(p.priority) + Bytes(p.ttftMS) + Bytes(p.latencyMS)
    ensures Encode(map[], [SamplePoint(5, 0, 300, 7)]) == [1, 1, 5, 0, 172, 2, 7]
  {
    var e, r, t, l := Bytes(p.eventID), Bytes(p.priority), Bytes(p.ttftMS), Bytes(p.latencyMS);
    assert PointsBytes(h, [p]) == PointBytes(h, p) + PointsBytes(h, [p][1..]);
    assert [1, 1] + e + r + t + l == [1] + ([1] + (e + (r + (t + l))));
    var example := SamplePoint(5, 0, 300, 7);
    BytesGroups(300);
    assert Priority(map[], 5) == 0;
    assert PointsBytes(map[], [example]) == PointBytes(map[], example) + PointsBytes(map[], [example][1..]);
    assert PointBytes(map[], example) == [5] + ([0] + ([172, 2] + [7]));
  }

  /** Nothing may follow the last point of an accepted row. */
  lemma NothingTrails(h: Hash, ps: seq<SamplePoint>, more: seq<byte>)
    requires AllValid(h, ps) && StrictlySorted(ps) && |ps| <= 2500 && more != []
    ensures Decode(h, Encode(h, ps) + more) == Err(TrailingBytes)
  {
    RowRead(h, ps, more);
  }

  /** The refusals before the first point. */
  lemma RowRefusals(h: Hash, b: seq<byte>)
    ensures b == [] <==> Decode(h, b) == Err(EmptyData)
    ensures b != [] && b[0] != 1 <==> Decode(h, b) == Err(UnsupportedVersion)
    ensures b != [] && b[0] == 1 && ReadField(b, 1).Field? && ReadField(b, 1).value > 2500 ==>
              Decode(h, b) == Err(TooManyPoints)
  {
    if b != [] && b[0] == 1 && ReadField(b, 1).Field? && ReadField(b, 1).value <= 2500 {
      PointRefusals(h, b, ReadField(b, 1).next, ReadField(b, 1).value, None);
    }
  }

  /** Reading points never blames the version, the size or the end of the row. */
  lemma {:induction false} PointRefusals(h: Hash, b: seq<byte>, at: nat, n: nat, previous: Option<SamplePoint>)
    ensures var r := ReadPoints(h, b, at, n, previous);
            r.BadPoints? ==> OfPoint(r.error)
    decreases n
  {
    if n > 0 {
      OnePointRefusals(h, b, at);
      var r := ReadPoint(h, b, at);
      if r.Point? { PointRefusals(h, b, r.next, n - 1, Some(r.point)); }
    }
  }

  predicate OfPoint(e: DecodeError) {
    e != EmptyData && e != UnsupportedVersion && e != TooManyPoints && e != TrailingBytes
  }

  lemma OnePointRefusals(h: Hash, b: seq<byte>, at: nat)
    ensures var r := ReadPoint(h, b, at); r.BadPoint? ==> OfPoint(r.error)
  {
  }
}
