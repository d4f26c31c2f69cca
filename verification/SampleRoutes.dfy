/**
  Reading and writing whole sample sets, and the main result about them: however events are added,
  encoded, decoded and merged, what remains is the bottom of all of them.
 */
module SampleRoutes {
  import opened Wrappers
  import opened Uvarint
  import opened SampleOrder
  import opened SampleCodec
  import opened SampleSets
  import opened SampleMerger

  // ----- Points, MarshalBinary, UnmarshalSampleSet -----

  /** ps lists the points of s in sampling order. */
  ghost predicate Lists(h: Hash, ps: seq<SamplePoint>, s: set<SamplePoint>) {
    AllValid(h, ps) && StrictlySorted(ps) && Elems(ps) == s
  }

  /** Insert p where it belongs in an ascending listing. */
  method InsertSorted(h: Hash, ps: seq<SamplePoint>, p: SamplePoint) returns (r: seq<SamplePoint>)
    requires AllValid(h, ps) && StrictlySorted(ps) && ValidPoint(h, p)
    requires forall i :: 0 <= i < |ps| ==> ps[i].eventID != p.eventID
    ensures Lists(h, r, Elems(ps) + {p})
  {
    var i := 0;
    while i < |ps| && Less(ps[i], p)
      invariant 0 <= i <= |ps|
      invariant forall j :: 0 <= j < i ==> Less(ps[j], p)
    {
      i := i + 1;
    }
    r := ps[..i] + [p] + ps[i..];
    assert forall j :: i <= j < |ps| ==> Less(p, ps[j]);
  }

  /** Points: a stable sorted copy. */
  method SortedPoints(samples: SampleSet) returns (ps: seq<SamplePoint>)
    requires samples.Valid()
    ensures Lists(samples.hash, ps, samples.contents) && |ps| == |samples.points|
  {
    ps := [];
    var rest := samples.points;
    ghost var left := samples.contents;
    while rest.Keys != {}
      invariant Holds(rest, left) && left <= samples.contents
      invariant Lists(samples.hash, ps, samples.contents - left)
      decreases left
    {
      ghost var _ := Inhabited(rest.Keys);
      var id :| id in rest.Keys;
      var p := rest[id];
      NotListed(samples.points, samples.contents, left, ps, p);
      ps := InsertSorted(samples.hash, ps, p);
      RemovePoint(rest, left, p);
      assert samples.contents - (left - {p}) == samples.contents - left + {p};
      rest, left := rest - {id}, left - {p};
    }
    assert left == {} by { HoldsSize(rest, left); }
    assert samples.contents - left == samples.contents;
    StrictMeansDistinct(samples.hash, ps);
    HoldsSize(samples.points, samples.contents);
  }

  lemma NotListed(m: PointMap, s: set<SamplePoint>, left: set<SamplePoint>, ps: seq<SamplePoint>, p: SamplePoint)
    requires Holds(m, s) && left <= s && Elems(ps) == s - left && p in left
    ensures forall i :: 0 <= i < |ps| ==> ps[i].eventID != p.eventID
  {
    forall i | 0 <= i < |ps| ensures ps[i].eventID != p.eventID {
      assert ps[i] in Elems(ps);
    }
  }

  /** MarshalBinary. */
  method MarshalBinary(samples: SampleSet) returns (r: Result<seq<byte>, int>)
    requires samples.Valid()
    ensures r.Ok? <==> |samples.points| <= MAX_SAMPLE_POINTS
    ensures r.Ok? ==>
              Decode(samples.hash, r.value).Ok? && Elems(Decode(samples.hash, r.value).value) == samples.contents
    ensures r.Ok? ==> exists ps :: Lists(samples.hash, ps, samples.contents) && r.value == Encode(samples.hash, ps)
  {
    var ps := SortedPoints(samples);
    if |ps| > MAX_SAMPLE_POINTS { return Err(|ps|); }
    var b := EncodePoints(samples.hash, ps);
    DecodeEncode(samples.hash, ps);
    return Ok(b);
  }

  /** UnmarshalSampleSet: the walk's points filed into a fresh set, untrimmed. */
  method UnmarshalSampleSet(h: Hash, encoded: seq<byte>) returns (samples: SampleSet?, error: Option<DecodeError>)
    ensures samples == null <==> Decode(h, encoded).Err?
    ensures samples == null ==> error == Some(Decode(h, encoded).error)
    ensures samples != null ==> fresh(samples) && samples.Valid() && samples.hash == h
    ensures samples != null ==> samples.contents == Elems(Decode(h, encoded).value)
    ensures samples != null ==> |samples.points| == |Decode(h, encoded).value|
  {
    var walked := WalkSampleSet(h, encoded);
    if walked.Err? { return null, Some(walked.error); }
    var ps := walked.value;
    DecodedRowIsStrict(h, encoded);
    var filed := new SampleSet(h);
    for i := 0 to |ps|
      invariant filed.Valid() && filed.hash == h && filed.contents == Elems(ps[..i])
    {
      NextCandidate(h, map[], {}, ps, i);
      assert {} + Elems(ps[..i]) == Elems(ps[..i]) && {} + Elems(ps[..i + 1]) == Elems(ps[..i + 1]);
      filed.Put(ps[i]);
    }
    assert ps[..|ps|] == ps;
    HoldsSize(filed.points, filed.contents);
    samples, error := filed, None;
  }

  /** Decode, then SampleSet.Merge: the slow path has exactly the fast path's outcome. */
  method DecodeAndMerge(into: SampleSet, encoded: seq<byte>) returns (r: Result<nat, MergeError>)
    requires into.Valid()
    modifies into
    ensures into.Valid()
    ensures MergesRow(into.hash, old(into.contents), encoded, r, into.contents)
  {
    var row, e := UnmarshalSampleSet(into.hash, encoded);
    if row == null { return Err(Malformed(e.value)); }
    var conflict, order := into.Merge(row);
    if conflict.Some? { return Err(Conflicting(conflict.value)); }
    return Ok(|row.points|);
  }

  /** Two outcomes of merging the same row into the same set agree on verdict and retained points. */
  lemma MergeOutcomeUnique(h: Hash, held: set<SamplePoint>, row: seq<byte>, r: Result<nat, MergeError>,
                           after: set<SamplePoint>,
                           r': Result<nat, MergeError>, after': set<SamplePoint>)
    requires MergesRow(h, held, row, r, after) && MergesRow(h, held, row, r', after')
    ensures r.Ok? <==> r'.Ok?
    ensures r.Ok? ==> r == r' && after == after'
    ensures r.Err? && r.error.Malformed? ==> r == r'
    ensures r.Err? && r.error.Conflicting? ==> r'.Err? && r'.error.Conflicting?
  {
    if r.Ok? {
      var ps := Decode(h, row).value;
      BottomUnique(held + Elems(ps), after, after', MAX_SAMPLE_POINTS);
    }
  }

  /**
    Both paths over the same rows from empty: the same verdict at the same row, and the same retained
    map while every row is accepted.
   */
  method MergeRowsBothWays(h: Hash, rows: seq<seq<byte>>)
    returns (fast: Result<PointMap, MergeError>, slow: Result<PointMap, MergeError>, fastRows: nat, slowRows: nat)
    ensures fastRows == slowRows && (fast.Ok? <==> slow.Ok?)
    ensures fast.Ok? ==> fast == slow && fastRows == |rows|
    ensures fast.Err? ==> (fast.error.Malformed? ==> fast == slow)
    ensures fast.Err? ==> (fast.error.Conflicting? <==> slow.error.Conflicting?)
  {
    var merger := new QuerySampleMerger(h);
    var plain := new SampleSet(h);
    for i := 0 to |rows|
      invariant merger.Valid() && merger.samples != null && merger.hash == h && plain.Valid() && plain.hash == h
      invariant fresh(merger) && fresh(merger.samples) && fresh(merger.heap) && fresh(plain) && merger.samples != plain
      invariant merger.samples.contents == plain.contents
    {
      ghost var held := plain.contents;
      var r := merger.MergeBinary(rows[i]);
      var r' := DecodeAndMerge(plain, rows[i]);
      MergeOutcomeUnique(h, held, rows[i], r, merger.samples.contents, r', plain.contents);
      if r.Err? { return Err(r.error), Err(r'.error), i, i; }
    }
    SameMap(merger.samples.points, plain.points, plain.contents);
    return Ok(merger.samples.points), Ok(plain.points), |rows|, |rows|;
  }

  lemma SameMap(m: PointMap, n: PointMap, s: set<SamplePoint>)
    requires Holds(m, s) && Holds(n, s)
    ensures m == n
  {
    forall id | id in m ensures id in n && n[id] == m[id] { assert m[id] in s; }
    forall id | id in n ensures id in m { assert n[id] in s; }
  }

  // ----- every route to a sample set -----

  /** How a sample set came about. */
  datatype Route =
    | Empty
    | Add(set0: Route, event: SamplePoint)       // SampleSet.Add
    | Merge(left: Route, right: Route)           // SampleSet.Merge
    | Recode(set1: Route)                        // MarshalBinary, then UnmarshalSampleSet
    | QueryMerge(merger: Route, row: Route)      // MarshalBinary, then QuerySampleMerger.MergeBinary

  ghost function Events(route: Route): set<SamplePoint> {
    match route
    case Empty => {}
    case Add(r, e) => Events(r) + {e}
    case Merge(l, r) => Events(l) + Events(r)
    case Recode(r) => Events(r)
    case QueryMerge(m, r) => Events(m) + Events(r)
  }

  /** The bytes MarshalBinary may write for a set. */
  ghost predicate Encodes(h: Hash, b: seq<byte>, s: set<SamplePoint>) {
    exists ps :: Lists(h, ps, s) && |ps| <= MAX_SAMPLE_POINTS && b == Encode(h, ps)
  }

  /** t is what the route leaves, by the contracts of the operations on it, all of which succeed. */
  ghost predicate Yields(h: Hash, route: Route, t: set<SamplePoint>) {
    match route
    case Empty => t == {}
    case Add(r, e) =>
      ValidPoint(h, e) && exists s :: Yields(h, r, s) && !Conflicts(s, {e}) && IsBottom(s + {e}, t, MAX_SAMPLE_POINTS)
    case Merge(l, r) =>
      exists a, b :: Yields(h, l, a) && Yields(h, r, b) && !Conflicts(a, b) && IsBottom(a + b, t, MAX_SAMPLE_POINTS)
    case Recode(r) =>
      exists s, b :: Yields(h, r, s) && Encodes(h, b, s) && Decode(h, b).Ok? && t == Elems(Decode(h, b).value)
    case QueryMerge(m, r) =>
      exists a, s, b, n :: Yields(h, m, a) && Yields(h, r, s) && Encodes(h, b, s) && MergesRow(h, a, b, Ok(n), t)
  }

  lemma EncodedDecodes(h: Hash, b: seq<byte>, s: set<SamplePoint>)
    requires Encodes(h, b, s)
    ensures Decode(h, b).Ok? && Elems(Decode(h, b).value) == s
  {
    var ps :| Lists(h, ps, s) && |ps| <= MAX_SAMPLE_POINTS && b == Encode(h, ps);
    DecodeEncode(h, ps);
  }

  lemma ConsistentParts(h: Hash, a: set<SamplePoint>, b: set<SamplePoint>)
    requires Consistent(h, a + b)
    ensures Consistent(h, a) && Consistent(h, b)
  {
    assert forall p :: p in a ==> p in a + b;
    assert forall p :: p in b ==> p in a + b;
  }

  /** A recoded set is the set itself. */
  lemma RecodeInverts(h: Hash, r: Route, t: set<SamplePoint>)
    requires Yields(h, Recode(r), t)
    ensures Yields(h, r, t)
  {
    var s, b :| Yields(h, r, s) && Encodes(h, b, s) && Decode(h, b).Ok? && t == Elems(Decode(h, b).value);
    EncodedDecodes(h, b, s);
  }

  /** The fast path's result is a result of the slow one. */
  lemma QueryMergeIsMerge(h: Hash, m: Route, r: Route, t: set<SamplePoint>)
    requires Yields(h, QueryMerge(m, r), t)
    ensures Yields(h, Merge(m, r), t)
  {
    var a, s, b, n :| Yields(h, m, a) && Yields(h, r, s) && Encodes(h, b, s) && MergesRow(h, a, b, Ok(n), t);
    EncodedDecodes(h, b, s);
  }

  lemma MergeParts(h: Hash, l: Route, r: Route, t: set<SamplePoint>) returns (a: set<SamplePoint>, b: set<SamplePoint>)
    requires Yields(h, Merge(l, r), t)
    ensures Yields(h, l, a) && Yields(h, r, b) && IsBottom(a + b, t, MAX_SAMPLE_POINTS)
  {
    a, b :| Yields(h, l, a) && Yields(h, r, b) && !Conflicts(a, b) && IsBottom(a + b, t, MAX_SAMPLE_POINTS);
  }

  lemma AddPart(h: Hash, r: Route, e: SamplePoint, t: set<SamplePoint>) returns (s: set<SamplePoint>)
    requires Yields(h, Add(r, e), t)
    ensures Yields(h, r, s) && IsBottom(s + {e}, t, MAX_SAMPLE_POINTS)
  {
    s :| Yields(h, r, s) && !Conflicts(s, {e}) && IsBottom(s + {e}, t, MAX_SAMPLE_POINTS);
  }

  /**
    Whatever the route, the set that remains is the thousand smallest of all its events: pages, rows,
    order, encoding and the choice of merge path leave no trace.
   */
  lemma {:induction false} RouteKeepsBottom(h: Hash, route: Route, t: set<SamplePoint>)
    requires Consistent(h, Events(route)) && Yields(h, route, t)
    ensures IsBottom(Events(route), t, MAX_SAMPLE_POINTS)
    decreases route
  {
    if route.Add? {
      var s := AddPart(h, route.set0, route.event, t);
      ConsistentParts(h, Events(route.set0), {route.event});
      RouteKeepsBottom(h, route.set0, s);
      BottomAbsorbs(Events(route.set0), s, {route.event}, t, MAX_SAMPLE_POINTS);
    } else if route.Recode? {
      RecodeInverts(h, route.set1, t);
      RouteKeepsBottom(h, route.set1, t);
    } else if !route.Empty? {
      var l, r := if route.Merge? then route.left else route.merger, if route.Merge? then route.right else route.row;
      if route.QueryMerge? { QueryMergeIsMerge(h, l, r, t); }
      var a, b := MergeParts(h, l, r, t);
      ConsistentParts(h, Events(l), Events(r));
      RouteKeepsBottom(h, l, a);
      RouteKeepsBottom(h, r, b);
      BottomMerges(Events(l), a, Events(r), b, t, MAX_SAMPLE_POINTS);
    }
  }

  /** In plain numbers: the thousand events of lowest priority, all of them when there are no more. */
  lemma RouteKeepsSmallest(h: Hash, route: Route, t: set<SamplePoint>)
    requires Consistent(h, Events(route)) && Yields(h, route, t)
    ensures t <= Events(route)
    ensures |t| == if |Events(route)| <= 1000 then |Events(route)| else 1000
    ensures forall p, q :: p in t && q in Events(route) - t ==> Ascends(p.priority, p.eventID, q.priority, q.eventID)
  {
    RouteKeepsBottom(h, route, t);
    KeptAreSmallest(Events(route), t);
  }

  // ----- no route fails -----

  /** A set is written in one way only. */
  lemma EncodingDeterministic(h: Hash, s: set<SamplePoint>, b: seq<byte>, c: seq<byte>)
    requires Encodes(h, b, s) && Encodes(h, c, s)
    ensures b == c
  {
    var ps :| Lists(h, ps, s) && |ps| <= MAX_SAMPLE_POINTS && b == Encode(h, ps);
    var qs :| Lists(h, qs, s) && |qs| <= MAX_SAMPLE_POINTS && c == Encode(h, qs);
    ListingUnique(ps, qs);
  }

  /** Order independence to the byte: the same conflict-free events on any two routes are stored alike. */
  lemma RoutesAgree(h: Hash, q: Route, r: Route, s: set<SamplePoint>, t: set<SamplePoint>, b: seq<byte>, c: seq<byte>)
    requires Consistent(h, Events(q)) && Events(q) == Events(r)
    requires Yields(h, q, s) && Yields(h, r, t) && Encodes(h, b, s) && Encodes(h, c, t)
    ensures s == t && b == c
  {
    RouteKeepsBottom(h, q, s);
    RouteKeepsBottom(h, r, t);
    BottomUnique(Events(q), s, t, MAX_SAMPLE_POINTS);
    EncodingDeterministic(h, s, b, c);
  }

  lemma ListingExists(h: Hash, s: set<SamplePoint>) returns (ps: seq<SamplePoint>)
    requires Consistent(h, s)
    ensures Lists(h, ps, s) && |ps| == |s|
    decreases |s|
  {
    if s == {} { return []; }
    var w := WorstExists(h, s);
    var front := ListingExists(h, s - {w});
    SnocLists(h, front, s - {w}, w);
    ps := front + [w];
    assert s - {w} + {w} == s;
  }

  lemma SnocLists(h: Hash, front: seq<SamplePoint>, s: set<SamplePoint>, w: SamplePoint)
    requires Lists(h, front, s) && ValidPoint(h, w) && forall p :: p in s ==> Less(p, w)
    ensures Lists(h, front + [w], s + {w})
  {
    assert forall i :: 0 <= i < |front| ==> front[i] in Elems(front);
  }

  lemma EncodingExists(h: Hash, s: set<SamplePoint>) returns (b: seq<byte>)
    requires Consistent(h, s) && |s| <= MAX_SAMPLE_POINTS
    ensures Encodes(h, b, s)
  {
    var ps := ListingExists(h, s);
    b := Encode(h, ps);
  }

  lemma SubsetFacts(h: Hash, all: set<SamplePoint>, a: set<SamplePoint>, b: set<SamplePoint>)
    requires Consistent(h, all) && a <= all && b <= all
    ensures Consistent(h, a + b) && !Conflicts(a, b)
  {
  }

  /** Conflict-free events are never refused, on any route. */
  lemma {:induction false} RouteSucceeds(h: Hash, route: Route) returns (t: set<SamplePoint>)
    requires Consistent(h, Events(route))
    ensures Yields(h, route, t)
    decreases route
  {
    match route
    case Empty => t := {};
    case Add(r, e) =>
      ConsistentParts(h, Events(r), {e});
      var s := RouteSucceeds(h, r);
      RouteKeepsBottom(h, r, s);
      SubsetFacts(h, Events(route), s, {e});
      t := BottomExists(h, s + {e}, MAX_SAMPLE_POINTS);
      assert e in Events(route);
    case Merge(l, r) =>
      ConsistentParts(h, Events(l), Events(r));
      var a := RouteSucceeds(h, l);
      var b := RouteSucceeds(h, r);
      t := MergeSucceeds(h, l, r, a, b);
    case Recode(r) =>
      t := RouteSucceeds(h, r);
      RouteKeepsBottom(h, r, t);
      var b := EncodingOf(h, Events(r), t);
    case QueryMerge(m, r) =>
      ConsistentParts(h, Events(m), Events(r));
      var a := RouteSucceeds(h, m);
      var s := RouteSucceeds(h, r);
      t := MergeSucceeds(h, m, r, a, s);
      RouteKeepsBottom(h, r, s);
      var b := EncodingOf(h, Events(r), s);
      assert MergesRow(h, a, b, Ok(|Decode(h, b).value|), t);
  }

  lemma EncodingOf(h: Hash, all: set<SamplePoint>, s: set<SamplePoint>) returns (b: seq<byte>)
    requires Consistent(h, all) && IsBottom(all, s, MAX_SAMPLE_POINTS)
    ensures Encodes(h, b, s) && Decode(h, b).Ok? && Elems(Decode(h, b).value) == s
  {
    SubsetFacts(h, all, s, {});
    assert s + {} == s;
    b := EncodingExists(h, s);
    EncodedDecodes(h, b, s);
  }

  lemma MergeSucceeds(h: Hash, l: Route, r: Route, a: set<SamplePoint>, b: set<SamplePoint>)
    returns (t: set<SamplePoint>)
    requires Consistent(h, Events(l) + Events(r)) && Yields(h, l, a) && Yields(h, r, b)
    ensures !Conflicts(a, b) && IsBottom(a + b, t, MAX_SAMPLE_POINTS)
  {
    ConsistentParts(h, Events(l), Events(r));
    RouteKeepsBottom(h, l, a);
    RouteKeepsBottom(h, r, b);
    SubsetFacts(h, Events(l) + Events(r), a, b);
    t := BottomExists(h, a + b, MAX_SAMPLE_POINTS);
  }
}
