/**
  SampleSet: a map from event ID to point that keeps the globally smallest points.
  Its in-place operations are specified by `IsBottom` on the set of points held.
 */
module SampleSets {
  import opened Wrappers
  import opened Uvarint
  import opened SampleOrder
  import opened WorstHeap
  import opened SampleCodec

  type PointMap = map<int, SamplePoint>

  /** The map files exactly the points of s, each under its own event ID. */
  ghost predicate Holds(m: PointMap, s: set<SamplePoint>) {
    && (forall id :: id in m ==> m[id].eventID == id && m[id] in s)
    && (forall p :: p in s ==> p.eventID in m && m[p.eventID] == p)
  }

  /** Some point of b contradicts what a holds about the same event. */
  ghost predicate Conflicts(a: set<SamplePoint>, b: set<SamplePoint>) {
    exists p, q :: p in a && q in b && p.eventID == q.eventID && p != q
  }

  /** They disagree about this event. */
  ghost predicate ConflictsAt(a: set<SamplePoint>, b: set<SamplePoint>, id: int) {
    exists p, q :: p in a && q in b && p.eventID == id == q.eventID && p != q
  }

  lemma InsertPoint(m: PointMap, s: set<SamplePoint>, p: SamplePoint)
    requires Holds(m, s) && p.eventID !in m
    ensures Holds(m[p.eventID := p], s + {p}) && p !in s
  {
  }

  lemma RemovePoint(m: PointMap, s: set<SamplePoint>, p: SamplePoint)
    requires Holds(m, s) && p in s
    ensures Holds(m - {p.eventID}, s - {p})
  {
  }

  lemma {:induction false} HoldsSize(m: PointMap, s: set<SamplePoint>)
    requires Holds(m, s)
    ensures |m| == |s|
    decreases |s|
  {
    if p :| p in s {
      RemovePoint(m, s, p);
      HoldsSize(m - {p.eventID}, s - {p});
    } else if m.Keys != {} {
      var id := Inhabited(m.Keys);
      assert false;
    }
  }

  lemma HoldsConsistent(h: Hash, m: PointMap, s: set<SamplePoint>)
    requires Holds(m, s) && AllValidIn(h, s)
    ensures Consistent(h, s)
  {
  }

  /** The map's points in some order. */
  method Values(m: PointMap, ghost s: set<SamplePoint>) returns (listed: seq<SamplePoint>)
    requires Holds(m, s)
    ensures multiset(listed) == multiset(s)
  {
    listed := [];
    var rest := m;
    ghost var left := s;
    while rest.Keys != {}
      invariant Holds(rest, left)
      invariant multiset(listed) + multiset(left) == multiset(s)
      decreases |rest|
    {
      ghost var _ := Inhabited(rest.Keys);
      var id :| id in rest.Keys;
      var p := rest[id];
      RemovePoint(rest, left, p);
      assert multiset(left) == multiset(left - {p}) + multiset{p};
      listed, rest, left := listed + [p], rest - {id}, left - {p};
    }
    HoldsSize(rest, left);
  }

  /** Merge has offered theirs except the points of left, and met no contradiction. */
  ghost predicate Merging(mine: set<SamplePoint>, theirs: set<SamplePoint>, now: set<SamplePoint>,
                          left: set<SamplePoint>) {
    left <= theirs && now == mine + (theirs - left) && !Conflicts(mine, theirs - left)
  }

  lemma MergeStep(h: Hash, mine: set<SamplePoint>, theirs: set<SamplePoint>, now: set<SamplePoint>,
                  left: set<SamplePoint>, p: SamplePoint)
    requires Merging(mine, theirs, now, left) && p in left && Consistent(h, theirs)
    ensures Conflicts(now, {p}) ==> ConflictsAt(mine, theirs, p.eventID)
    ensures !Conflicts(now, {p}) ==> Merging(mine, theirs, now + {p}, left - {p})
  {
    assert theirs - (left - {p}) == theirs - left + {p};
    if Conflicts(now, {p}) {
      var a :| a in now && a.eventID == p.eventID && a != p;
      assert a in mine;
    }
  }

  /** kept is the bottom k of the points seen so far; held are the kept and the unseen points. */
  ghost predicate Trimming(all: set<SamplePoint>, unseen: set<SamplePoint>, k: nat, kept: set<SamplePoint>,
                           held: set<SamplePoint>) {
    unseen <= all && IsBottom(all - unseen, kept, k) && |kept| == k && held == kept + unseen
  }

  lemma Displace(all: set<SamplePoint>, unseen: set<SamplePoint>, k: nat, kept: set<SamplePoint>,
                 held: set<SamplePoint>, w: SamplePoint, p: SamplePoint)
    requires Trimming(all, unseen, k, kept, held) && IsWorst(kept, w) && p in unseen && Less(p, w)
    ensures p !in kept && Trimming(all, unseen - {p}, k, kept - {w} + {p}, held - {w})
  {
    assert all - (unseen - {p}) == all - unseen + {p};
    BottomStep(all - unseen, kept, k, w, p);
    assert held - {w} == (kept - {w} + {p}) + (unseen - {p});
  }

  lemma Drop(all: set<SamplePoint>, unseen: set<SamplePoint>, k: nat, kept: set<SamplePoint>,
             held: set<SamplePoint>, w: SamplePoint, p: SamplePoint)
    requires Trimming(all, unseen, k, kept, held) && IsWorst(kept, w) && p in unseen && Less(w, p)
    ensures Trimming(all, unseen - {p}, k, kept, held - {p})
  {
    assert all - (unseen - {p}) == all - unseen + {p};
    BottomStep(all - unseen, kept, k, w, p);
    assert held - {p} == kept + (unseen - {p});
  }

  lemma TrimDone(listed: seq<SamplePoint>, all: set<SamplePoint>, unseen: set<SamplePoint>, k: nat,
                 kept: set<SamplePoint>, held: set<SamplePoint>)
    requires Trimming(all, unseen, k, kept, held) && multiset(listed[|listed|..]) == multiset(unseen)
    ensures IsBottom(all, held, k) && kept == held && |held| == k
  {
    assert unseen == {} by { assert listed[|listed|..] == [] && |multiset(unseen)| == 0; }
    assert all - unseen == all && held == kept;
  }

  /** What a heap of some of the held points says about its root and about any other held point. */
  lemma RootFacts(h: Hash, m: PointMap, held: set<SamplePoint>, heap: seq<SamplePoint>, kept: set<SamplePoint>,
                  p: SamplePoint)
    requires Holds(m, held) && AllValidIn(h, held) && HeapOf(heap, kept) && kept <= held && p in held
    ensures |heap| == |kept|
    ensures |heap| > 0 ==> IsWorst(kept, heap[0]) && (p != heap[0] ==> Less(p, heap[0]) || Less(heap[0], p))
  {
    HeapWorst(h, heap, kept);
  }

  lemma WorstHeld(h: Hash, m: PointMap, held: set<SamplePoint>, heap: seq<SamplePoint>)
    requires Holds(m, held) && AllValidIn(h, held) && HeapOf(heap, held)
    ensures |heap| == |held| && (|heap| > 0 ==> IsWorst(held, heap[0]))
  {
    HeapWorst(h, heap, held);
  }

  /** The next point of a listing is one of the unseen ones. */
  lemma NextUnseen(listed: seq<SamplePoint>, i: nat, unseen: set<SamplePoint>)
    requires i < |listed| && multiset(listed[i..]) == multiset(unseen)
    ensures listed[i] in unseen && multiset(listed[i + 1..]) == multiset(unseen - {listed[i]})
  {
    assert listed[i..] == [listed[i]] + listed[i + 1..];
    assert multiset(listed[i..]) == multiset{listed[i]} + multiset(listed[i + 1..]);
    assert listed[i] in multiset(unseen);
    assert multiset(unseen) == multiset(unseen - {listed[i]}) + multiset{listed[i]};
    assert multiset(listed[i + 1..]) == multiset(listed[i..]) - multiset{listed[i]};
  }

  /** A listing of a set splits into listings of two disjoint parts. */
  lemma SplitListing(listed: seq<SamplePoint>, k: nat, s: set<SamplePoint>) returns (first: set<SamplePoint>)
    requires k <= |listed| && multiset(listed) == multiset(s)
    ensures first <= s && |first| == k
    ensures multiset(listed[..k]) == multiset(first) && multiset(listed[k..]) == multiset(s - first)
  {
    first := {};
    assert listed[..0] == [] && listed[0..] == listed;
    for i := 0 to k
      invariant first <= s && |first| == i
      invariant multiset(listed[..i]) == multiset(first) && multiset(listed[i..]) == multiset(s - first)
    {
      NextUnseen(listed, i, s - first);
      assert listed[..i + 1] == listed[..i] + [listed[i]];
      assert s - (first + {listed[i]}) == s - first - {listed[i]};
      first := first + {listed[i]};
    }
  }

  /** One turn of trim's second loop: p displaces the root or is dropped; the loser leaves the map. */
  method Compete(h: Hash, a: array<SamplePoint>, m: PointMap, p: SamplePoint, ghost kept: set<SamplePoint>,
                 ghost held: set<SamplePoint>, ghost all: set<SamplePoint>, ghost unseen: set<SamplePoint>)
    returns (m': PointMap, ghost kept': set<SamplePoint>, ghost held': set<SamplePoint>)
    requires a.Length >= MAX_SAMPLE_POINTS && HeapOf(a[..MAX_SAMPLE_POINTS], kept)
    requires Holds(m, held) && AllValidIn(h, held)
    requires Trimming(all, unseen, MAX_SAMPLE_POINTS, kept, held) && p in unseen
    modifies a
    ensures HeapOf(a[..MAX_SAMPLE_POINTS], kept') && Holds(m', held') && held' <= held
    ensures Trimming(all, unseen - {p}, MAX_SAMPLE_POINTS, kept', held')
  {
    var k, w := MAX_SAMPLE_POINTS, a[0];
    RootFacts(h, m, held, a[..k], kept, p);
    assert w == a[..k][0];
    if Less(p, w) {
      Displace(all, unseen, k, kept, held, w, p);
      RemovePoint(m, held, w);
      ReplaceWorst(a, k, p, kept);
      m', kept', held' := m - {w.eventID}, kept - {w} + {p}, held - {w};
    } else {
      Drop(all, unseen, k, kept, held, w, p);
      RemovePoint(m, held, p);
      m', kept', held' := m - {p.eventID}, kept, held - {p};
    }
  }

  /** The first half of trim: all points in some order, the first thousand of them as a heap. */
  method ListAndHeapify(m: PointMap, ghost s: set<SamplePoint>)
    returns (listed: seq<SamplePoint>, a: array<SamplePoint>, ghost kept: set<SamplePoint>,
             ghost unseen: set<SamplePoint>)
    requires Holds(m, s) && |s| > MAX_SAMPLE_POINTS
    ensures fresh(a) && a.Length == |listed| == |s|
    ensures HeapOf(a[..MAX_SAMPLE_POINTS], kept)
    ensures multiset(listed[MAX_SAMPLE_POINTS..]) == multiset(unseen)
    ensures Trimming(s, unseen, MAX_SAMPLE_POINTS, kept, s)
  {
    var k := MAX_SAMPLE_POINTS;
    listed := Values(m, s);
    assert |multiset(listed)| == |s|;
    a := new SamplePoint[|listed|](i requires 0 <= i < |listed| => listed[i]);
    assert a[..k] == listed[..k];
    kept := SplitListing(listed, k, s);
    unseen := s - kept;
    assert s - unseen == kept;
    Heapify(a, k, kept);
  }

  /** trim: heapify the first thousand points, then let every further point compete with the root. */
  method TrimMap(h: Hash, m: PointMap, ghost s: set<SamplePoint>)
    returns (m': PointMap, w: SamplePoint, ghost kept: set<SamplePoint>)
    requires Holds(m, s) && AllValidIn(h, s) && |s| > MAX_SAMPLE_POINTS
    ensures Holds(m', kept) && IsBottom(s, kept, MAX_SAMPLE_POINTS) && IsWorst(kept, w)
  {
    var listed, a;
    ghost var unseen, held := {}, s;
    listed, a, kept, unseen := ListAndHeapify(m, s);
    m' := m;
    for i := MAX_SAMPLE_POINTS to |listed|
      invariant multiset(listed[i..]) == multiset(unseen) && held <= s
      invariant Trimming(s, unseen, MAX_SAMPLE_POINTS, kept, held)
      invariant HeapOf(a[..MAX_SAMPLE_POINTS], kept) && Holds(m', held)
    {
      NextUnseen(listed, i, unseen);
      m', kept, held := Compete(h, a, m', listed[i], kept, held, s, unseen);
      unseen := unseen - {listed[i]};
    }
    TrimDone(listed, s, unseen, MAX_SAMPLE_POINTS, kept, held);
    WorstHeld(h, m', kept, a[..MAX_SAMPLE_POINTS]);
    w := a[0];
  }

  // ----- the order Merge meets the points in -----

  /** What Merge's loop has made of the map, and whether it has met a contradiction. */
  datatype Offered = Offered(points: PointMap, stopped: bool)

  /** The loop over the other set's points in some order, up to the first contradiction. */
  function OfferIn(m: PointMap, order: seq<SamplePoint>): Offered {
    if order == [] then Offered(m, false)
    else
      var (r, p) := (OfferIn(m, order[..|order| - 1]), order[|order| - 1]);
      if r.stopped then r
      else if p.eventID in r.points then Offered(r.points, r.points[p.eventID] != p)
      else Offered(r.points[p.eventID := p], false)
  }

  lemma OfferOne(m: PointMap, order: seq<SamplePoint>, p: SamplePoint, now: PointMap)
    requires OfferIn(m, order) == Offered(now, false)
    ensures OfferIn(m, order + [p]) == if p.eventID in now then Offered(now, now[p.eventID] != p)
                                       else Offered(now[p.eventID := p], false)
  {
    assert (order + [p])[..|order|] == order;
  }

  class SampleSet {
    const hash: Hash
    var points: PointMap
    ghost var contents: set<SamplePoint>

    ghost predicate Valid() reads this { Holds(points, contents) && AllValidIn(hash, contents) }

    /** NewSampleSet. */
    constructor (h: Hash)
      ensures Valid() && hash == h && points == map[] && contents == {}
    {
      hash := h;
      points := map[];
      contents := {};
    }

    /** addPoint: exact duplicates are absorbed, contradictions refused with nothing changed. */
    method AddPoint(p: SamplePoint) returns (ok: bool)
      requires Valid() && ValidPoint(hash, p)
      modifies this
      ensures Valid()
      ensures ok <==> !Conflicts(old(contents), {p})
      ensures ok ==> contents == old(contents) + {p}
      ensures !ok ==> contents == old(contents) && points == old(points)
      ensures Offered(points, !ok) == if p.eventID in old(points) then Offered(old(points), old(points)[p.eventID] != p)
                                      else Offered(old(points)[p.eventID := p], false)
    {
      if p.eventID in points {
        assert points[p.eventID] in contents;
        return points[p.eventID] == p;
      }
      Put(p);
      return true;
    }

    /** Add: one real pair of latencies, then trim. */
    method Add(eventID: int, ttftMS: int, latencyMS: int) returns (ok: bool)
      requires Valid() && IsInt64(eventID) && IsInt64(ttftMS) && IsInt64(latencyMS)
      modifies this
      ensures Valid()
      ensures eventID <= 0 || ttftMS <= 0 || latencyMS <= 0 ==> !ok
      ensures eventID > 0 && ttftMS > 0 && latencyMS > 0 ==>
                var p := SamplePoint(eventID, Priority(hash, eventID), ttftMS, latencyMS);
                && (ok <==> !Conflicts(old(contents), {p}))
                && (ok ==> IsBottom(old(contents) + {p}, contents, MAX_SAMPLE_POINTS))
      ensures !ok ==> contents == old(contents) && points == old(points)
    {
      if eventID <= 0 || ttftMS <= 0 || latencyMS <= 0 { return false; }
      ok := AddPoint(SamplePoint(eventID, Priority(hash, eventID), ttftMS, latencyMS));
      if ok {
        var _ := Trim();
      }
    }

    /** Merge: the other set's points in any order; stops at the first contradiction, untrimmed. */
    method Merge(other: SampleSet) returns (conflict: Option<int>, ghost order: seq<SamplePoint>)
      requires Valid() && other.Valid() && other.hash == hash
      modifies this
      ensures Valid()
      ensures conflict.None? <==> !Conflicts(old(contents), old(other.contents))
      ensures conflict.Some? ==> ConflictsAt(old(contents), old(other.contents), conflict.value)
      ensures conflict.None? ==> IsBottom(old(contents) + old(other.contents), contents, MAX_SAMPLE_POINTS)
      ensures conflict.Some? ==> old(contents) <= contents <= old(contents) + old(other.contents)
      ensures Elems(order) <= old(other.contents)
      ensures conflict.Some? ==> OfferIn(old(points), order) == Offered(points, true)
    {
      HoldsConsistent(hash, other.points, other.contents);
      ghost var mine, theirs, left := contents, other.contents, other.contents;
      var todo := other.points;
      order := [];
      while todo.Keys != {}
        invariant Valid() && Holds(todo, left) && Merging(mine, theirs, contents, left)
        invariant Elems(order) <= theirs && OfferIn(old(points), order) == Offered(points, false)
        decreases left
      {
        ghost var _ := Inhabited(todo.Keys);
        var id :| id in todo.Keys;
        var p := todo[id];
        MergeStep(hash, mine, theirs, contents, left, p);
        OfferOne(old(points), order, p, points);
        order := order + [p];
        var ok := AddPoint(p);
        if !ok { return Some(id), order; }
        RemovePoint(todo, left, p);
        todo, left := todo - {id}, left - {p};
      }
      assert theirs - left == theirs;
      var _ := Trim();
      conflict := None;
    }

    /** trim. */
    method Trim() returns (cutoff: Option<SamplePoint>)
      requires Valid()
      modifies this
      ensures Valid() && IsBottom(old(contents), contents, MAX_SAMPLE_POINTS)
      ensures cutoff.None? <==> |old(points)| <= MAX_SAMPLE_POINTS
      ensures cutoff.None? ==> points == old(points)
      ensures cutoff.Some? ==> IsWorst(contents, cutoff.value)
    {
      HoldsSize(points, contents);
      if |points| <= MAX_SAMPLE_POINTS { return None; }
      var w;
      points, w, contents := TrimMap(hash, points, contents);
      return Some(w);
    }

    /** samples.points[p.EventID] = p, for an event that is not held. */
    method Put(p: SamplePoint)
      requires Valid() && ValidPoint(hash, p) && p.eventID !in points
      modifies this
      ensures Valid() && p !in old(contents) && contents == old(contents) + {p}
      ensures points == old(points)[p.eventID := p]
    {
      InsertPoint(points, contents, p);
      points, contents := points[p.eventID := p], contents + {p};
    }

    /** delete(samples.points, p.EventID). */
    method Forget(p: SamplePoint)
      requires Valid() && p in contents
      modifies this
      ensures Valid() && contents == old(contents) - {p}
    {
      RemovePoint(points, contents, p);
      points, contents := points - {p.eventID}, contents - {p};
    }
  }
}
