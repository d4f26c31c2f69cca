/**
  QuerySampleMerger: rows are decoded straight into a private set with a standing heap of its worst
  points. MergeBinary is proved against the same set-level result as decoding the row and calling
  SampleSet.Merge.
 */
module SampleMerger {
  import opened Wrappers
  import opened Uvarint
  import opened SampleOrder
  import opened WorstHeap
  import opened SampleCodec
  import opened SampleSets

  datatype MergeError = Closed | Malformed(error: DecodeError) | Conflicting(eventID: int)

  /** The outcome every way of merging one encoded row into `held` must have. */
  ghost predicate MergesRow(h: Hash, held: set<SamplePoint>, row: seq<byte>, r: Result<nat, MergeError>,
                            after: set<SamplePoint>) {
    match Decode(h, row)
    case Err(e) => r == Err(Malformed(e))
    case Ok(ps) =>
      if Conflicts(held, Elems(ps)) then r.Err? && r.error.Conflicting? && ConflictsAt(held, Elems(ps), r.error.eventID)
      else r == Ok(|ps|) && IsBottom(held + Elems(ps), after, MAX_SAMPLE_POINTS)
  }

  /** A point strictly behind the cutoff cannot concern an event that is held. */
  lemma SkipHidesNoConflict(h: Hash, m: PointMap, held: set<SamplePoint>, w: SamplePoint, p: SamplePoint)
    requires Holds(m, held) && AllValidIn(h, held) && IsWorst(held, w) && ValidPoint(h, p) && Less(w, p)
    ensures p.eventID !in m
  {
    assert forall q :: q in held ==> q == w || Less(q, w);
  }

  /** Points behind the cutoff of a full set change nothing. */
  lemma SkippedDoNotMatter(held: set<SamplePoint>, skipped: set<SamplePoint>, w: SamplePoint)
    requires IsWorst(held, w) && forall p :: p in skipped ==> Less(w, p)
    ensures IsBottom(held + skipped, held, |held|)
  {
    SubsetCard(held, held + skipped);
    forall p, q | p in held && q in held + skipped - held
      ensures Less(p, q)
    {
      assert p == w || Less(p, w);
    }
  }

  /** How the walk's callback has sorted the points ps[..i] of a row. */
  ghost predicate Screened(m: PointMap, held: set<SamplePoint>, full: bool, w: SamplePoint,
                           seen: set<SamplePoint>, candidates: seq<SamplePoint>, conflict: Option<int>)
  {
    && Elems(candidates) <= seen && Elems(candidates) !! held
    && (forall i, j :: 0 <= i < j < |candidates| ==> Less(candidates[i], candidates[j]))
    && (conflict.None? <==> !Conflicts(held, seen))
    && (conflict.Some? ==> ConflictsAt(held, seen, conflict.value))
    && (conflict.None? ==> forall p :: p in seen && p !in held && p !in candidates ==> full && Less(w, p))
  }

  lemma ScreenOne(h: Hash, m: PointMap, held: set<SamplePoint>, full: bool, w: SamplePoint,
                  seen: set<SamplePoint>, candidates: seq<SamplePoint>, conflict: Option<int>, p: SamplePoint)
    requires Holds(m, held) && AllValidIn(h, held) && ValidPoint(h, p) && (full ==> IsWorst(held, w))
    requires Screened(m, held, full, w, seen, candidates, conflict)
    requires forall q :: q in seen ==> Less(q, p)
    ensures full && Less(w, p) ==> Screened(m, held, full, w, seen + {p}, candidates, conflict)
    ensures !(full && Less(w, p)) && p.eventID in m && m[p.eventID] == p ==>
              Screened(m, held, full, w, seen + {p}, candidates, conflict)
    ensures !(full && Less(w, p)) && p.eventID in m && m[p.eventID] != p ==>
              Screened(m, held, full, w, seen + {p}, candidates, if conflict.None? then Some(p.eventID) else conflict)
    ensures !(full && Less(w, p)) && p.eventID !in m ==>
              (full ==> Less(p, w)) && Screened(m, held, full, w, seen + {p}, candidates + [p], conflict)
  {
    if full && Less(w, p) { SkipHidesNoConflict(h, m, held, w, p); }
    assert Conflicts(held, seen + {p}) <==> Conflicts(held, seen) || (p.eventID in m && m[p.eventID] != p);
  }

  /** The walk's callback over a decoded row, against the map and cutoff as they were before the row. */
  method Screen(h: Hash, m: PointMap, ghost held: set<SamplePoint>, full: bool, w: SamplePoint, ps: seq<SamplePoint>)
    returns (candidates: seq<SamplePoint>, conflict: Option<int>)
    requires Holds(m, held) && AllValidIn(h, held) && (full ==> IsWorst(held, w))
    requires AllValid(h, ps) && StrictlySorted(ps)
    ensures Screened(m, held, full, w, Elems(ps), candidates, conflict)
  {
    candidates, conflict := [], None;
    for i := 0 to |ps|
      invariant Screened(m, held, full, w, Elems(ps[..i]), candidates, conflict)
    {
      var p := ps[i];
      assert Elems(ps[..i + 1]) == Elems(ps[..i]) + {p};
      ScreenOne(h, m, held, full, w, Elems(ps[..i]), candidates, conflict, p);
      if full && Less(w, p) {
      } else if p.eventID in m {
        if m[p.eventID] != p && conflict.None? { conflict := Some(p.eventID); }
      } else if !full || Less(p, w) {
        candidates := candidates + [p];
      }
    }
    assert ps[..|ps|] == ps;
  }

  lemma CandidateFacts(h: Hash, m: PointMap, held: set<SamplePoint>, full: bool, w: SamplePoint,
                       ps: seq<SamplePoint>, candidates: seq<SamplePoint>)
    requires Holds(m, held) && AllValid(h, ps) && Screened(m, held, full, w, Elems(ps), candidates, None)
    ensures AllValid(h, candidates) && StrictlySorted(candidates)
    ensures forall p :: p in candidates ==> p.eventID !in m
  {
    forall i | 0 <= i < |candidates| ensures ValidPoint(h, candidates[i]) {
      assert candidates[i] in Elems(candidates);
    }
    forall p | p in candidates ensures p.eventID !in m {
      assert p in Elems(candidates) && p in Elems(ps);
    }
  }

  /** The next candidate concerns an event that is neither held nor admitted before. */
  lemma NextCandidate(h: Hash, m: PointMap, held: set<SamplePoint>, candidates: seq<SamplePoint>, i: nat)
    requires Holds(m, held) && i < |candidates| && AllValid(h, candidates) && StrictlySorted(candidates)
    requires forall p :: p in candidates ==> p.eventID !in m
    ensures forall q :: q in held + Elems(candidates[..i]) ==> q.eventID != candidates[i].eventID
    ensures held + Elems(candidates[..i + 1]) == held + Elems(candidates[..i]) + {candidates[i]}
  {
    StrictMeansDistinct(h, candidates);
    assert candidates[..i + 1] == candidates[..i] + [candidates[i]];
  }

  /** Screened and admitted: the set is the bottom of everything held and everything in the row. */
  lemma RowMerged(m: PointMap, held: set<SamplePoint>, full: bool, w: SamplePoint, ps: seq<SamplePoint>,
                  candidates: seq<SamplePoint>, after: set<SamplePoint>)
    requires Screened(m, held, full, w, Elems(ps), candidates, None)
    requires full ==> IsWorst(held, w) && |held| == MAX_SAMPLE_POINTS
    requires IsBottom(held + Elems(candidates), after, MAX_SAMPLE_POINTS)
    ensures IsBottom(held + Elems(ps), after, MAX_SAMPLE_POINTS)
  {
    var skipped := Elems(ps) - held - Elems(candidates);
    assert held + Elems(ps) == (held + skipped) + Elems(candidates);
    if full {
      SkippedDoNotMatter(held, skipped, w);
      BottomAbsorbs(held + skipped, held, Elems(candidates), after, MAX_SAMPLE_POINTS);
    } else {
      assert skipped == {};
      assert held + skipped == held;
    }
  }

  class QuerySampleMerger {
    const hash: Hash
    var samples: SampleSet?
    var heap: array<SamplePoint>
    var size: nat

    ghost predicate Valid()
      reads this, heap, samples
    {
      && heap.Length == MAX_SAMPLE_POINTS && size <= heap.Length
      && (samples != null ==>
            && samples.Valid() && samples.hash == hash
            && HeapOf(heap[..size], samples.contents))
    }

    constructor (h: Hash)
      ensures Valid() && hash == h && fresh(samples) && fresh(heap)
      ensures samples != null && samples.contents == {}
    {
      hash := h;
      samples := new SampleSet(h);
      heap := new SamplePoint[MAX_SAMPLE_POINTS];
      size := 0;
    }

    /** A candidate while there is room. */
    method Grow(p: SamplePoint, ghost all: set<SamplePoint>)
      requires Valid() && samples != null && ValidPoint(hash, p) && size < MAX_SAMPLE_POINTS
      requires IsBottom(all, samples.contents, MAX_SAMPLE_POINTS)
      requires forall q :: q in all ==> q.eventID != p.eventID
      modifies this`size, heap, samples
      ensures Valid() && IsBottom(all + {p}, samples.contents, MAX_SAMPLE_POINTS)
    {
      ghost var held := samples.contents;
      WorstHeld(hash, samples.points, held, heap[..size]);
      BottomGrows(all, held, MAX_SAMPLE_POINTS, p);
      AppendWorst(heap, size, p, held);
      size := size + 1;
      samples.Put(p);
    }

    /** A candidate that beats the root of a full heap. */
    method Displace(p: SamplePoint, ghost all: set<SamplePoint>)
      requires Valid() && samples != null && ValidPoint(hash, p) && size == MAX_SAMPLE_POINTS && Less(p, heap[0])
      requires IsBottom(all, samples.contents, MAX_SAMPLE_POINTS)
      requires forall q :: q in all ==> q.eventID != p.eventID
      modifies heap, samples
      ensures Valid() && IsBottom(all + {p}, samples.contents, MAX_SAMPLE_POINTS)
    {
      ghost var held := samples.contents;
      var w := heap[0];
      assert w == heap[..size][0];
      WorstHeld(hash, samples.points, held, heap[..size]);
      BottomStep(all, held, MAX_SAMPLE_POINTS, w, p);
      ReplaceWorst(heap, size, p, held);
      samples.Forget(w);
      samples.Put(p);
    }

    /** One candidate: kept while there is room, else it must beat the root. */
    method Admit(p: SamplePoint, ghost all: set<SamplePoint>)
      requires Valid() && samples != null && ValidPoint(hash, p)
      requires IsBottom(all, samples.contents, MAX_SAMPLE_POINTS)
      requires forall q :: q in all ==> q.eventID != p.eventID
      modifies this`size, heap, samples
      ensures Valid() && IsBottom(all + {p}, samples.contents, MAX_SAMPLE_POINTS)
    {
      if size < MAX_SAMPLE_POINTS {
        Grow(p, all);
      } else if Less(p, heap[0]) {
        Displace(p, all);
      } else {
        ghost var w := heap[..size][0];
        WorstHeld(hash, samples.points, samples.contents, heap[..size]);
        assert w.eventID != p.eventID;
        BottomStep(all, samples.contents, MAX_SAMPLE_POINTS, w, p);
      }
    }

    /** Screen all points of a decoded row, then admit the candidates. */
    method MergePoints(ps: seq<SamplePoint>) returns (conflict: Option<int>)
      requires Valid() && samples != null && AllValid(hash, ps) && StrictlySorted(ps)
      modifies this`size, heap, samples
      ensures Valid()
      ensures conflict.None? <==> !Conflicts(old(samples.contents), Elems(ps))
      ensures conflict.Some? ==> ConflictsAt(old(samples.contents), Elems(ps), conflict.value)
      ensures conflict.None? ==> IsBottom(old(samples.contents) + Elems(ps), samples.contents, MAX_SAMPLE_POINTS)
      ensures conflict.Some? ==> samples.points == old(samples.points) && heap[..] == old(heap[..]) && size == old(size)
    {
      ghost var m0, held := samples.points, samples.contents;
      WorstHeld(hash, samples.points, held, heap[..size]);
      var full, w := size == MAX_SAMPLE_POINTS, heap[0];
      assert full ==> w == heap[..size][0];
      var candidates;
      candidates, conflict := Screen(hash, samples.points, held, full, w, ps);
      if conflict.Some? { return; }
      CandidateFacts(hash, m0, held, full, w, ps, candidates);
      AdmitAll(candidates);
      RowMerged(m0, held, full, w, ps, candidates, samples.contents);
    }

    /** MergeBinary: the whole row is parsed and screened before anything changes. */
    method MergeBinary(encoded: seq<byte>) returns (r: Result<nat, MergeError>)
      requires Valid()
      modifies this`size, heap, samples
      ensures Valid()
      ensures samples == null ==> r == Err(Closed)
      ensures samples != null ==> MergesRow(hash, old(samples.contents), encoded, r, samples.contents)
      ensures r.Err? && samples != null
              ==> samples.points == old(samples.points) && heap[..] == old(heap[..]) && size == old(size)
    {
      if samples == null { return Err(Closed); }
      var walked := WalkSampleSet(hash, encoded);
      if walked.Err? { return Err(Malformed(walked.error)); }
      DecodedRowIsStrict(hash, encoded);
      var conflict := MergePoints(walked.value);
      if conflict.Some? { return Err(Conflicting(conflict.value)); }
      var n: nat := |walked.value|;
      return Ok(n);
    }

    method AdmitAll(candidates: seq<SamplePoint>)
      requires Valid() && samples != null && AllValid(hash, candidates) && StrictlySorted(candidates)
      requires forall p :: p in candidates ==> p.eventID !in samples.points
      modifies this`size, heap, samples
      ensures Valid()
      ensures IsBottom(old(samples.contents) + Elems(candidates), samples.contents, MAX_SAMPLE_POINTS)
    {
      ghost var m0, held, all := samples.points, samples.contents, samples.contents;
      StartsAsBottom();
      for i := 0 to |candidates|
        invariant Ready(all) && all == held + Elems(candidates[..i])
      {
        AdmitNext(candidates, i, m0, held, all);
        all := all + {candidates[i]};
      }
      assert candidates[..|candidates|] == candidates;
    }

    /** Open, and holding the bottom of all points met so far. */
    ghost predicate Ready(all: set<SamplePoint>)
      reads this, heap, samples
    {
      Valid() && samples != null && IsBottom(all, samples.contents, MAX_SAMPLE_POINTS)
    }

    lemma StartsAsBottom()
      requires Valid() && samples != null
      ensures Ready(samples.contents)
    {
      WorstHeld(hash, samples.points, samples.contents, heap[..size]);
    }

    method AdmitNext(candidates: seq<SamplePoint>, i: nat, ghost m0: PointMap, ghost held: set<SamplePoint>,
                     ghost all: set<SamplePoint>)
      requires Ready(all) && Holds(m0, held) && i < |candidates| && all == held + Elems(candidates[..i])
      requires AllValid(hash, candidates) && StrictlySorted(candidates)
      requires forall p :: p in candidates ==> p.eventID !in m0
      modifies this`size, heap, samples
      ensures Ready(all + {candidates[i]}) && all + {candidates[i]} == held + Elems(candidates[..i + 1])
    {
      NextCandidate(hash, m0, held, candidates, i);
      Admit(candidates[i], all);
    }

    /** TakeSamples: ownership moves to the caller and the merger closes. */
    method TakeSamples() returns (taken: SampleSet?)
      requires Valid()
      modifies this
      ensures taken == old(samples) && samples == null && Valid()
    {
      taken := samples;
      samples, size := null, 0;
    }
  }
}
