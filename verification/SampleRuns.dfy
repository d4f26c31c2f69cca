/** Routes followed on real sample sets, operation by operation. */
module SampleRuns {
  import opened Wrappers
  import opened Uvarint
  import opened SampleOrder
  import opened SampleCodec
  import opened SampleSets
  import opened SampleMerger
  import opened SampleRoutes

  /** s holds the 1000 smallest of all these conflict-free events. */
  ghost predicate Keeps(s: SampleSet, h: Hash, all: set<SamplePoint>)
    reads s
  {
    s.Valid() && s.hash == h && Consistent(h, all) && IsBottom(all, s.contents, MAX_SAMPLE_POINTS)
  }

  lemma PartsAgree(h: Hash, all: set<SamplePoint>, a: set<SamplePoint>, b: set<SamplePoint>)
    requires Consistent(h, all) && a <= all && b <= all
    ensures !Conflicts(a, b)
  {
    SubsetFacts(h, all, a, b);
  }

  method AddEvent(s: SampleSet, h: Hash, e: SamplePoint, ghost all: set<SamplePoint>)
    requires Keeps(s, h, all) && Consistent(h, all + {e})
    modifies s
    ensures Keeps(s, h, all + {e})
  {
    assert e in all + {e} && ValidPoint(h, e);
    ghost var held := s.contents;
    PartsAgree(h, all + {e}, held, {e});
    var ok := s.Add(e.eventID, e.ttftMS, e.latencyMS);
    BottomAbsorbs(all, held, {e}, s.contents, MAX_SAMPLE_POINTS);
  }

  method MergeInto(s: SampleSet, other: SampleSet, h: Hash, ghost all: set<SamplePoint>, ghost more: set<SamplePoint>)
    requires s != other && Keeps(s, h, all) && Keeps(other, h, more) && Consistent(h, all + more)
    modifies s
    ensures Keeps(s, h, all + more)
  {
    ghost var a, b := s.contents, other.contents;
    PartsAgree(h, all + more, a, b);
    var conflict, order := s.Merge(other);
    BottomMerges(all, a, more, b, s.contents, MAX_SAMPLE_POINTS);
  }

  /** What is kept is never too much to be written. */
  method Marshal(s: SampleSet, h: Hash, ghost all: set<SamplePoint>) returns (b: seq<byte>)
    requires Keeps(s, h, all)
    ensures Decode(h, b).Ok? && Elems(Decode(h, b).value) == s.contents
  {
    HoldsSize(s.points, s.contents);
    var r := MarshalBinary(s);
    b := r.value;
  }

  method Recoded(s: SampleSet, h: Hash, ghost all: set<SamplePoint>) returns (t: SampleSet)
    requires Keeps(s, h, all)
    ensures fresh(t) && Keeps(t, h, all)
  {
    var b := Marshal(s, h, all);
    var u, e := UnmarshalSampleSet(h, b);
    t := u;
  }

  /** One row merged by the query merger. */
  method MergeRow(merger: QuerySampleMerger, row: seq<byte>, ghost all: set<SamplePoint>, ghost more: set<SamplePoint>)
    requires merger.Valid() && merger.samples != null && Keeps(merger.samples, merger.hash, all)
    requires Consistent(merger.hash, all + more) && Decode(merger.hash, row).Ok?
    requires IsBottom(more, Elems(Decode(merger.hash, row).value), MAX_SAMPLE_POINTS)
    modifies merger`size, merger.heap, merger.samples
    ensures merger.Valid() && Keeps(merger.samples, merger.hash, all + more)
  {
    ghost var held, row' := merger.samples.contents, Elems(Decode(merger.hash, row).value);
    PartsAgree(merger.hash, all + more, held, row');
    var r := merger.MergeBinary(row);
    BottomMerges(all, held, more, row', merger.samples.contents, MAX_SAMPLE_POINTS);
  }

  method MergeByQuery(s: SampleSet, other: SampleSet, h: Hash, ghost all: set<SamplePoint>,
                      ghost more: set<SamplePoint>)
    returns (t: SampleSet)
    requires Keeps(s, h, all) && Keeps(other, h, more) && Consistent(h, all + more)
    ensures fresh(t) && Keeps(t, h, all + more)
  {
    var first := Marshal(s, h, all);
    var second := Marshal(other, h, more);
    var merger := new QuerySampleMerger(h);
    assert {} + all == all;
    MergeRow(merger, first, {}, all);
    MergeRow(merger, second, all, more);
    var taken := merger.TakeSamples();
    t := taken;
  }

  /** Any route, followed: no operation on it fails, and the set at its end is the 1000 smallest of all its events. */
  method Follow(h: Hash, route: Route) returns (s: SampleSet)
    requires Consistent(h, Events(route))
    ensures fresh(s) && Keeps(s, h, Events(route))
    decreases route
  {
    match route
    case Empty => s := new SampleSet(h);
    case Add(r, e) =>
      ConsistentParts(h, Events(r), {e});
      s := Follow(h, r);
      AddEvent(s, h, e, Events(r));
    case Merge(l, r) =>
      ConsistentParts(h, Events(l), Events(r));
      s := Follow(h, l);
      var other := Follow(h, r);
      MergeInto(s, other, h, Events(l), Events(r));
    case Recode(r) =>
      var plain := Follow(h, r);
      s := Recoded(plain, h, Events(r));
    case QueryMerge(m, r) =>
      ConsistentParts(h, Events(m), Events(r));
      var plain := Follow(h, m);
      var other := Follow(h, r);
      s := MergeByQuery(plain, other, h, Events(m), Events(r));
  }
}
