/**
  Sample points, their sampling order, and the bottom-k sets that bounded sampling keeps.
  `IsBottom` is the specification of every path through SampleSet and QuerySampleMerger; the lemmas
  below are its algebra, and none of them depends on how a set is computed.
 */
module SampleOrder {
  import opened Uvarint

  const MAX_SAMPLE_POINTS := 1000
  const MAX_ENCODED_SAMPLE_POINTS := 2500

  datatype SamplePoint = SamplePoint(eventID: int, priority: int, ttftMS: int, latencyMS: int)

  /** The sampling priorities of events: any fixed table; an event it does not list has priority 0. */
  type Hash = map<int, int>

  function Priority(h: Hash, eventID: int): (p: int)
    ensures IsUint64(p)
  {
    if eventID in h && IsUint64(h[eventID]) then h[eventID] else 0
  }

  /** samplePointLess: by priority, then by event ID. */
  predicate Less(l: SamplePoint, r: SamplePoint) {
    if l.priority != r.priority then l.priority < r.priority else l.eventID < r.eventID
  }

  /** What Add builds and the decoder admits: positive int64 fields and the event's own priority. */
  predicate ValidPoint(h: Hash, p: SamplePoint) {
    && 0 < p.eventID <= MAX_INT64
    && 0 < p.ttftMS <= MAX_INT64
    && 0 < p.latencyMS <= MAX_INT64
    && p.priority == Priority(h, p.eventID)
  }

  ghost predicate AllValidIn(h: Hash, s: set<SamplePoint>) {
    forall p :: p in s ==> ValidPoint(h, p)
  }

  /** Valid points of which no two disagree about the same event. */
  ghost predicate Consistent(h: Hash, s: set<SamplePoint>) {
    && AllValidIn(h, s)
    && (forall p, q :: p in s && q in s && p.eventID == q.eventID ==> p == q)
  }

  /** t is the k smallest points of s, or all of s when it has no more than k. */
  ghost predicate IsBottom(s: set<SamplePoint>, t: set<SamplePoint>, k: nat) {
    && t <= s
    && |t| == (if |s| <= k then |s| else k)
    && (forall p, q :: p in t && q in s - t ==> Less(p, q))
  }

  /** w is the largest point of t. */
  ghost predicate IsWorst(t: set<SamplePoint>, w: SamplePoint) {
    w in t && forall p :: p in t && p != w ==> Less(p, w)
  }

  /** What bounded sampling keeps: the 1000 points of lowest priority, and among equals of lowest event ID. */
  lemma KeptAreSmallest(s: set<SamplePoint>, t: set<SamplePoint>)
    requires IsBottom(s, t, MAX_SAMPLE_POINTS)
    ensures forall p, q :: p in t && q in s - t ==>
              p.priority < q.priority || (p.priority == q.priority && p.eventID < q.eventID)
    ensures t <= s && (|s| <= 1000 ==> t == s) && (|s| > 1000 ==> |t| == 1000)
  {
    if |s| <= MAX_SAMPLE_POINTS { SubsetCard(t, s); }
  }

  lemma SubsetCard<T>(a: set<T>, b: set<T>)
    requires a <= b
    ensures |a| <= |b|
    ensures |a| == |b| ==> a == b
  {
    assert b == a + (b - a);
  }

  lemma BottomUnique(s: set<SamplePoint>, t: set<SamplePoint>, u: set<SamplePoint>, k: nat)
    requires IsBottom(s, t, k) && IsBottom(s, u, k)
    ensures t == u
  {
    if t != u {
      if t <= u { SubsetCard(t, u); assert false; }
      if u <= t { SubsetCard(u, t); assert false; }
      var p :| p in t && p !in u;
      var q :| q in u && q !in t;
      if p in s - u && q in s - t { assert false; }
    }
  }

  lemma WorstExists(h: Hash, s: set<SamplePoint>) returns (w: SamplePoint)
    requires Consistent(h, s) && s != {}
    ensures IsWorst(s, w)
    decreases |s|
  {
    var u :| u in s;
    if s == {u} { return u; }
    assert s - {u} != {};
    var v := WorstExists(h, s - {u});
    w := if Less(u, v) then v else u;
    forall p | p in s && p != w
      ensures Less(p, w)
    {
      assert p == u || p == v || Less(p, v);
    }
  }

  lemma BottomExists(h: Hash, s: set<SamplePoint>, k: nat) returns (t: set<SamplePoint>)
    requires Consistent(h, s)
    ensures IsBottom(s, t, k)
    decreases |s|
  {
    if |s| <= k { return s; }
    var w := WorstExists(h, s);
    t := BottomExists(h, s - {w}, k);
    SubsetCard(t, s - {w});
  }

  /** Points trimmed away early can never come back: trimming a part first changes nothing. */
  lemma BottomAbsorbs(a: set<SamplePoint>, a': set<SamplePoint>, b: set<SamplePoint>, r: set<SamplePoint>, k: nat)
    requires IsBottom(a, a', k) && IsBottom(a' + b, r, k)
    ensures IsBottom(a + b, r, k)
  {
    SubsetCard(a', a);
    SubsetCard(a' + b, a + b);
    SubsetCard(a', a' + b);
    forall p, q | p in r && q in a + b - r
      ensures Less(p, q)
    {
      if q !in a' + b {
        if p !in a' {
          if a' <= r { SubsetCard(a', r); assert false; }
          var m :| m in a' && m !in r;
          assert Less(p, m) && Less(m, q);
        }
      }
    }
  }

  /** Two parts may be trimmed separately before they are merged and trimmed again. */
  lemma BottomMerges(a: set<SamplePoint>, a': set<SamplePoint>, b: set<SamplePoint>, b': set<SamplePoint>,
                     r: set<SamplePoint>, k: nat)
    requires IsBottom(a, a', k) && IsBottom(b, b', k) && IsBottom(a' + b', r, k)
    ensures IsBottom(a + b, r, k)
  {
    BottomAbsorbs(a, a', b', r, k);
    assert a + b' == b' + a;
    BottomAbsorbs(b, b', a, r, k);
    assert b + a == a + b;
  }

  /** One more point at a full set: it displaces the worst kept point, or is dropped. */
  lemma BottomStep(s: set<SamplePoint>, t: set<SamplePoint>, k: nat, w: SamplePoint, p: SamplePoint)
    requires IsBottom(s, t, k) && |t| == k && IsWorst(t, w)
    requires p !in s && (Less(p, w) || Less(w, p))
    ensures Less(p, w) ==> IsBottom(s + {p}, t - {w} + {p}, k)
    ensures Less(w, p) ==> IsBottom(s + {p}, t, k)
  {
    SubsetCard(t, s);
    if Less(p, w) {
      var t' := t - {w} + {p};
      assert |t - {w}| == k - 1;
      forall x, y | x in t' && y in s + {p} - t'
        ensures Less(x, y)
      {
        if y != w { assert y in s - t && Less(w, y); }
      }
    }
  }

  /** One more point at a set with room is simply kept. */
  lemma BottomGrows(s: set<SamplePoint>, t: set<SamplePoint>, k: nat, p: SamplePoint)
    requires IsBottom(s, t, k) && |t| < k && p !in s
    ensures t == s && IsBottom(s + {p}, t + {p}, k)
  {
    SubsetCard(t, s);
  }
}
