/**
  What a refused SampleSet.Merge leaves behind. The loop meets the other set's points in the order
  of a map and stops at the first contradiction, so the order decides how far it gets.
 */
module SampleRefusal {
  import opened Wrappers
  import opened SampleOrder
  import opened SampleCodec
  import opened SampleSets

  /** order lists every point of t. */
  ghost predicate Visits(order: seq<SamplePoint>, t: set<SamplePoint>) { forall p :: p in order <==> p in t }

  /** Every event of t is already held. */
  ghost predicate AllHeld(m: PointMap, t: set<SamplePoint>) { forall q :: q in t ==> q.eventID in m }

  /** With nothing new to file, nothing changes. */
  lemma {:induction false} HeldChangesNothing(m: PointMap, order: seq<SamplePoint>)
    requires forall q :: q in order ==> q.eventID in m
    ensures OfferIn(m, order).points == m
  {
    if order == [] { return; }
    HeldChangesNothing(m, order[..|order| - 1]);
  }

  /** A merge refused by Merge, which reports its order, with every event already held: the map is as it was. */
  lemma RefusedMergeKeeps(m: PointMap, t: set<SamplePoint>, order: seq<SamplePoint>, after: PointMap)
    requires Elems(order) <= t && AllHeld(m, t) && OfferIn(m, order) == Offered(after, true)
    ensures after == m
  {
    HeldChangesNothing(m, order);
  }

  /** The loop only ever files more. */
  lemma {:induction false} OfferGrows(m: PointMap, order: seq<SamplePoint>, id: int)
    requires id in m
    ensures id in OfferIn(m, order).points && OfferIn(m, order).points[id] == m[id]
  {
    if order == [] { return; }
    OfferGrows(m, order[..|order| - 1], id);
  }

  /** A loop that has not stopped has filed every point it met. */
  lemma {:induction false} UnstoppedFiles(m: PointMap, order: seq<SamplePoint>, q: SamplePoint)
    requires !OfferIn(m, order).stopped && q in order
    ensures q.eventID in OfferIn(m, order).points && OfferIn(m, order).points[q.eventID] == q
  {
    var n := |order| - 1;
    if q in order[..n] { UnstoppedFiles(m, order[..n], q); }
  }

  lemma ContradictionStops(m: PointMap, s: set<SamplePoint>, t: set<SamplePoint>, order: seq<SamplePoint>)
    requires Holds(m, s) && Conflicts(s, t) && Visits(order, t)
    ensures OfferIn(m, order).stopped
  {
    var p, q :| p in s && q in t && p.eventID == q.eventID && p != q;
    if OfferIn(m, order).stopped { return; }
    OfferGrows(m, order, p.eventID);
    UnstoppedFiles(m, order, q);
  }

  lemma {:induction false} FirstIsFiled(m: PointMap, q: SamplePoint, rest: seq<SamplePoint>)
    requires q.eventID !in m
    ensures q.eventID in OfferIn(m, [q] + rest).points
  {
    var order := [q] + rest;
    if rest == [] {
      assert order[..0] == [];
      return;
    }
    assert order[..|order| - 1] == [q] + rest[..|rest| - 1];
    FirstIsFiled(m, q, rest[..|rest| - 1]);
  }

  lemma {:induction false} Listing(t: set<SamplePoint>) returns (order: seq<SamplePoint>)
    ensures Visits(order, t)
    decreases |t|
  {
    if t == {} { return []; }
    var p := Inhabited(t);
    var rest := Listing(t - {p});
    order := rest + [p];
  }

  /** A new event met first stays behind in a refused merge. */
  lemma NewEventStays(m: PointMap, s: set<SamplePoint>, t: set<SamplePoint>, q: SamplePoint)
    returns (order: seq<SamplePoint>)
    requires Holds(m, s) && Conflicts(s, t) && q in t && q.eventID !in m
    ensures Visits(order, t) && OfferIn(m, order).stopped && OfferIn(m, order).points != m
  {
    var rest := Listing(t - {q});
    order := [q] + rest;
    FirstIsFiled(m, q, rest);
    ContradictionStops(m, s, t, order);
  }

  /** Exactly when a refused merge leaves the set as it was, whatever the order: every event offered is already held. */
  lemma RefusalExactness(m: PointMap, s: set<SamplePoint>, t: set<SamplePoint>)
    requires Holds(m, s) && Conflicts(s, t)
    ensures AllHeld(m, t) <==> forall order :: Visits(order, t) ==> OfferIn(m, order) == Offered(m, true)
  {
    if AllHeld(m, t) {
      forall order | Visits(order, t) ensures OfferIn(m, order) == Offered(m, true) {
        HeldChangesNothing(m, order);
        ContradictionStops(m, s, t, order);
      }
    } else {
      var q :| q in t && q.eventID !in m;
      var order := NewEventStays(m, s, t, q);
    }
  }

  /** Event 2 stays behind when it is met before the contradiction about event 1, and not otherwise. */
  lemma RefusalLeavesBehind(h: Hash, a: SamplePoint, b: SamplePoint, c: SamplePoint, m: PointMap)
    requires a == SamplePoint(1, Priority(h, 1), 10, 20) && b == SamplePoint(1, Priority(h, 1), 10, 30)
    requires c == SamplePoint(2, Priority(h, 2), 5, 5) && m == map[1 := a]
    ensures ValidPoint(h, a) && ValidPoint(h, b) && ValidPoint(h, c)
    ensures OfferIn(m, [c, b]) == Offered(m[2 := c], true) && OfferIn(m, [b, c]) == Offered(m, true)
  {
    assert [c, b][..1] == [c] && [c][..0] == [] && [b, c][..1] == [b] && [b][..0] == [];
    assert OfferIn(m, [c]) == Offered(m[2 := c], false) && OfferIn(m, [b]) == Offered(m, true);
  }
}
