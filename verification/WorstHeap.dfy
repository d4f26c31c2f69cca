/**
  The max-heap of kept sample points: its root is the worst of them. The in-place methods are
  proved equal to functions on sequences, and the heap order and contents are proved of those.
 */
module WorstHeap {
  import opened SampleOrder

  function Parent(j: int): int
    requires j > 0
  {
    (j - 1) / 2
  }

  /** Heap order at every parent from lo on: a parent is never less than a child. */
  ghost predicate HeapFrom(s: seq<SamplePoint>, lo: int) {
    forall j {:trigger Parent(j)} :: 0 < j < |s| && Parent(j) >= lo ==> !Less(s[Parent(j)], s[j])
  }

  /** Heap order from lo on, except between i and its children, which i's own parent still dominates. */
  ghost predicate HeapBelowBut(s: seq<SamplePoint>, lo: int, i: int) {
    && (forall j {:trigger Parent(j)} :: 0 < j < |s| && Parent(j) >= lo && Parent(j) != i ==> !Less(s[Parent(j)], s[j]))
    && (forall j {:trigger Parent(j)} :: 0 < j < |s| && Parent(j) == i && i > 0 && Parent(i) >= lo ==>
          !Less(s[Parent(i)], s[j]))
  }

  /** Heap order except between c and its parent; c's children already fit under that parent. */
  ghost predicate HeapAboveBut(s: seq<SamplePoint>, c: int) {
    && (forall j {:trigger Parent(j)} :: 0 < j < |s| && j != c ==> !Less(s[Parent(j)], s[j]))
    && (forall j {:trigger Parent(j)} :: 0 < j < |s| && Parent(j) == c && 0 < c < |s| ==> !Less(s[Parent(c)], s[j]))
  }

  function Swap(s: seq<SamplePoint>, i: nat, j: nat): (r: seq<SamplePoint>)
    requires i < |s| && j < |s|
    ensures |r| == |s| && multiset(r) == multiset(s)
  {
    s[i := s[j]][j := s[i]]
  }

  /** The larger child of i. */
  function WorseChild(s: seq<SamplePoint>, i: nat): (c: nat)
    requires i + i + 1 < |s|
    ensures i < c < |s| && (c == i + i + 1 || c == i + i + 2)
  {
    var l := i + i + 1;
    if l + 1 < |s| && Less(s[l], s[l + 1]) then l + 1 else l
  }

  lemma WorseChildDominates(s: seq<SamplePoint>, i: nat, j: nat)
    requires i + i + 1 < |s| && 0 < j < |s| && Parent(j) == i
    ensures !Less(s[WorseChild(s, i)], s[j])
  {
  }

  function SiftDown(s: seq<SamplePoint>, i: nat): seq<SamplePoint>
    decreases |s| - i
  {
    if i + i + 1 >= |s| then s
    else
      var c := WorseChild(s, i);
      if Less(s[i], s[c]) then SiftDown(Swap(s, i, c), c) else s
  }

  function SiftUp(s: seq<SamplePoint>, c: nat): seq<SamplePoint>
    requires c < |s|
    decreases c
  {
    if c == 0 || !Less(s[Parent(c)], s[c]) then s else SiftUp(Swap(s, Parent(c), c), Parent(c))
  }

  lemma {:induction false} SiftDownRestores(s: seq<SamplePoint>, lo: int, i: nat)
    requires lo <= i && HeapBelowBut(s, lo, i)
    ensures HeapFrom(SiftDown(s, i), lo)
    ensures multiset(SiftDown(s, i)) == multiset(s)
    decreases |s| - i
  {
    if i + i + 1 < |s| {
      var c := WorseChild(s, i);
      if Less(s[i], s[c]) {
        var t := Swap(s, i, c);
        SiftDownKeepsBut(s, t, lo, i, c);
        SiftDownRestores(t, lo, c);
      }
    }
  }

  lemma SiftDownKeepsBut(s: seq<SamplePoint>, t: seq<SamplePoint>, lo: int, i: nat, c: nat)
    requires lo <= i && HeapBelowBut(s, lo, i) && i + i + 1 < |s|
    requires c == WorseChild(s, i) && Less(s[i], s[c]) && t == Swap(s, i, c)
    ensures HeapBelowBut(t, lo, c)
  {
    forall j {:trigger Parent(j)} | 0 < j < |t| && Parent(j) >= lo && Parent(j) != c
      ensures !Less(t[Parent(j)], t[j])
    {
      if Parent(j) == i { WorseChildDominates(s, i, j); }
    }
    forall j {:trigger Parent(j)} | 0 < j < |t| && Parent(j) == c && c > 0 && Parent(c) >= lo
      ensures !Less(t[Parent(c)], t[j])
    {
      assert t[j] == s[j];
    }
  }

  lemma {:induction false} SiftUpRestores(s: seq<SamplePoint>, c: nat)
    requires c < |s| && HeapAboveBut(s, c)
    ensures HeapFrom(SiftUp(s, c), 0)
    ensures multiset(SiftUp(s, c)) == multiset(s)
    decreases c
  {
    if c != 0 && Less(s[Parent(c)], s[c]) {
      var t := Swap(s, Parent(c), c);
      forall j {:trigger Parent(j)} | 0 < j < |t| && j != Parent(c)
        ensures !Less(t[Parent(j)], t[j])
      {
        assert s[j] == s[j];
      }
      forall j {:trigger Parent(j)} | 0 < j < |t| && Parent(j) == Parent(c) && 0 < Parent(c) < |t|
        ensures !Less(t[Parent(Parent(c))], t[j])
      {
        assert s[j] == s[j] && s[Parent(c)] == s[Parent(c)];
      }
      SiftUpRestores(t, Parent(c));
    }
  }

  lemma {:induction false} RootIsWorst(s: seq<SamplePoint>, j: nat)
    requires HeapFrom(s, 0) && j < |s|
    ensures !Less(s[0], s[j])
  {
    if j > 0 {
      RootIsWorst(s, Parent(j));
      assert s[j] == s[j];
    }
  }

  method ChooseChild(a: array<SamplePoint>, n: nat, parent: nat) returns (child: nat)
    requires n <= a.Length && parent + parent + 1 < n
    ensures child == WorseChild(a[..n], parent)
  {
    child := parent * 2 + 1;
    if child + 1 < n && Less(a[child], a[child + 1]) { child := child + 1; }
  }

  /** siftDownWorst, in place on the first n slots of a. */
  method SiftDownWorst(a: array<SamplePoint>, n: nat, start: nat)
    requires n <= a.Length
    modifies a
    ensures a[..n] == SiftDown(old(a[..n]), start)
    ensures a[n..] == old(a[n..])
  {
    var parent := start;
    while parent * 2 + 1 < n
      invariant SiftDown(a[..n], parent) == SiftDown(old(a[..n]), start)
      invariant a[n..] == old(a[n..])
      decreases n - parent
    {
      ghost var s := a[..n];
      var child := ChooseChild(a, n, parent);
      if !Less(a[parent], a[child]) { return; }
      a[parent], a[child] := a[child], a[parent];
      assert a[..n] == Swap(s, parent, child);
      parent := child;
    }
  }

  /** The sift-up loop after an append, in place on the first n slots of a. */
  method SiftUpWorst(a: array<SamplePoint>, n: nat)
    requires 0 < n <= a.Length
    modifies a
    ensures a[..n] == SiftUp(old(a[..n]), n - 1)
    ensures a[n..] == old(a[n..])
  {
    var child := n - 1;
    while child > 0
      invariant 0 <= child < n
      invariant SiftUp(a[..n], child) == SiftUp(old(a[..n]), n - 1)
      invariant a[n..] == old(a[n..])
    {
      ghost var s := a[..n];
      var parent := (child - 1) / 2;
      if !Less(a[parent], a[child]) { return; }
      a[parent], a[child] := a[child], a[parent];
      assert a[..n] == Swap(s, parent, child);
      child := parent;
    }
  }

  /** The sequence holds exactly the points of t, once each, in heap order. */
  ghost predicate HeapOf(s: seq<SamplePoint>, t: set<SamplePoint>) {
    HeapFrom(s, 0) && multiset(s) == multiset(t)
  }

  lemma HeapWorst(h: Hash, s: seq<SamplePoint>, t: set<SamplePoint>)
    requires HeapOf(s, t) && Consistent(h, t)
    ensures |s| == |t| && (forall p :: p in s <==> p in t)
    ensures |s| > 0 ==> IsWorst(t, s[0])
  {
    assert |multiset(s)| == |s| && |multiset(t)| == |t|;
    forall p ensures p in s <==> p in t {
      assert p in s <==> p in multiset(s);
      assert p in t <==> p in multiset(t);
    }
    if |s| > 0 {
      forall p | p in t && p != s[0]
        ensures Less(p, s[0])
      {
        var j :| 0 <= j < |s| && s[j] == p;
        RootIsWorst(s, j);
      }
    }
  }

  /** Replacing the root and sifting down: the old worst point leaves, p enters. */
  lemma ReplaceRoot(s: seq<SamplePoint>, t: set<SamplePoint>, p: SamplePoint)
    requires HeapOf(s, t) && |s| > 0 && p !in t
    ensures HeapOf(SiftDown(s[0 := p], 0), t - {s[0]} + {p})
  {
    var r := s[0 := p];
    forall j {:trigger Parent(j)} | 0 < j < |r| && Parent(j) >= 0 && Parent(j) != 0
      ensures !Less(r[Parent(j)], r[j])
    {
      assert r[j] == s[j];
    }
    SiftDownRestores(r, 0, 0);
    assert s[0] in multiset(s);
    assert multiset(t - {s[0]} + {p}) == multiset(t) - multiset{s[0]} + multiset{p};
  }

  /** Appending and sifting up: p enters. */
  lemma AppendLeaf(s: seq<SamplePoint>, t: set<SamplePoint>, p: SamplePoint)
    requires HeapOf(s, t) && p !in t
    ensures HeapOf(SiftUp(s + [p], |s|), t + {p})
  {
    var r := s + [p];
    forall j {:trigger Parent(j)} | 0 < j < |r| && j != |s|
      ensures !Less(r[Parent(j)], r[j])
    {
      assert r[j] == s[j];
    }
    SiftUpRestores(r, |s|);
    assert multiset(t + {p}) == multiset(t) + multiset{p};
  }

  /** Heap order for the first k slots, built from the last parent down to the root. */
  method Heapify(a: array<SamplePoint>, k: nat, ghost t: set<SamplePoint>)
    requires k <= a.Length && multiset(a[..k]) == multiset(t)
    modifies a
    ensures HeapOf(a[..k], t)
    ensures a[k..] == old(a[k..])
  {
    var index := k / 2 - 1;
    while index >= 0
      invariant -1 <= index <= k / 2 - 1 || (index == -1 && k < 2)
      invariant HeapFrom(a[..k], index + 1) && multiset(a[..k]) == multiset(t)
      invariant a[k..] == old(a[k..])
    {
      ghost var s := a[..k];
      SiftDownRestores(s, index, index);
      SiftDownWorst(a, k, index);
      index := index - 1;
    }
  }

  /** heap[0] = p, then sift down. */
  method ReplaceWorst(a: array<SamplePoint>, n: nat, p: SamplePoint, ghost t: set<SamplePoint>)
    requires 0 < n <= a.Length && HeapOf(a[..n], t) && p !in t
    modifies a
    ensures HeapOf(a[..n], t - {old(a[0])} + {p})
    ensures a[n..] == old(a[n..])
  {
    ghost var s := a[..n];
    ReplaceRoot(s, t, p);
    a[0] := p;
    assert a[..n] == s[0 := p];
    SiftDownWorst(a, n, 0);
  }

  /** append(heap, p), then sift up. */
  method AppendWorst(a: array<SamplePoint>, n: nat, p: SamplePoint, ghost t: set<SamplePoint>)
    requires n < a.Length && HeapOf(a[..n], t) && p !in t
    modifies a
    ensures HeapOf(a[..n + 1], t + {p})
  {
    ghost var s := a[..n];
    AppendLeaf(s, t, p);
    a[n] := p;
    assert a[..n + 1] == s + [p];
    SiftUpWorst(a, n + 1);
  }
}
