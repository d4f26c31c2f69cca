/**
  Hourly and daily overview rows. An event adds one contribution to the row of its hour key and
  one to the row of its day key; amounts and speeds are exact reals.
 */
module Overview {
  import opened Wrappers

  /** Bucket start and the normalised dimensions. */
  datatype Key = Key(start: int, dimensions: seq<string>)

  datatype Cost = Finite(usd: real) | NotFinite

  datatype Tokens = Tokens(input: int, output: int, reasoning: int, cached: int,
                           cacheRead: int, cacheCreation: int, total: int)

  datatype Event = Event(id: int, hour: Key, day: Key, cost: Option<Cost>, costAvailable: Option<bool>,
                         failed: bool, tokens: Tokens, latency: int, ttft: Option<int>)

  datatype Speeds = Speeds(sum: real, count: int, decodeSum: real, decodeCount: int)

  datatype Row = Row(cost: real, unavailable: int, requests: int, successes: int, failures: int,
                     tokens: Tokens, speeds: Speeds)

  type Rows = map<Key, Row>

  // ----- rows add up -----

  function PlusTokens(a: Tokens, b: Tokens): Tokens {
    Tokens(a.input + b.input, a.output + b.output, a.reasoning + b.reasoning, a.cached + b.cached,
           a.cacheRead + b.cacheRead, a.cacheCreation + b.cacheCreation, a.total + b.total)
  }

  function PlusSpeeds(a: Speeds, b: Speeds): Speeds {
    Speeds(a.sum + b.sum, a.count + b.count, a.decodeSum + b.decodeSum, a.decodeCount + b.decodeCount)
  }

  function Plus(a: Row, b: Row): Row {
    Row(a.cost + b.cost, a.unavailable + b.unavailable, a.requests + b.requests, a.successes + b.successes,
        a.failures + b.failures, PlusTokens(a.tokens, b.tokens), PlusSpeeds(a.speeds, b.speeds))
  }

  const ZERO: Row := Row(0.0, 0, 0, 0, 0, Tokens(0, 0, 0, 0, 0, 0, 0), Speeds(0.0, 0, 0.0, 0))

  lemma PlusLaws(a: Row, b: Row, c: Row)
    ensures Plus(Plus(a, b), c) == Plus(a, Plus(b, c))
    ensures Plus(a, b) == Plus(b, a)
    ensures Plus(a, ZERO) == a
  {
  }

  // ----- one event -----

  predicate Priced(e: Event) { e.cost.Some? && e.costAvailable.Some? && e.cost.value.Finite? }

  function SpeedOf(e: Event): Speeds {
    if !(e.tokens.output > 0 && e.latency > 0) then Speeds(0.0, 0, 0.0, 0)
    else
      var speed := e.tokens.output as real * 1000.0 / e.latency as real;
      if e.ttft.Some? && 0 < e.ttft.value < e.latency
      then Speeds(speed, 1, e.tokens.output as real * 1000.0 / (e.latency - e.ttft.value) as real, 1)
      else Speeds(speed, 1, 0.0, 0)
  }

  /** What one priced event is worth to its hour and to its day. */
  function Contribution(e: Event): Row
    requires Priced(e)
  {
    Row(e.cost.value.usd, if e.costAvailable.value then 0 else 1, 1, if e.failed then 0 else 1,
        if e.failed then 1 else 0, e.tokens, SpeedOf(e))
  }

  datatype Period = Hour | Day

  function KeyOf(e: Event, p: Period): Key { if p == Hour then e.hour else e.day }

  // ----- grouping -----

  /** An amount to be added under a key. */
  datatype Posting = Posting(key: Key, row: Row)

  /** Everything posted under key k. */
  function KeyTotal(ps: seq<Posting>, k: Key): Row {
    if ps == [] then ZERO
    else
      var n := |ps| - 1;
      if ps[n].key == k then Plus(KeyTotal(ps[..n], k), ps[n].row) else KeyTotal(ps[..n], k)
  }

  function Total(ps: seq<Posting>): Row {
    if ps == [] then ZERO else Plus(Total(ps[..|ps| - 1]), ps[|ps| - 1].row)
  }

  ghost function Keys(ps: seq<Posting>): set<Key> { set i | 0 <= i < |ps| :: ps[i].key }

  /** One row per key that occurs, holding that key's total. */
  ghost function Grouped(ps: seq<Posting>): Rows { map k | k in Keys(ps) :: KeyTotal(ps, k) }

  function At(rows: Rows, k: Key): Row { if k in rows then rows[k] else ZERO }

  /** Adding rows into rows, key by key, as the storage layer does. */
  function MergeRows(a: Rows, b: Rows): Rows {
    map k | k in a.Keys + b.Keys :: Plus(At(a, k), At(b, k))
  }

  lemma {:induction false} AbsentKey(ps: seq<Posting>, k: Key)
    requires k !in Keys(ps)
    ensures KeyTotal(ps, k) == ZERO
  {
    if ps != [] {
      var n := |ps| - 1;
      assert ps[n].key in Keys(ps);
      assert forall i :: 0 <= i < n ==> ps[..n][i] == ps[i] && ps[i].key in Keys(ps);
      AbsentKey(ps[..n], k);
    }
  }

  lemma AtGrouped(ps: seq<Posting>, k: Key)
    ensures At(Grouped(ps), k) == KeyTotal(ps, k)
  {
    if k !in Keys(ps) { AbsentKey(ps, k); }
  }

  lemma {:induction false} KeyTotalAppend(a: seq<Posting>, b: seq<Posting>, k: Key)
    ensures KeyTotal(a + b, k) == Plus(KeyTotal(a, k), KeyTotal(b, k))
  {
    if b == [] {
      assert a + b == a;
      PlusLaws(KeyTotal(a, k), ZERO, ZERO);
    } else {
      var n := |b| - 1;
      KeyTotalAppend(a, b[..n], k);
      assert (a + b)[..|a + b| - 1] == a + b[..n] && (a + b)[|a + b| - 1] == b[n];
      var x, y, r := KeyTotal(a, k), KeyTotal(b[..n], k), b[n].row;
      PlusLaws(x, y, r);
      if b[n].key == k {
        assert KeyTotal(a + b, k) == Plus(KeyTotal(a + b[..n], k), r);
        assert KeyTotal(b, k) == Plus(y, r);
        assert KeyTotal(a + b, k) == Plus(Plus(x, y), r);
      }
    }
  }

  lemma KeysAppend(a: seq<Posting>, b: seq<Posting>)
    ensures Keys(a + b) == Keys(a) + Keys(b)
  {
    forall k | k in Keys(a) + Keys(b) ensures k in Keys(a + b) {
      if k in Keys(a) {
        var i :| 0 <= i < |a| && a[i].key == k;
        assert (a + b)[i].key == k;
      } else {
        var i :| 0 <= i < |b| && b[i].key == k;
        assert (a + b)[|a| + i].key == k;
      }
    }
  }

  /** Grouping two pages together is merging the rows of each. */
  lemma GroupedAppend(a: seq<Posting>, b: seq<Posting>)
    ensures Grouped(a + b) == MergeRows(Grouped(a), Grouped(b))
  {
    KeysAppend(a, b);
    forall k | k in Keys(a + b) ensures KeyTotal(a + b, k) == Plus(At(Grouped(a), k), At(Grouped(b), k)) {
      KeyTotalAppend(a, b, k);
      AtGrouped(a, k);
      AtGrouped(b, k);
    }
  }

  lemma MergeAssocAt(a: Rows, b: Rows, c: Rows, k: Key)
    ensures At(MergeRows(MergeRows(a, b), c), k) == At(MergeRows(a, MergeRows(b, c)), k)
  {
    MergeAt(a, b, k);
    MergeAt(b, c, k);
    MergeAt(MergeRows(a, b), c, k);
    MergeAt(a, MergeRows(b, c), k);
    PlusLaws(At(a, k), At(b, k), At(c, k));
  }

  lemma MergeAssoc(a: Rows, b: Rows, c: Rows)
    ensures MergeRows(MergeRows(a, b), c) == MergeRows(a, MergeRows(b, c))
  {
    var l, r := MergeRows(MergeRows(a, b), c), MergeRows(a, MergeRows(b, c));
    MergeKeys(a, b);
    MergeKeys(b, c);
    MergeKeys(MergeRows(a, b), c);
    MergeKeys(a, MergeRows(b, c));
    SameRows(l, r) by {
      forall k ensures At(l, k) == At(r, k) { MergeAssocAt(a, b, c, k); }
    }
  }

  lemma MergeKeys(a: Rows, b: Rows)
    ensures MergeRows(a, b).Keys == a.Keys + b.Keys
  {
  }

  lemma SameRows(a: Rows, b: Rows)
    requires a.Keys == b.Keys && forall k :: At(a, k) == At(b, k)
    ensures a == b
  {
    assert forall k :: k in a ==> a[k] == At(a, k) && b[k] == At(b, k);
  }

  lemma MergeAt(a: Rows, b: Rows, k: Key)
    ensures At(MergeRows(a, b), k) == Plus(At(a, k), At(b, k))
  {
  }

  lemma MergeEmpty(a: Rows)
    ensures MergeRows(a, map[]) == a
  {
  }

  // ----- conservation -----

  /** Each listed row, added up. */
  function SumOver(rows: Rows, ks: seq<Key>): Row {
    if ks == [] then ZERO else Plus(SumOver(rows, ks[..|ks| - 1]), At(rows, ks[|ks| - 1]))
  }

  predicate Distinct(ks: seq<Key>) { forall i, j :: 0 <= i < j < |ks| ==> ks[i] != ks[j] }

  /** The last posting is counted once if its key is listed, and otherwise not at all. */
  lemma {:induction false} SumOverStep(ps: seq<Posting>, ks: seq<Key>)
    requires ps != [] && Distinct(ks)
    ensures var n := |ps| - 1;
            SumOver(Grouped(ps), ks) == if ps[n].key in ks then Plus(SumOver(Grouped(ps[..n]), ks), ps[n].row)
                                        else SumOver(Grouped(ps[..n]), ks)
    decreases |ks|
  {
    if ks != [] {
      var n, m := |ps| - 1, |ks| - 1;
      SumOverStep(ps, ks[..m]);
      AtGrouped(ps, ks[m]);
      AtGrouped(ps[..n], ks[m]);
      assert ps[n].key in ks <==> ps[n].key in ks[..m] || ps[n].key == ks[m];
      var x, y, c := SumOver(Grouped(ps[..n]), ks[..m]), KeyTotal(ps[..n], ks[m]), ps[n].row;
      PlusLaws(x, y, c);
      PlusLaws(x, c, y);
      PlusLaws(y, c, x);
    }
  }

  /** Nothing is lost or counted twice: over any listing of the keys, the rows add up to the postings. */
  lemma {:induction false} RowsConserve(ps: seq<Posting>, ks: seq<Key>)
    requires Distinct(ks) && forall i :: 0 <= i < |ps| ==> ps[i].key in ks
    ensures SumOver(Grouped(ps), ks) == Total(ps)
  {
    if ps == [] {
      SumOverNothing(ks);
      assert Grouped(ps) == map[];
    } else {
      SumOverStep(ps, ks);
      RowsConserve(ps[..|ps| - 1], ks);
    }
  }

  lemma {:induction false} SumOverNothing(ks: seq<Key>)
    ensures SumOver(map[], ks) == ZERO
  {
    if ks != [] { SumOverNothing(ks[..|ks| - 1]); }
  }

  // ----- events as postings -----

  predicate AllPriced(es: seq<Event>) { forall i :: 0 <= i < |es| ==> Priced(es[i]) }

  function Postings(es: seq<Event>, p: Period): seq<Posting>
    requires AllPriced(es)
  {
    if es == [] then []
    else Postings(es[..|es| - 1], p) + [Posting(KeyOf(es[|es| - 1], p), Contribution(es[|es| - 1]))]
  }

  /** The rows the events should produce. */
  ghost function RowsOf(es: seq<Event>, p: Period): Rows
    requires AllPriced(es)
  {
    Grouped(Postings(es, p))
  }

  lemma {:induction false} PostingsAppend(a: seq<Event>, b: seq<Event>, p: Period)
    requires AllPriced(a) && AllPriced(b)
    ensures AllPriced(a + b) && Postings(a + b, p) == Postings(a, p) + Postings(b, p)
  {
    if b == [] {
      assert a + b == a;
    } else {
      var n := |b| - 1;
      PostingsAppend(a, b[..n], p);
      assert (a + b)[..|a + b| - 1] == a + b[..n];
    }
  }

  /** Building the rows of two pages together is merging the rows of each. */
  lemma RowsOfAppend(a: seq<Event>, b: seq<Event>, p: Period)
    requires AllPriced(a) && AllPriced(b)
    ensures AllPriced(a + b) && RowsOf(a + b, p) == MergeRows(RowsOf(a, p), RowsOf(b, p))
  {
    PostingsAppend(a, b, p);
    GroupedAppend(Postings(a, p), Postings(b, p));
  }

  /** Requests are events, each a success or a failure; and tokens add up, whichever period groups them. */
  lemma {:induction false} TotalCounts(es: seq<Event>, p: Period)
    requires AllPriced(es)
    ensures var t := Total(Postings(es, p));
            t.requests == |es| == t.successes + t.failures && t.tokens == TokenSum(es)
  {
    if es != [] {
      TotalCounts(es[..|es| - 1], p);
      assert Postings(es, p)[..|Postings(es, p)| - 1] == Postings(es[..|es| - 1], p);
    }
  }

  /** What the events are worth together, whatever they are grouped by. */
  function EventTotal(es: seq<Event>): Row
    requires AllPriced(es)
  {
    if es == [] then ZERO else Plus(EventTotal(es[..|es| - 1]), Contribution(es[|es| - 1]))
  }

  lemma {:induction false} TotalIsEventTotal(es: seq<Event>, p: Period)
    requires AllPriced(es)
    ensures Total(Postings(es, p)) == EventTotal(es)
  {
    if es == [] { return; }
    TotalIsEventTotal(es[..|es| - 1], p);
    var ps := Postings(es[..|es| - 1], p);
    assert (ps + [Posting(KeyOf(es[|es| - 1], p), Contribution(es[|es| - 1]))])[..|ps|] == ps;
  }

  lemma {:induction false} PostedKeys(es: seq<Event>, p: Period, ks: seq<Key>)
    requires AllPriced(es) && forall i :: 0 <= i < |es| ==> KeyOf(es[i], p) in ks
    ensures forall i :: 0 <= i < |Postings(es, p)| ==> Postings(es, p)[i].key in ks
  {
    if es == [] { return; }
    PostedKeys(es[..|es| - 1], p, ks);
  }

  /** Hourly and daily rows tell the same story: each kind adds up to the events, requests and tokens included. */
  lemma HourlyAndDailyAgree(es: seq<Event>, hours: seq<Key>, days: seq<Key>)
    requires AllPriced(es) && Distinct(hours) && Distinct(days)
    requires forall i :: 0 <= i < |es| ==> es[i].hour in hours && es[i].day in days
    ensures SumOver(RowsOf(es, Hour), hours) == EventTotal(es) == SumOver(RowsOf(es, Day), days)
    ensures EventTotal(es).requests == |es| == EventTotal(es).successes + EventTotal(es).failures
    ensures EventTotal(es).tokens == TokenSum(es)
  {
    PostedKeys(es, Hour, hours);
    PostedKeys(es, Day, days);
    RowsConserve(Postings(es, Hour), hours);
    RowsConserve(Postings(es, Day), days);
    TotalIsEventTotal(es, Hour);
    TotalIsEventTotal(es, Day);
    TotalCounts(es, Hour);
  }

  function TokenSum(es: seq<Event>): Tokens {
    if es == [] then Tokens(0, 0, 0, 0, 0, 0, 0)
    else PlusTokens(TokenSum(es[..|es| - 1]), es[|es| - 1].tokens)
  }

  // ----- what the columns count -----

  ghost function Failed(es: seq<Event>): set<int> { set i | 0 <= i < |es| && es[i].failed }

  ghost function Unpriced(es: seq<Event>): set<int> { set i | 0 <= i < |es| && es[i].costAvailable == Some(false) }

  /** Requests with output and a latency have a speed; those whose first token came in between also a decode speed. */
  ghost function Timed(es: seq<Event>): set<int> { set i | 0 <= i < |es| && HasSpeed(es[i]) }

  ghost function Streamed(es: seq<Event>): set<int> { set i | 0 <= i < |es| && HasDecodeSpeed(es[i]) }

  predicate HasSpeed(e: Event) { e.tokens.output > 0 && e.latency > 0 }

  predicate HasDecodeSpeed(e: Event) { e.tokens.output > 0 && e.ttft.Some? && 0 < e.ttft.value < e.latency }

  function CostSum(es: seq<Event>): real
    requires AllPriced(es)
  {
    if es == [] then 0.0 else CostSum(es[..|es| - 1]) + es[|es| - 1].cost.value.usd
  }

  lemma OneMore<T>(a: set<T>, b: set<T>, n: T, inside: bool)
    requires n !in a && forall i :: i in b <==> i in a || (i == n && inside)
    ensures |b| == |a| + if inside then 1 else 0
  {
    if inside { assert b == a + {n}; } else { assert b == a; }
  }

  lemma FailedStep(es: seq<Event>)
    requires es != []
    ensures |Failed(es)| == |Failed(es[..|es| - 1])| + if es[|es| - 1].failed then 1 else 0
  {
    var n := |es| - 1;
    var front := es[..n];
    forall i ensures i in Failed(es) <==> i in Failed(front) || (i == n && es[n].failed) {
      if 0 <= i < n { assert front[i] == es[i]; }
    }
    OneMore(Failed(front), Failed(es), n, es[n].failed);
  }

  lemma UnpricedStep(es: seq<Event>)
    requires es != []
    ensures |Unpriced(es)| == |Unpriced(es[..|es| - 1])| + if es[|es| - 1].costAvailable == Some(false) then 1 else 0
  {
    var n := |es| - 1;
    var front := es[..n];
    forall i ensures i in Unpriced(es) <==> i in Unpriced(front) || (i == n && es[n].costAvailable == Some(false)) {
      if 0 <= i < n { assert front[i] == es[i]; }
    }
    OneMore(Unpriced(front), Unpriced(es), n, es[n].costAvailable == Some(false));
  }

  lemma TimedStep(es: seq<Event>)
    requires es != []
    ensures |Timed(es)| == |Timed(es[..|es| - 1])| + if HasSpeed(es[|es| - 1]) then 1 else 0
  {
    var n := |es| - 1;
    var front := es[..n];
    forall i ensures i in Timed(es) <==> i in Timed(front) || (i == n && HasSpeed(es[n])) {
      if 0 <= i < n { assert front[i] == es[i]; }
    }
    OneMore(Timed(front), Timed(es), n, HasSpeed(es[n]));
  }

  lemma StreamedStep(es: seq<Event>)
    requires es != []
    ensures |Streamed(es)| == |Streamed(es[..|es| - 1])| + if HasDecodeSpeed(es[|es| - 1]) then 1 else 0
  {
    var n := |es| - 1;
    var front := es[..n];
    forall i ensures i in Streamed(es) <==> i in Streamed(front) || (i == n && HasDecodeSpeed(es[n])) {
      if 0 <= i < n { assert front[i] == es[i]; }
    }
    OneMore(Streamed(front), Streamed(es), n, HasDecodeSpeed(es[n]));
  }

  /** Each column of a total, by what it counts. */
  lemma {:induction false} ColumnsCount(es: seq<Event>)
    requires AllPriced(es)
    ensures var t := EventTotal(es);
            && t.requests == |es| && t.failures == |Failed(es)| && t.successes == |es| - |Failed(es)|
            && t.unavailable == |Unpriced(es)| && t.cost == CostSum(es) && t.tokens == TokenSum(es)
            && t.speeds.count == |Timed(es)| && t.speeds.decodeCount == |Streamed(es)|
  {
    if es != [] {
      FailedStep(es);
      UnpricedStep(es);
      TimedStep(es);
      StreamedStep(es);
      ColumnsCount(es[..|es| - 1]);
    }
  }

  /** A speed is output tokens per second: over the whole latency, and over what follows the first token. */
  lemma SpeedMeaning(e: Event)
    ensures e.tokens.output > 0 && e.latency > 0 ==>
              SpeedOf(e).sum * e.latency as real == 1000.0 * e.tokens.output as real
    ensures e.tokens.output > 0 && e.ttft.Some? && 0 < e.ttft.value < e.latency ==>
              SpeedOf(e).decodeSum * (e.latency - e.ttft.value) as real == 1000.0 * e.tokens.output as real
    ensures e.tokens.output <= 0 || e.latency <= 0 ==> SpeedOf(e) == Speeds(0.0, 0, 0.0, 0)
    ensures e.ttft.None? || e.ttft.value <= 0 || e.ttft.value >= e.latency ==>
              SpeedOf(e).decodeSum == 0.0 && SpeedOf(e).decodeCount == 0
  {
  }

  function WithKey(es: seq<Event>, p: Period, k: Key): seq<Event> {
    if es == [] then []
    else WithKey(es[..|es| - 1], p, k) + if KeyOf(es[|es| - 1], p) == k then [es[|es| - 1]] else []
  }

  /** A key has a row exactly if an event has the key, and the row is the total of precisely those events. */
  lemma {:induction false} RowMeaning(es: seq<Event>, p: Period, k: Key)
    requires AllPriced(es)
    ensures k in RowsOf(es, p) <==> exists i :: 0 <= i < |es| && KeyOf(es[i], p) == k
    ensures AllPriced(WithKey(es, p, k))
    ensures At(RowsOf(es, p), k) == EventTotal(WithKey(es, p, k))
  {
    PostedAt(es, p);
    AtGrouped(Postings(es, p), k);
    if k in RowsOf(es, p) {
      var i :| 0 <= i < |Postings(es, p)| && Postings(es, p)[i].key == k;
      assert KeyOf(es[i], p) == k;
    }
    if i :| 0 <= i < |es| && KeyOf(es[i], p) == k { assert Postings(es, p)[i].key == k; }
    WithKeyTotal(es, p, k);
  }

  lemma {:induction false} PostedAt(es: seq<Event>, p: Period)
    requires AllPriced(es)
    ensures |Postings(es, p)| == |es|
    ensures forall i :: 0 <= i < |es| ==> Postings(es, p)[i] == Posting(KeyOf(es[i], p), Contribution(es[i]))
  {
    if es != [] { PostedAt(es[..|es| - 1], p); }
  }

  lemma {:induction false} WithKeyTotal(es: seq<Event>, p: Period, k: Key)
    requires AllPriced(es)
    ensures AllPriced(WithKey(es, p, k)) && KeyTotal(Postings(es, p), k) == EventTotal(WithKey(es, p, k))
  {
    if es != [] {
      var n := |es| - 1;
      var e, ps, ws := es[n], Postings(es[..n], p), WithKey(es[..n], p, k);
      WithKeyTotal(es[..n], p, k);
      assert (ps + [Posting(KeyOf(e, p), Contribution(e))])[..|ps|] == ps;
      assert (ws + [e])[..|ws|] == ws && ws + [] == ws;
    }
  }

  lemma {:induction false} MaxIdMeaning(es: seq<Event>)
    ensures forall i :: 0 <= i < |es| ==> es[i].id <= MaxId(es)
    ensures MaxId(es) == 0 || exists i :: 0 <= i < |es| && es[i].id == MaxId(es)
    ensures MaxId(es) >= 0
  {
    if es != [] {
      var n := |es| - 1;
      MaxIdMeaning(es[..n]);
      assert forall i :: 0 <= i < n ==> es[..n][i].id == es[i].id;
    }
  }

  // ----- building -----

  /** First use of a key makes a zero row; then the counters and the speeds are added. */
  method AddEvent(rows: Rows, k: Key, e: Event) returns (r: Rows)
    requires Priced(e)
    ensures r == rows[k := Plus(At(rows, k), Contribution(e))]
  {
    r := if k in rows then rows else rows[k := ZERO];
    var row := r[k];
    row := row.(cost := row.cost + e.cost.value.usd, requests := row.requests + 1);
    if !e.costAvailable.value { row := row.(unavailable := row.unavailable + 1); }
    if e.failed {
      row := row.(failures := row.failures + 1);
    } else {
      row := row.(successes := row.successes + 1);
    }
    row := row.(tokens := PlusTokens(row.tokens, e.tokens));
    if e.tokens.output > 0 && e.latency > 0 {
      var speed := e.tokens.output as real * 1000.0 / e.latency as real;
      var s := row.speeds;
      s := s.(sum := s.sum + speed, count := s.count + 1);
      if e.ttft.Some? && 0 < e.ttft.value < e.latency {
        var decode := e.tokens.output as real * 1000.0 / (e.latency - e.ttft.value) as real;
        s := s.(decodeSum := s.decodeSum + decode, decodeCount := s.decodeCount + 1);
      }
      row := row.(speeds := s);
    }
    r := r[k := row];
  }

  lemma GroupedStep(ps: seq<Posting>, q: Posting)
    ensures Grouped(ps + [q]) == Grouped(ps)[q.key := Plus(At(Grouped(ps), q.key), q.row)]
  {
    KeysAppend(ps, [q]);
    assert [q][0].key == q.key && Keys([q]) == {q.key};
    AtGrouped(ps, q.key);
    assert (ps + [q])[..|ps|] == ps;
  }

  lemma RowsOfStep(es: seq<Event>, i: int, p: Period)
    requires 0 <= i < |es| && AllPriced(es[..i]) && Priced(es[i])
    ensures AllPriced(es[..i + 1])
    ensures var (k, rows) := (KeyOf(es[i], p), RowsOf(es[..i], p));
            RowsOf(es[..i + 1], p) == rows[k := Plus(At(rows, k), Contribution(es[i]))]
  {
    assert es[..i + 1][..i] == es[..i];
    GroupedStep(Postings(es[..i], p), Posting(KeyOf(es[i], p), Contribution(es[i])));
  }

  /** The largest id among the events, or 0. */
  function MaxId(es: seq<Event>): int {
    if es == [] then 0
    else
      var m := MaxId(es[..|es| - 1]);
      if es[|es| - 1].id > m then es[|es| - 1].id else m
  }

  datatype Built = Built(hourly: Rows, daily: Rows, maxEventId: int)

  /** BuildRows: the grouped totals of a fully priced batch, and an error for any other. */
  method BuildRows(es: seq<Event>) returns (r: Result<Built, int>)
    ensures r.Ok? <==> AllPriced(es)
    ensures r.Ok? ==> r.value == Built(RowsOf(es, Hour), RowsOf(es, Day), MaxId(es))
  {
    var hourly: Rows, daily: Rows, maxEventId := map[], map[], 0;
    for i := 0 to |es|
      invariant AllPriced(es[..i])
      invariant hourly == RowsOf(es[..i], Hour) && daily == RowsOf(es[..i], Day) && maxEventId == MaxId(es[..i])
    {
      var e := es[i];
      if e.cost.None? || e.costAvailable.None? { return Err(e.id); }
      if e.cost.value.NotFinite? { return Err(e.id); }
      RowsOfStep(es, i, Hour);
      RowsOfStep(es, i, Day);
      assert es[..i + 1][..i] == es[..i];
      if e.id > maxEventId { maxEventId := e.id; }
      hourly := AddEvent(hourly, e.hour, e);
      daily := AddEvent(daily, e.day, e);
    }
    assert es[..|es|] == es;
    return Ok(Built(hourly, daily, maxEventId));
  }
}
