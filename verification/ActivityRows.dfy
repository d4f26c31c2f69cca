/**
  Activity rows: every event is counted once per grain that still retains it, under the storage
  bucket of its time. Rows add up as overview rows do; the columns activity does not have stay zero.
 */
module ActivityRows {
  import opened Wrappers
  import opened ActivityGrain
  import opened Overview

  const DAY: int := 86400

  datatype ActivityEvent = ActivityEvent(time: Instant, instance: string, group: string, failed: bool, tokens: Tokens)

  // ----- one event -----

  /** Retention in days, if the grain's rows expire. */
  function Retention(g: Grain): Option<int> {
    match g
    case Short => Some(3)
    case Medium => Some(8)
    case Long => Some(31)
    case _ => None
  }

  /** The event is not before the grain's cutoff. */
  predicate Retained(g: Grain, t: Instant, now: Instant) {
    var days := Retention(g);
    days.Some? ==>
      var cutoff := now.sec - days.value * DAY;
      t.sec > cutoff || (t.sec == cutoff && t.nanos >= now.nanos)
  }

  function GrainName(g: Grain): string {
    match g
    case Short => "short"
    case Medium => "medium"
    case Long => "long"
    case _ => "daily"
  }

  function RowOf(e: ActivityEvent): Row {
    ZERO.(successes := if e.failed then 0 else 1, failures := if e.failed then 1 else 0,
          tokens := e.tokens.(cached := 0))
  }

  function KeyFor(e: ActivityEvent, g: Grain, b: Bucket): Key { Key(b.start, [e.instance, GrainName(g), e.group]) }

  /** p posts the event under the bucket of its time on the grain's grid. */
  ghost predicate PostedFor(cal: Calendar, e: ActivityEvent, g: Grain, p: Posting) {
    exists b :: OnGrid(cal, g, b) && Contains(b, e.time) && p == Posting(KeyFor(e, g, b), RowOf(e))
  }

  lemma PostingUnique(cal: Calendar, e: ActivityEvent, g: Grain, p: Posting, q: Posting)
    requires ValidCalendar(cal) && PostedFor(cal, e, g, p) && PostedFor(cal, e, g, q)
    ensures p == q
  {
    var a :| OnGrid(cal, g, a) && Contains(a, e.time) && p == Posting(KeyFor(e, g, a), RowOf(e));
    var b :| OnGrid(cal, g, b) && Contains(b, e.time) && q == Posting(KeyFor(e, g, b), RowOf(e));
    GridUnique(cal, g, a, b, e.time);
  }

  // ----- all grains, all events -----

  const GRAINS: seq<Grain> := [Short, Medium, Long, Daily]

  datatype Duty = Duty(event: ActivityEvent, grain: Grain)

  /** The pairs of event and retaining grain, in the order of the two loops. */
  function DutiesOf(e: ActivityEvent, grains: seq<Grain>, now: Instant): seq<Duty> {
    if grains == [] then []
    else
      var g := grains[|grains| - 1];
      DutiesOf(e, grains[..|grains| - 1], now) + if Retained(g, e.time, now) then [Duty(e, g)] else []
  }

  function Duties(es: seq<ActivityEvent>, now: Instant): seq<Duty> {
    if es == [] then []
    else Duties(es[..|es| - 1], now) + DutiesOf(es[|es| - 1], GRAINS, now)
  }

  /** One posting per duty. */
  ghost predicate Posted(cal: Calendar, ds: seq<Duty>, ps: seq<Posting>) {
    |ps| == |ds| && forall i :: 0 <= i < |ds| ==> PostedFor(cal, ds[i].event, ds[i].grain, ps[i])
  }

  lemma PostedUnique(cal: Calendar, ds: seq<Duty>, ps: seq<Posting>, qs: seq<Posting>)
    requires ValidCalendar(cal) && Posted(cal, ds, ps) && Posted(cal, ds, qs)
    ensures ps == qs
  {
    forall i | 0 <= i < |ds| ensures ps[i] == qs[i] { PostingUnique(cal, ds[i].event, ds[i].grain, ps[i], qs[i]); }
  }

  lemma {:induction false} DutiesAppend(a: seq<ActivityEvent>, b: seq<ActivityEvent>, now: Instant)
    ensures Duties(a + b, now) == Duties(a, now) + Duties(b, now)
  {
    if b == [] {
      assert a + b == a;
      return;
    }
    var n := |b| - 1;
    DutiesAppend(a, b[..n], now);
    assert (a + b)[..|a + b| - 1] == a + b[..n];
    ConcatAssoc(Duties(a, now), Duties(b[..n], now), DutiesOf(b[n], GRAINS, now));
  }

  lemma PostedJoin(cal: Calendar, ds: seq<Duty>, ps: seq<Posting>, es: seq<Duty>, qs: seq<Posting>)
    requires Posted(cal, ds, ps) && Posted(cal, es, qs)
    ensures Posted(cal, ds + es, ps + qs)
  {
  }

  /** rows are what the events should produce. */
  ghost predicate RowsFor(cal: Calendar, es: seq<ActivityEvent>, now: Instant, rows: Rows) {
    exists ps :: Posted(cal, Duties(es, now), ps) && rows == Grouped(ps)
  }

  /** The rows of two pages together are the keyed merge of the rows of each. */
  lemma ActivityRowsAppend(cal: Calendar, a: seq<ActivityEvent>, b: seq<ActivityEvent>, now: Instant,
                           ra: Rows, rb: Rows, rows: Rows)
    requires ValidCalendar(cal)
    requires RowsFor(cal, a, now, ra) && RowsFor(cal, b, now, rb) && RowsFor(cal, a + b, now, rows)
    ensures rows == MergeRows(ra, rb)
  {
    var pa :| Posted(cal, Duties(a, now), pa) && ra == Grouped(pa);
    var pb :| Posted(cal, Duties(b, now), pb) && rb == Grouped(pb);
    var ps :| Posted(cal, Duties(a + b, now), ps) && rows == Grouped(ps);
    DutiesAppend(a, b, now);
    PostedJoin(cal, Duties(a, now), pa, Duties(b, now), pb);
    PostedUnique(cal, Duties(a + b, now), ps, pa + pb);
    GroupedAppend(pa, pb);
  }

  /** Every retained duty is one success or one failure; the rows add up to exactly that. */
  lemma ActivityRowsConserve(cal: Calendar, es: seq<ActivityEvent>, now: Instant, rows: Rows, ks: seq<Key>)
    requires RowsFor(cal, es, now, rows) && Distinct(ks) && forall k :: k in rows ==> k in ks
    ensures var t := SumOver(rows, ks);
            t.successes + t.failures == |Duties(es, now)| && t.tokens == DutyTokens(Duties(es, now))
  {
    var ps: seq<Posting> :| Posted(cal, Duties(es, now), ps) && rows == Grouped(ps);
    assert forall i :: 0 <= i < |ps| ==> ps[i].key in rows;
    RowsConserve(ps, ks);
    PostedTotals(cal, Duties(es, now), ps);
  }

  function DutyTokens(ds: seq<Duty>): Tokens {
    if ds == [] then Tokens(0, 0, 0, 0, 0, 0, 0)
    else PlusTokens(DutyTokens(ds[..|ds| - 1]), ds[|ds| - 1].event.tokens.(cached := 0))
  }

  lemma {:induction false} PostedTotals(cal: Calendar, ds: seq<Duty>, ps: seq<Posting>)
    requires Posted(cal, ds, ps)
    ensures Total(ps).successes + Total(ps).failures == |ds| && Total(ps).tokens == DutyTokens(ds)
  {
    if ds == [] { return; }
    var n := |ds| - 1;
    PostedTotals(cal, ds[..n], ps[..n]);
    assert PostedFor(cal, ds[n].event, ds[n].grain, ps[n]);
  }

  /** The daily grain never expires: every event is counted there. */
  lemma DailyAlwaysCounts(e: ActivityEvent, now: Instant)
    ensures Duty(e, Daily) in DutiesOf(e, GRAINS, now)
  {
    assert GRAINS[3] == Daily;
  }

  // ----- what is retained and counted -----

  function Nanoseconds(t: Instant): int { t.sec * 1_000_000_000 + t.nanos }

  /** Three, eight and thirty-one days back from now; the daily rows for ever. */
  lemma RetentionMeaning(t: Instant, now: Instant)
    requires 0 <= t.nanos < 1_000_000_000 && 0 <= now.nanos < 1_000_000_000
    ensures Retained(Short, t, now) <==> Nanoseconds(t) >= Nanoseconds(now) - 3 * 24 * 3600 * 1_000_000_000
    ensures Retained(Medium, t, now) <==> Nanoseconds(t) >= Nanoseconds(now) - 8 * 24 * 3600 * 1_000_000_000
    ensures Retained(Long, t, now) <==> Nanoseconds(t) >= Nanoseconds(now) - 31 * 24 * 3600 * 1_000_000_000
    ensures Retained(Daily, t, now)
  {
  }

  /** An event has exactly the duties of the four grains that retain it, each once. */
  lemma DutiesMeaning(e: ActivityEvent, now: Instant, d: Duty)
    ensures d in DutiesOf(e, GRAINS, now) <==>
              d.event == e && d.grain != Other && Retained(d.grain, e.time, now)
    ensures |DutiesOf(e, GRAINS, now)| ==
            (if Retained(Short, e.time, now) then 1 else 0) + (if Retained(Medium, e.time, now) then 1 else 0) +
            (if Retained(Long, e.time, now) then 1 else 0) + (if Retained(Daily, e.time, now) then 1 else 0)
  {
    DutiesSnoc(e, [], Short, now);
    DutiesSnoc(e, [Short], Medium, now);
    DutiesSnoc(e, [Short, Medium], Long, now);
    DutiesSnoc(e, [Short, Medium, Long], Daily, now);
    assert [] + [Short] == [Short] && [Short] + [Medium] == [Short, Medium];
    assert [Short, Medium] + [Long] == [Short, Medium, Long] && [Short, Medium, Long] + [Daily] == GRAINS;
  }

  lemma DutiesSnoc(e: ActivityEvent, grains: seq<Grain>, g: Grain, now: Instant)
    ensures DutiesOf(e, grains + [g], now) ==
            DutiesOf(e, grains, now) + if Retained(g, e.time, now) then [Duty(e, g)] else []
  {
    assert (grains + [g])[..|grains|] == grains;
  }

  ghost function FailedDuties(ds: seq<Duty>): set<int> { set i | 0 <= i < |ds| && ds[i].event.failed }

  /** The rows' failures are the failed duties, and their successes are all others. */
  lemma {:induction false} OutcomesCount(cal: Calendar, ds: seq<Duty>, ps: seq<Posting>)
    requires Posted(cal, ds, ps)
    ensures Total(ps).failures == |FailedDuties(ds)| && Total(ps).successes == |ds| - |FailedDuties(ds)|
    ensures Total(ps).requests == 0 && Total(ps).cost == 0.0
  {
    if ds == [] { return; }
    var n := |ds| - 1;
    OutcomesCount(cal, ds[..n], ps[..n]);
    assert PostedFor(cal, ds[n].event, ds[n].grain, ps[n]);
    FailedDutiesStep(ds);
  }

  lemma FailedDutiesStep(ds: seq<Duty>)
    requires ds != []
    ensures |FailedDuties(ds)| == |FailedDuties(ds[..|ds| - 1])| + if ds[|ds| - 1].event.failed then 1 else 0
  {
    var n := |ds| - 1;
    forall i ensures i in FailedDuties(ds) <==> i in FailedDuties(ds[..n]) || (i == n && ds[n].event.failed) {
      if 0 <= i < n { assert ds[..n][i] == ds[i]; }
    }
    OneMore(FailedDuties(ds[..n]), FailedDuties(ds), n, ds[n].event.failed);
  }

  // ----- building -----

  /** The row's columns counted up by one event. */
  method CountUp(before: Row, e: ActivityEvent) returns (row: Row)
    ensures row == Plus(before, RowOf(e))
  {
    row := before;
    if e.failed {
      row := row.(failures := row.failures + 1);
    } else {
      row := row.(successes := row.successes + 1);
    }
    row := row.(tokens := PlusTokens(row.tokens, e.tokens.(cached := 0)));
  }

  /** The key of the event's row in a grain. */
  method FindKey(cal: Calendar, e: ActivityEvent, g: Grain) returns (key: Key)
    requires ValidCalendar(cal) && g != Other
    ensures PostedFor(cal, e, g, Posting(key, RowOf(e)))
  {
    var bucket := BucketForTimestamp(cal, g, e.time);
    key := KeyFor(e, g, bucket.value);
  }

  /** One duty: the row is made on first use, then counted up. */
  method Count(cal: Calendar, rows: Rows, d: Duty, ghost ps: seq<Posting>) returns (r: Rows, ghost p: Posting)
    requires ValidCalendar(cal) && d.grain != Other && rows == Grouped(ps)
    ensures PostedFor(cal, d.event, d.grain, p) && r == Grouped(ps + [p])
  {
    var key := FindKey(cal, d.event, d.grain);
    var row := CountUp(At(rows, key), d.event);
    r := rows[key := row];
    p := Posting(key, RowOf(d.event));
    GroupedStep(ps, p);
  }

  /** The inner loop: one event over the four grains. */
  method CountEvent(cal: Calendar, rows: Rows, e: ActivityEvent, now: Instant, ghost ds: seq<Duty>,
                    ghost ps: seq<Posting>)
    returns (r: Rows, ghost qs: seq<Posting>)
    requires ValidCalendar(cal) && Posted(cal, ds, ps) && rows == Grouped(ps)
    ensures Posted(cal, ds + DutiesOf(e, GRAINS, now), qs) && r == Grouped(qs)
  {
    r, qs := rows, ps;
    for n := 0 to |GRAINS|
      invariant Posted(cal, ds + DutiesOf(e, GRAINS[..n], now), qs) && r == Grouped(qs)
    {
      assert GRAINS[..n + 1][..n] == GRAINS[..n];
      var g := GRAINS[n];
      if Retained(g, e.time, now) {
        ghost var p;
        ghost var before := qs;
        r, p := Count(cal, r, Duty(e, g), qs);
        qs := qs + [p];
        PostedOneMore(cal, ds + DutiesOf(e, GRAINS[..n], now), before, Duty(e, g), p);
        ConcatAssoc(ds, DutiesOf(e, GRAINS[..n], now), [Duty(e, g)]);
      }
    }
    assert GRAINS[..|GRAINS|] == GRAINS;
  }

  lemma PostedOneMore(cal: Calendar, ds: seq<Duty>, ps: seq<Posting>, d: Duty, p: Posting)
    requires Posted(cal, ds, ps) && PostedFor(cal, d.event, d.grain, p)
    ensures Posted(cal, ds + [d], ps + [p])
  {
  }

  /** BuildRows. */
  method BuildActivityRows(cal: Calendar, es: seq<ActivityEvent>, now: Instant) returns (rows: Rows)
    requires ValidCalendar(cal)
    ensures RowsFor(cal, es, now, rows)
  {
    rows := map[];
    ghost var ps: seq<Posting> := [];
    assert Grouped([]) == map[];
    for i := 0 to |es|
      invariant Posted(cal, Duties(es[..i], now), ps) && rows == Grouped(ps)
    {
      assert es[..i + 1][..i] == es[..i];
      rows, ps := CountEvent(cal, rows, es[i], now, Duties(es[..i], now), ps);
    }
    assert es[..|es|] == es;
  }
}
