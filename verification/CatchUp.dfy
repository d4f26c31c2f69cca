/**
  The controlled catch-up of the overview rows to a fixed target event. Pages are read in id order
  and each is applied in one transaction that compares the cursor it started from.
 */
module CatchUp {
  import opened Wrappers
  import opened Overview

  const PAGE_SIZE: int := 1000

  type Table = map<int, Event>

  /** Rows of the event table carry their own id. */
  predicate ValidTable(t: Table) { forall id :: id in t ==> t[id].id == id && id > 0 }

  /** All stored events with ids in (after, upTo], in id order. */
  function EventsIn(t: Table, after: int, upTo: int): seq<Event>
    decreases upTo - after
  {
    if upTo <= after then []
    else EventsIn(t, after, upTo - 1) + if upTo in t then [t[upTo]] else []
  }

  lemma {:induction false} EventsInSplit(t: Table, a: int, b: int, c: int)
    requires a <= b <= c
    ensures EventsIn(t, a, c) == EventsIn(t, a, b) + EventsIn(t, b, c)
    decreases c - b
  {
    if b < c { EventsInSplit(t, a, b, c - 1); }
  }

  /** The largest id of a run of events is where the run really ends. */
  lemma {:induction false} LastEventEndsRun(t: Table, after: int, upTo: int)
    requires ValidTable(t) && 0 <= after <= upTo
    ensures var es := EventsIn(t, after, upTo);
            if es == [] then MaxId(es) == 0
            else after < MaxId(es) <= upTo && MaxId(es) in t && EventsIn(t, after, MaxId(es)) == es
    decreases upTo - after
  {
    if after < upTo {
      LastEventEndsRun(t, after, upTo - 1);
      var rest := EventsIn(t, after, upTo - 1);
      if upTo in t {
        assert EventsIn(t, after, upTo) == rest + [t[upTo]];
        MaxIdAppend(rest, t[upTo]);
      } else {
        assert EventsIn(t, after, upTo) == rest;
      }
    }
  }

  lemma MaxIdAppend(es: seq<Event>, e: Event)
    ensures MaxId(es + [e]) == if e.id > MaxId(es) then e.id else MaxId(es)
  {
    assert (es + [e])[..|es|] == es;
  }

  /** Every call succeeds. */
  predicate Willing(answers: seq<bool>) { forall i :: 0 <= i < |answers| ==> answers[i] }

  /** What the range holds: the stored events above `after` up to `upTo`, each once, by ascending id. */
  lemma {:induction false} EventsInMeaning(t: Table, after: int, upTo: int)
    requires ValidTable(t)
    ensures var es := EventsIn(t, after, upTo);
            && (forall e :: e in es <==> after < e.id <= upTo && e.id in t && t[e.id] == e)
            && (forall i, j :: 0 <= i < j < |es| ==> es[i].id < es[j].id)
    decreases upTo - after
  {
    if after < upTo { EventsInMeaning(t, after, upTo - 1); }
  }

  class Store {
    const events: Table
    var cursor: int
    var hourly: Rows
    var daily: Rows
    /** Answers of the calls that may fail; once used up, calls succeed. */
    var answers: seq<bool>

    predicate Valid()
      reads this
    {
      ValidTable(events) && 0 <= cursor
    }

    constructor (events: Table, cursor: int, hourly: Rows, daily: Rows, answers: seq<bool>)
      requires ValidTable(events) && 0 <= cursor
      ensures Valid() && this.events == events && this.cursor == cursor
      ensures this.hourly == hourly && this.daily == daily && this.answers == answers
    {
      this.events, this.cursor, this.hourly, this.daily, this.answers := events, cursor, hourly, daily, answers;
    }

    method Ask() returns (ok: bool)
      modifies this`answers
      ensures old(answers) == [] ==> ok && answers == []
      ensures old(answers) != [] ==> ok == old(answers)[0] && answers == old(answers)[1..]
    {
      if answers == [] { return true; }
      ok, answers := answers[0], answers[1..];
    }

    /** LoadUsageAggregationEventPage: the lowest ids in (after, target], at most `limit` of them. */
    method LoadPage(after: int, target: int, limit: int) returns (page: seq<Event>, ghost end: int)
      requires 0 <= after && 0 < limit
      ensures page == EventsIn(events, after, end)
      ensures after <= end && |page| <= limit
      ensures after <= target ==> end <= target && (|page| < limit ==> end == target)
    {
      page := [];
      var id := after;
      while id < target && |page| < limit
        invariant after <= id && (after <= target ==> id <= target)
        invariant page == EventsIn(events, after, id) && |page| <= limit
        decreases target - id
      {
        id := id + 1;
        if id in events { page := page + [events[id]]; }
      }
      end := id;
    }

    /** ApplyUsageOverviewAggregationPage: all of it, or nothing when the cursor has moved or would not advance. */
    method Apply(expected: int, next: int, built: Built) returns (ok: bool)
      requires Valid()
      modifies this
      ensures Valid()
      ensures ok ==> old(cursor) == expected < next == cursor
      ensures ok ==> hourly == MergeRows(old(hourly), built.hourly) && daily == MergeRows(old(daily), built.daily)
      ensures !ok ==> cursor == old(cursor) && hourly == old(hourly) && daily == old(daily)
      ensures Willing(old(answers)) ==> Willing(answers) && (ok <==> old(cursor) == expected < next)
    {
      var reached := Ask();
      ok := reached && expected < next && cursor == expected;
      if ok {
        hourly, daily, cursor := MergeRows(hourly, built.hourly), MergeRows(daily, built.daily), next;
      }
    }

    /** applyControlledOverviewPage: one page, or an error that leaves everything as it was. */
    method ApplyPage(target: int) returns (ok: bool)
      requires Valid() && cursor < target
      modifies this
      ensures Valid()
      ensures ok ==> old(cursor) < cursor <= target && cursor in events && Counted(old(cursor), old(hourly), old(daily))
      ensures !ok ==> cursor == old(cursor) && hourly == old(hourly) && daily == old(daily)
      ensures Willing(old(answers)) ==> Willing(answers)
      ensures Willing(old(answers)) && !ok ==> target !in events || !AllPriced(EventsIn(events, old(cursor), target))
      ensures Willing(old(answers)) && !ok ==> Stuck(events, cursor, target)
    {
      var loaded := Ask();
      if !loaded { return false; }
      var page, end := LoadPage(cursor, target, PAGE_SIZE);
      assert IsPage(events, cursor, target, end);
      LastEventEndsRun(events, cursor, end);
      PageOfRun(events, cursor, end, target);
      if |page| == 0 { return false; }
      ok := BuildAndApply(page);
    }

    /** The rows of a page are built and applied together with its last id. */
    method BuildAndApply(page: seq<Event>) returns (ok: bool)
      requires Valid() && cursor < MaxId(page)
      modifies this
      ensures Valid() && (Willing(old(answers)) ==> Willing(answers) && (ok <==> AllPriced(page)))
      ensures ok ==> AllPriced(page) && cursor == MaxId(page)
      ensures ok ==> hourly == MergeRows(old(hourly), RowsOf(page, Hour))
      ensures ok ==> daily == MergeRows(old(daily), RowsOf(page, Day))
      ensures !ok ==> cursor == old(cursor) && hourly == old(hourly) && daily == old(daily)
    {
      var built := BuildRows(page);
      if built.Err? { return false; }
      ok := Apply(cursor, built.value.maxEventId, built.value);
    }

    /** The rows are those given with the events in (from, cursor] added in one go. */
    ghost predicate Counted(from: int, h: Rows, d: Rows)
      reads this
    {
      && AllPriced(EventsIn(events, from, cursor))
      && hourly == MergeRows(h, RowsOf(EventsIn(events, from, cursor), Hour))
      && daily == MergeRows(d, RowsOf(EventsIn(events, from, cursor), Day))
    }

    /**
      CatchUpOverviewTo. However it ends, the rows have grown by exactly the events up to where the
      cursor stands, none of them above the target; `admitted` is the work gate's answer.
     */
    method CatchUpOverviewTo(target: int, admitted: bool) returns (ok: bool)
      requires Valid()
      modifies this
      ensures Valid() && Counted(old(cursor), old(hourly), old(daily))
      ensures old(cursor) <= cursor && (cursor == old(cursor) || cursor <= target)
      ensures ok ==> cursor == if old(cursor) < target then target else old(cursor)
      ensures ok ==> Reachable(events, old(cursor), target)
      ensures Willing(old(answers)) && admitted ==> (ok <==> 0 <= target && Reachable(events, old(cursor), target))
      ensures Willing(old(answers)) && admitted && 0 <= target && !ok ==> Stuck(events, cursor, target)
    {
      NothingCounted(events, cursor, hourly, daily);
      if target < 0 || !admitted { return false; }
      ghost var from, h, d := cursor, hourly, daily;
      while true
        invariant Valid() && Counted(from, h, d)
        invariant from <= cursor && (cursor == from || cursor <= target)
        invariant cursor == from || cursor in events
        invariant Willing(old(answers)) ==> Willing(answers)
        decreases target - cursor
      {
        var live := Ask();
        if !live { return false; }
        if cursor >= target { return true; }
        ghost var before, bh, bd := cursor, hourly, daily;
        RestPriced(events, from, cursor, target);
        var applied := ApplyPage(target);
        if !applied { return false; }
        CountedOnwards(events, from, before, cursor, h, bh, hourly, Hour);
        CountedOnwards(events, from, before, cursor, d, bd, daily, Day);
      }
    }
  }

  /** The catch-up has nothing to do, or its target is stored and everything up to it is priced. */
  predicate Reachable(t: Table, cursor: int, target: int) {
    target <= cursor || (target in t && AllPriced(EventsIn(t, cursor, target)))
  }

  /** The events in (after, end] are the page that follows the cursor `after`. */
  ghost predicate IsPage(t: Table, after: int, target: int, end: int) {
    && after <= end <= target && |EventsIn(t, after, end)| <= 1000
    && (|EventsIn(t, after, end)| < 1000 ==> end == target)
  }

  /** Short of the target, and the next page is empty or holds an event without a price. */
  ghost predicate Stuck(t: Table, cursor: int, target: int) {
    cursor < target && exists end ::
      IsPage(t, cursor, target, end) && (EventsIn(t, cursor, end) == [] || !AllPriced(EventsIn(t, cursor, end)))
  }

  lemma NothingCounted(t: Table, cursor: int, h: Rows, d: Rows)
    ensures EventsIn(t, cursor, cursor) == []
    ensures h == MergeRows(h, RowsOf([], Hour)) && d == MergeRows(d, RowsOf([], Day))
  {
    MergeEmpty(h);
    MergeEmpty(d);
    assert Grouped([]) == map[];
  }

  /** A page is a first part of everything that is still to come. */
  lemma PageOfRun(t: Table, after: int, end: int, target: int)
    requires after <= end <= target
    ensures AllPriced(EventsIn(t, after, target)) ==> AllPriced(EventsIn(t, after, end))
    ensures EventsIn(t, after, end) == [] && end == target && after < target ==> target !in t
  {
    EventsInSplit(t, after, end, target);
    if AllPriced(EventsIn(t, after, target)) {
      forall i | 0 <= i < |EventsIn(t, after, end)| ensures Priced(EventsIn(t, after, end)[i]) {
        assert EventsIn(t, after, target)[i] == EventsIn(t, after, end)[i];
      }
    }
  }

  lemma RestPriced(t: Table, a: int, b: int, c: int)
    requires a <= b <= c
    ensures AllPriced(EventsIn(t, a, c)) ==> AllPriced(EventsIn(t, b, c))
  {
    EventsInSplit(t, a, b, c);
    if AllPriced(EventsIn(t, a, c)) {
      forall i | 0 <= i < |EventsIn(t, b, c)| ensures Priced(EventsIn(t, b, c)[i]) {
        assert EventsIn(t, a, c)[|EventsIn(t, a, b)| + i] == EventsIn(t, b, c)[i];
      }
    }
  }

  lemma CountedOnwards(t: Table, a: int, b: int, c: int, r0: Rows, r1: Rows, r2: Rows, p: Period)
    requires a <= b <= c && AllPriced(EventsIn(t, a, b)) && AllPriced(EventsIn(t, b, c))
    requires r1 == MergeRows(r0, RowsOf(EventsIn(t, a, b), p))
    requires r2 == MergeRows(r1, RowsOf(EventsIn(t, b, c), p))
    ensures AllPriced(EventsIn(t, a, c)) && r2 == MergeRows(r0, RowsOf(EventsIn(t, a, c), p))
  {
    EventsInSplit(t, a, b, c);
    RowsOfAppend(EventsIn(t, a, b), EventsIn(t, b, c), p);
    MergeAssoc(r0, RowsOf(EventsIn(t, a, b), p), RowsOf(EventsIn(t, b, c), p));
  }
}
