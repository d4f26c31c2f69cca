/**
  Whole runs of the rate limiter as it is, cap included: as long as the cap pushes nobody out its
  answers are those of a limiter that never forgets, and its grants are bounded.
 */
module RateLimiterRuns {
  import opened Wrappers
  import opened RateLimiter

  /** The cap pushes nobody out during the run. */
  ghost predicate NoCapHit(c: Config, es: Entries, rs: seq<Request>) {
    forall i :: 0 <= i < |rs| ==> !CapHit(c, Serve(c, true, es, rs[..i]), rs[i].key, rs[i].at)
  }

  // ----- few enough keys -----

  /** The keys used within an idle time before the i-th request, and its own. */
  ghost function RecentKeys(c: Config, rs: seq<Request>, i: int): set<string>
    requires 0 <= i < |rs|
  {
    (set j | 0 <= j < i && rs[i].at - rs[j].at < c.idleTTL :: rs[j].key) + {rs[i].key}
  }

  /** Every entry stems from the last request of its key. */
  lemma {:induction false} EntriesStemFromRequests(c: Config, rs: seq<Request>, k: string) returns (j: int)
    requires k in Serve(c, true, map[], rs)
    ensures 0 <= j < |rs| && rs[j].key == k && Serve(c, true, map[], rs)[k].updated == rs[j].at
  {
    var n := |rs| - 1;
    if rs[n].key == k { return n; }
    j := EntriesStemFromRequests(c, rs[..n], k);
  }

  lemma KeptAreRecent(c: Config, rs: seq<Request>, i: int, k: string)
    requires 0 <= i < |rs| && k in EvictIdle(c, Serve(c, true, map[], rs[..i]), rs[i].at)
    ensures k in RecentKeys(c, rs, i)
  {
    var j := EntriesStemFromRequests(c, rs[..i], k);
    assert rs[..i][j] == rs[j];
  }

  /** Never more keys within an idle time than there are places. */
  ghost predicate FewKeys(c: Config, rs: seq<Request>) {
    forall i :: 0 <= i < |rs| ==> |RecentKeys(c, rs, i)| <= c.maxEntries
  }

  /** A fresh limiter with few enough keys never comes to its cap. */
  lemma FewKeysFit(c: Config, rs: seq<Request>)
    requires FewKeys(c, rs)
    ensures NoCapHit(c, map[], rs)
  {
    forall i | 0 <= i < |rs| ensures !CapHit(c, Serve(c, true, map[], rs[..i]), rs[i].key, rs[i].at) {
      var kept := EvictIdle(c, Serve(c, true, map[], rs[..i]), rs[i].at);
      forall k | k in kept.Keys ensures k in RecentKeys(c, rs, i) { KeptAreRecent(c, rs, i, k); }
      RoomLeft(kept, rs[i].key, RecentKeys(c, rs, i));
    }
  }

  lemma RoomLeft(kept: Entries, k: string, recent: set<string>)
    requires (forall o :: o in kept.Keys ==> o in recent) && k in recent
    ensures k in kept || |kept| < |recent|
  {
    if k in kept { return; }
    assert kept.Keys <= recent - {k};
    SubsetSize(kept.Keys, recent - {k});
    assert |kept| == |kept.Keys|;
  }

  // ----- the limiter's own run -----

  /** What a run of allow promises as long as the cap pushes nobody out. */
  ghost predicate AsIfUncapped(c: Config, es: Entries, start: real, rs: seq<Request>, answers: seq<bool>) {
    && |answers| == |rs| && answers == Answers(c, true, es, rs)
    && (c.idleTTL * c.rate >= c.burst ==>
          && answers == Answers(c, false, es, rs)
          && forall k :: Grants(k, rs, answers) as real <= c.burst + (Earned(c, EndTime(start, rs)) - Earned(c, start)))
  }

  lemma UncappedRun(c: Config, es: Entries, start: real, rs: seq<Request>)
    requires ValidConfig(c) && ValidEntries(c, es, start) && Ordered(start, rs)
    ensures AsIfUncapped(c, es, start, rs, Answers(c, true, es, rs))
  {
    AnswersLength(c, true, es, rs);
    if c.idleTTL * c.rate >= c.burst {
      EvictionUnobservable(c, es, start, rs);
      forall k ensures Grants(k, rs, Answers(c, true, es, rs)) as real
                       <= c.burst + (Earned(c, EndTime(start, rs)) - Earned(c, start))
      {
        GrantsBounded(c, es, start, rs, k);
      }
    }
  }

  /** The limiter so far did what the specification does on the first n requests. */
  ghost predicate InStep(c: Config, es: Entries, rs: seq<Request>, n: int, now: Entries, answers: seq<bool>)
    requires 0 <= n <= |rs|
  {
    now == Serve(c, true, es, rs[..n]) && answers == Answers(c, true, es, rs[..n])
  }

  lemma StepInStep(c: Config, es: Entries, rs: seq<Request>, n: int, before: Entries, answers: seq<bool>, v: Verdict)
    requires 0 <= n < |rs| && InStep(c, es, rs, n, before, answers)
            && v == AllowLocked(c, true, before, rs[n].key, rs[n].at)
    ensures InStep(c, es, rs, n + 1, v.entries, answers + [v.ok])
  {
    assert rs[..n + 1][..n] == rs[..n];
  }

  /** One call of allow, some time after the one before. */
  method AllowNext(limiter: IngestRateLimiter, ghost last: real, r: Request) returns (ok: bool)
    requires limiter.Valid(last) && last <= r.at
    modifies limiter
    ensures limiter.Valid(r.at)
    ensures !CapHit(limiter.config, old(limiter.entries), r.key, r.at)
            ==> Verdict(limiter.entries, ok) == AllowLocked(limiter.config, true, old(limiter.entries), r.key, r.at)
  {
    ValidLater(limiter.config, limiter.entries, last, r.at);
    var retryAfter;
    ghost var gone;
    ok, retryAfter, gone := limiter.Allow(r.key, r.at);
  }

  /** The calls one after the other, in step with the specification while the cap is not hit. */
  method AllowEach(limiter: IngestRateLimiter, ghost start: real, rs: seq<Request>) returns (answers: seq<bool>)
    requires limiter.Valid(start) && Ordered(start, rs)
    modifies limiter
    ensures limiter.Valid(EndTime(start, rs)) && |answers| == |rs|
    ensures NoCapHit(limiter.config, old(limiter.entries), rs)
            ==> InStep(limiter.config, old(limiter.entries), rs, |rs|, limiter.entries, answers)
  {
    answers := [];
    ghost var c, es, last := limiter.config, limiter.entries, start;
    assert rs[..0] == [];
    for n := 0 to |rs|
      invariant limiter.Valid(last) && |answers| == n && last == if n == 0 then start else rs[n - 1].at
      invariant NoCapHit(c, es, rs) ==> InStep(c, es, rs, n, limiter.entries, answers)
    {
      ghost var before := limiter.entries;
      var ok := AllowNext(limiter, last, rs[n]);
      if NoCapHit(c, es, rs) { StepInStep(c, es, rs, n, before, answers, Verdict(limiter.entries, ok)); }
      answers := answers + [ok];
      last := rs[n].at;
    }
  }

  /** Any run of allow: within the cap always, and as if there were no cap while it pushes nobody out. */
  method AllowAll(limiter: IngestRateLimiter, ghost start: real, rs: seq<Request>) returns (answers: seq<bool>)
    requires limiter.Valid(start) && Ordered(start, rs)
    modifies limiter
    ensures limiter.Valid(EndTime(start, rs)) && |answers| == |rs|
    ensures NoCapHit(limiter.config, old(limiter.entries), rs)
            ==> AsIfUncapped(limiter.config, old(limiter.entries), start, rs, answers)
  {
    UncappedRun(limiter.config, limiter.entries, start, rs);
    answers := AllowEach(limiter, start, rs);
    assert rs[..|rs|] == rs;
  }

  // ----- at the cap -----

  /** One place, two keys: each pushes the other out, and the first is granted a second full burst at once. */
  lemma CapForgets(c: Config, a: string, b: string, e1: Entries, e2: Entries)
    requires c == Config(1.0, 1.0, 1, 1800.0) && a != b
    requires e1 == map[a := Entry(0.0, 0.0)] && e2 == map[b := Entry(0.0, 0.0)]
    ensures AllowLocked(c, true, map[], a, 0.0) == Verdict(e1, true)
    ensures CapHit(c, e1, b, 0.0) && AllowedWithout(c, EvictIdle(c, e1, 0.0), a, b, 0.0, Verdict(e2, true))
    ensures CapHit(c, e2, a, 0.0) && AllowedWithout(c, EvictIdle(c, e2, 0.0), b, a, 0.0, Verdict(e1, true))
  {
    assert EvictIdle(c, map[], 0.0) == map[];
    PushedOut(c, a, b, e1, e2);
    PushedOut(c, b, a, e2, e1);
  }

  lemma PushedOut(c: Config, a: string, b: string, e1: Entries, e2: Entries)
    requires c == Config(1.0, 1.0, 1, 1800.0) && a != b
    requires e1 == map[a := Entry(0.0, 0.0)] && e2 == map[b := Entry(0.0, 0.0)]
    ensures CapHit(c, e1, b, 0.0) && AllowedWithout(c, EvictIdle(c, e1, 0.0), a, b, 0.0, Verdict(e2, true))
  {
    assert EvictIdle(c, e1, 0.0) == e1;
    assert e1.Keys == {a} && |e1| == 1;
    assert e1 - {a} == map[];
  }
}
