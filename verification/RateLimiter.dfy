/**
  The ingest rate limiter: a token bucket per key, idle buckets forgotten, a hard cap on their
  number. Times are real seconds and token counts exact reals.
 */
module RateLimiter {
  import opened Wrappers

  datatype Entry = Entry(tokens: real, updated: real)

  type Entries = map<string, Entry>

  datatype Config = Config(rate: real, burst: real, maxEntries: int, idleTTL: real)

  predicate ValidConfig(c: Config) { c.rate > 0.0 && c.burst > 0.0 && c.maxEntries > 0 && c.idleTTL > 0.0 }

  // ----- levels -----

  function Capped(c: Config, x: real): real { if x > c.burst then c.burst else x }

  /** Tokens dripped by a time since the epoch. */
  function Earned(c: Config, t: real): real { t * c.rate }

  /** What a bucket holds at a time: a key without an entry has a full one. */
  function Level(c: Config, es: Entries, k: string, now: real): real {
    if k !in es then c.burst else Capped(c, es[k].tokens + (Earned(c, now) - Earned(c, es[k].updated)))
  }

  /** Every entry was last used by now and holds between none and a full bucket. */
  predicate ValidEntries(c: Config, es: Entries, now: real) {
    forall k :: k in es ==> 0.0 <= es[k].tokens <= c.burst && es[k].updated <= now
  }

  lemma EarnedGrows(c: Config, t: real, later: real)
    requires ValidConfig(c) && t <= later
    ensures Earned(c, t) <= Earned(c, later)
  {
    Scale(t, later, c.rate);
  }

  lemma Scale(a: real, b: real, r: real)
    requires a <= b && r > 0.0
    ensures a * r <= b * r
  {
  }

  lemma EarnedBetween(t: real, later: real, r: real)
    ensures (later - t) * r == later * r - t * r
  {
  }

  lemma DripIsEarned(c: Config, t: real, now: real)
    ensures (now - t) * c.rate == Earned(c, now) - Earned(c, t)
  {
    EarnedBetween(t, now, c.rate);
  }

  /** The level at a later time is the present level, refilled and capped. */
  lemma LevelLater(c: Config, es: Entries, k: string, now: real, later: real)
    requires ValidConfig(c) && now <= later
    ensures Level(c, es, k, later) == Capped(c, Level(c, es, k, now) + (Earned(c, later) - Earned(c, now)))
  {
    EarnedGrows(c, now, later);
  }

  lemma LevelRange(c: Config, es: Entries, k: string, now: real)
    requires ValidConfig(c) && ValidEntries(c, es, now)
    ensures 0.0 <= Level(c, es, k, now) <= c.burst
  {
    if k in es { EarnedGrows(c, es[k].updated, now); }
  }

  // ----- eviction -----

  function EvictIdle(c: Config, es: Entries, now: real): Entries {
    map k | k in es && now - es[k].updated < c.idleTTL :: es[k]
  }

  /** An idle bucket has filled up by the time it is forgotten. */
  lemma EvictionKeepsLevel(c: Config, es: Entries, k: string, now: real)
    requires ValidConfig(c) && ValidEntries(c, es, now) && c.idleTTL * c.rate >= c.burst
    ensures Level(c, EvictIdle(c, es, now), k, now) == Level(c, es, k, now)
  {
    if k in es && now - es[k].updated >= c.idleTTL { EarnedWhileIdle(c, es[k].updated, now); }
  }

  lemma EarnedWhileIdle(c: Config, updated: real, now: real)
    requires ValidConfig(c) && now - updated >= c.idleTTL && c.idleTTL * c.rate >= c.burst
    ensures Earned(c, now) - Earned(c, updated) >= c.burst
  {
    Scale(c.idleTTL, now - updated, c.rate);
    EarnedBetween(updated, now, c.rate);
  }

  // ----- one request -----

  datatype Verdict = Verdict(entries: Entries, ok: bool)

  /** allow, when the cap makes no difference; `evicting` is off for a limiter that never forgets. */
  function AllowLocked(c: Config, evicting: bool, es: Entries, k: string, now: real): Verdict {
    var kept := if evicting then EvictIdle(c, es, now) else es;
    var level := Level(c, kept, k, now);
    if level >= 1.0 then Verdict(kept[k := Entry(level - 1.0, now)], true)
    else Verdict(kept[k := Entry(level, now)], false)
  }

  /** The cap would push some bucket out. */
  predicate CapHit(c: Config, es: Entries, k: string, now: real) {
    var kept := EvictIdle(c, es, now);
    k !in kept && |kept| >= c.maxEntries
  }

  /** The entries after a request for k that left x tokens. */
  lemma SpendLevels(c: Config, es: Entries, k: string, x: real, now: real, other: string)
    requires ValidEntries(c, es, now) && 0.0 <= x <= c.burst
    ensures ValidEntries(c, es[k := Entry(x, now)], now)
    ensures Level(c, es[k := Entry(x, now)], other, now) == if other == k then x else Level(c, es, other, now)
  {
  }

  /** The request costs its own key one token if granted, and changes no other level. */
  lemma AllowLevels(c: Config, evicting: bool, es: Entries, k: string, now: real, other: string)
    requires ValidConfig(c) && ValidEntries(c, es, now) && (evicting ==> c.idleTTL * c.rate >= c.burst)
    ensures var v := AllowLocked(c, evicting, es, k, now);
            && ValidEntries(c, v.entries, now)
            && v.ok == (Level(c, es, k, now) >= 1.0)
            && Level(c, v.entries, other, now)
               == Level(c, es, other, now) - if other == k && v.ok then 1.0 else 0.0
  {
    LevelRange(c, es, k, now);
    var kept := if evicting then EvictIdle(c, es, now) else es;
    if evicting {
      EvictionKeepsLevel(c, es, k, now);
      EvictionKeepsLevel(c, es, other, now);
    }
    var level := Level(c, es, k, now);
    SpendLevels(c, kept, k, if level >= 1.0 then level - 1.0 else level, now, other);
  }

  // ----- runs -----

  datatype Request = Request(key: string, at: real)

  predicate Ordered(start: real, rs: seq<Request>) {
    forall i :: 0 <= i < |rs| ==> start <= rs[i].at && (i > 0 ==> rs[i - 1].at <= rs[i].at)
  }

  function EndTime(start: real, rs: seq<Request>): real { if rs == [] then start else rs[|rs| - 1].at }

  function Serve(c: Config, evicting: bool, es: Entries, rs: seq<Request>): Entries {
    if rs == [] then es
    else
      var r := rs[|rs| - 1];
      AllowLocked(c, evicting, Serve(c, evicting, es, rs[..|rs| - 1]), r.key, r.at).entries
  }

  function Answers(c: Config, evicting: bool, es: Entries, rs: seq<Request>): seq<bool> {
    if rs == [] then []
    else
      var n := |rs| - 1;
      Answers(c, evicting, es, rs[..n])
      + [AllowLocked(c, evicting, Serve(c, evicting, es, rs[..n]), rs[n].key, rs[n].at).ok]
  }

  ghost predicate SameLevels(c: Config, a: Entries, b: Entries, now: real) {
    forall k :: Level(c, a, k, now) == Level(c, b, k, now)
  }

  lemma SameLevelsLater(c: Config, a: Entries, b: Entries, now: real, later: real)
    requires ValidConfig(c) && now <= later && SameLevels(c, a, b, now)
    ensures SameLevels(c, a, b, later)
  {
    forall k ensures Level(c, a, k, later) == Level(c, b, k, later) {
      LevelLater(c, a, k, now, later);
      LevelLater(c, b, k, now, later);
    }
  }

  lemma ValidLater(c: Config, es: Entries, now: real, later: real)
    requires ValidEntries(c, es, now) && now <= later
    ensures ValidEntries(c, es, later)
  {
  }

  lemma OrderedPrefix(start: real, rs: seq<Request>)
    requires rs != [] && Ordered(start, rs)
    ensures var n := |rs| - 1;
            && Ordered(start, rs[..n]) && EndTime(start, rs[..n]) <= rs[n].at
            && start <= EndTime(start, rs[..n])
  {
    var n := |rs| - 1;
    assert forall i :: 0 <= i < n ==> rs[..n][i] == rs[i];
  }

  lemma SameStep(c: Config, a: Entries, b: Entries, k: string, now: real)
    requires ValidConfig(c) && c.idleTTL * c.rate >= c.burst
    requires ValidEntries(c, a, now) && ValidEntries(c, b, now) && SameLevels(c, a, b, now)
    ensures var (x, y) := (AllowLocked(c, true, a, k, now), AllowLocked(c, false, b, k, now));
            && x.ok == y.ok && SameLevels(c, x.entries, y.entries, now)
            && ValidEntries(c, x.entries, now) && ValidEntries(c, y.entries, now)
  {
    AllowLevels(c, true, a, k, now, k);
    AllowLevels(c, false, b, k, now, k);
    var x, y := AllowLocked(c, true, a, k, now), AllowLocked(c, false, b, k, now);
    forall o ensures Level(c, x.entries, o, now) == Level(c, y.entries, o, now) {
      AllowLevels(c, true, a, k, now, o);
      AllowLevels(c, false, b, k, now, o);
    }
  }

  /** Forgetting idle keys cannot be observed: the same requests get the same answers. */
  lemma {:induction false} EvictionUnobservable(c: Config, es: Entries, start: real, rs: seq<Request>)
    requires ValidConfig(c) && c.idleTTL * c.rate >= c.burst && ValidEntries(c, es, start) && Ordered(start, rs)
    ensures Answers(c, true, es, rs) == Answers(c, false, es, rs)
    ensures var (a, b) := (Serve(c, true, es, rs), Serve(c, false, es, rs));
            && ValidEntries(c, a, EndTime(start, rs)) && ValidEntries(c, b, EndTime(start, rs))
            && SameLevels(c, a, b, EndTime(start, rs))
  {
    if rs == [] { return; }
    var n := |rs| - 1;
    var (before, now) := (EndTime(start, rs[..n]), rs[n].at);
    OrderedPrefix(start, rs);
    EvictionUnobservable(c, es, start, rs[..n]);
    var (a, b) := (Serve(c, true, es, rs[..n]), Serve(c, false, es, rs[..n]));
    ValidLater(c, a, before, now);
    ValidLater(c, b, before, now);
    SameLevelsLater(c, a, b, before, now);
    SameStep(c, a, b, rs[n].key, now);
  }

  /** How many of a key's requests were granted. */
  function Grants(k: string, rs: seq<Request>, answers: seq<bool>): int
    requires |rs| == |answers|
  {
    if rs == [] then 0
    else
      var n := |rs| - 1;
      Grants(k, rs[..n], answers[..n]) + if rs[n].key == k && answers[n] then 1 else 0
  }

  lemma {:induction false} AnswersLength(c: Config, evicting: bool, es: Entries, rs: seq<Request>)
    ensures |Answers(c, evicting, es, rs)| == |rs|
  {
    if rs != [] { AnswersLength(c, evicting, es, rs[..|rs| - 1]); }
  }

  /**
    Conservation of tokens: what a key was granted since the start plus what it still has never
    exceeds what it had plus what has dripped in.
   */
  lemma {:induction false} TokensConserved(c: Config, es: Entries, start: real, rs: seq<Request>, k: string)
    requires ValidConfig(c) && c.idleTTL * c.rate >= c.burst && ValidEntries(c, es, start) && Ordered(start, rs)
    ensures |Answers(c, true, es, rs)| == |rs|
    ensures Grants(k, rs, Answers(c, true, es, rs)) as real + Level(c, Serve(c, true, es, rs), k, EndTime(start, rs))
         <= Level(c, es, k, start) + (Earned(c, EndTime(start, rs)) - Earned(c, start))
  {
    AnswersLength(c, true, es, rs);
    if rs == [] { return; }
    var n := |rs| - 1;
    var (before, now, a) := (EndTime(start, rs[..n]), rs[n].at, Serve(c, true, es, rs[..n]));
    OrderedPrefix(start, rs);
    AnswersLength(c, true, es, rs[..n]);
    TokensConserved(c, es, start, rs[..n], k);
    EvictionUnobservable(c, es, start, rs[..n]);
    LevelDrops(c, a, rs[n].key, before, now, k);
    var v := AllowLocked(c, true, a, rs[n].key, now);
    GrantsStep(k, rs, Answers(c, true, es, rs[..n]), v.ok);
    Tally(Grants(k, rs[..n], Answers(c, true, es, rs[..n])), Cost(rs[n].key == k && v.ok), Level(c, a, k, before),
          Level(c, v.entries, k, now), Level(c, es, k, start),
          Earned(c, start), Earned(c, before), Earned(c, now));
  }

  function Cost(granted: bool): int { if granted then 1 else 0 }

  lemma GrantsStep(k: string, rs: seq<Request>, answers: seq<bool>, ok: bool)
    requires |rs| == |answers| + 1
    ensures Grants(k, rs, answers + [ok]) == Grants(k, rs[..|answers|], answers) + Cost(rs[|answers|].key == k && ok)
  {
    assert (answers + [ok])[..|answers|] == answers;
  }

  lemma LevelDrops(c: Config, es: Entries, key: string, before: real, now: real, k: string)
    requires ValidConfig(c) && c.idleTTL * c.rate >= c.burst && ValidEntries(c, es, before) && before <= now
    ensures var v := AllowLocked(c, true, es, key, now);
            Level(c, v.entries, k, now)
            <= Level(c, es, k, before) + (Earned(c, now) - Earned(c, before)) - Cost(key == k && v.ok) as real
  {
    ValidLater(c, es, before, now);
    AllowLevels(c, true, es, key, now, k);
    LevelLater(c, es, k, before, now);
  }

  lemma Tally(granted: int, more: int, before: real, after: real, first: real, e0: real, e1: real, e2: real)
    requires granted as real + before <= first + (e1 - e0) && after <= before + (e2 - e1) - more as real
    ensures (granted + more) as real + after <= first + (e2 - e0)
  {
  }

  /** In any span of time a key is granted at most a full bucket and what drips in meanwhile. */
  lemma GrantsBounded(c: Config, es: Entries, start: real, rs: seq<Request>, k: string)
    requires ValidConfig(c) && c.idleTTL * c.rate >= c.burst && ValidEntries(c, es, start) && Ordered(start, rs)
    ensures |Answers(c, true, es, rs)| == |rs|
    ensures Grants(k, rs, Answers(c, true, es, rs)) as real
         <= c.burst + (Earned(c, EndTime(start, rs)) - Earned(c, start))
  {
    TokensConserved(c, es, start, rs, k);
    EvictionUnobservable(c, es, start, rs);
    LevelRange(c, es, k, start);
    LevelRange(c, Serve(c, true, es, rs), k, EndTime(start, rs));
  }

  /** What a bucket holds: a full one at first, then what was left and has dripped in since, up to the burst. */
  lemma LevelMeaning(c: Config, es: Entries, k: string, now: real)
    ensures k !in es ==> Level(c, es, k, now) == c.burst
    ensures k in es ==>
              var refilled := es[k].tokens + (now - es[k].updated) * c.rate;
              Level(c, es, k, now) == if refilled > c.burst then c.burst else refilled
  {
    if k in es { DripIsEarned(c, es[k].updated, now); }
  }

  /** In plain numbers: over any time a key is granted at most a burst and the rate times that time. */
  lemma GrantsWithinRate(c: Config, es: Entries, start: real, rs: seq<Request>, k: string)
    requires ValidConfig(c) && c.idleTTL * c.rate >= c.burst && ValidEntries(c, es, start) && Ordered(start, rs)
    ensures |Answers(c, true, es, rs)| == |rs|
    ensures Grants(k, rs, Answers(c, true, es, rs)) as real <= c.burst + (EndTime(start, rs) - start) * c.rate
  {
    GrantsBounded(c, es, start, rs, k);
    DripIsEarned(c, start, EndTime(start, rs));
  }

  function Burst(k: string, now: real, n: nat): seq<Request> {
    if n == 0 then [] else Burst(k, now, n - 1) + [Request(k, now)]
  }

  /** What n requests at once leave of a full bucket. */
  lemma {:induction false} BurstLeaves(c: Config, es: Entries, k: string, now: real, n: nat)
    requires ValidConfig(c) && k !in es && n as real <= c.burst
    ensures Level(c, Serve(c, true, es, Burst(k, now, n)), k, now) == c.burst - n as real
    ensures var after := Serve(c, true, es, Burst(k, now, n)); n > 0 ==> k in after && after[k].updated == now
  {
    if n == 0 { return; }
    var before := Serve(c, true, es, Burst(k, now, n - 1));
    assert (n - 1) as real == n as real - 1.0;
    BurstLeaves(c, es, k, now, n - 1);
    OneLess(c, before, k, now);
    ServeBurst(c, es, k, now, n);
  }

  lemma ServeBurst(c: Config, es: Entries, k: string, now: real, n: nat)
    requires n > 0
    ensures Serve(c, true, es, Burst(k, now, n))
         == AllowLocked(c, true, Serve(c, true, es, Burst(k, now, n - 1)), k, now).entries
  {
    var front := Burst(k, now, n - 1);
    assert (front + [Request(k, now)])[..|front|] == front;
  }

  /** A granted request leaves one token less in its bucket. */
  lemma OneLess(c: Config, es: Entries, k: string, now: real)
    requires ValidConfig(c) && 1.0 <= Level(c, es, k, now) <= c.burst && (k in es ==> es[k].updated == now)
    ensures var n := AllowLocked(c, true, es, k, now).entries;
            k in n && n[k].updated == now && Level(c, n, k, now) == Level(c, es, k, now) - 1.0
  {
    assert Level(c, EvictIdle(c, es, now), k, now) == Level(c, es, k, now);
  }

  /** A new key's first requests are granted as long as the burst lasts, and the next one at the same time is not. */
  lemma BurstGranted(c: Config, es: Entries, k: string, now: real, n: nat)
    requires ValidConfig(c) && k !in es && n as real <= c.burst
    ensures AllowLocked(c, true, Serve(c, true, es, Burst(k, now, n)), k, now).ok <==> n as real + 1.0 <= c.burst
  {
    BurstLeaves(c, es, k, now, n);
    var before := Serve(c, true, es, Burst(k, now, n));
    assert Level(c, EvictIdle(c, before, now), k, now) == Level(c, before, k, now);
  }

  // ----- when eviction shows -----

  lemma {:induction false} ServeCons(c: Config, evicting: bool, es: Entries, next: Entries, r: Request,
                                     rest: seq<Request>)
    requires next == AllowLocked(c, evicting, es, r.key, r.at).entries
    ensures Serve(c, evicting, es, [r] + rest) == Serve(c, evicting, next, rest)
    decreases |rest|
  {
    var rs := [r] + rest;
    if rest == [] {
      assert rs[..0] == [];
      return;
    }
    var n := |rest| - 1;
    ServeCons(c, evicting, es, next, r, rest[..n]);
    assert rs[..|rs| - 1] == [r] + rest[..n];
  }

  lemma {:induction false} AnswersCons(c: Config, evicting: bool, es: Entries, v: Verdict, r: Request,
                                       rest: seq<Request>)
    requires v == AllowLocked(c, evicting, es, r.key, r.at)
    ensures Answers(c, evicting, es, [r] + rest) == [v.ok] + Answers(c, evicting, v.entries, rest)
    decreases |rest|
  {
    var rs := [r] + rest;
    if rest == [] {
      AnswersOne(c, evicting, es, r);
      assert rs == [r];
      return;
    }
    var n := |rest| - 1;
    AnswersCons(c, evicting, es, v, r, rest[..n]);
    ServeCons(c, evicting, es, v.entries, r, rest[..n]);
    assert rs[..|rs| - 1] == [r] + rest[..n];
  }

  lemma AnswersOne(c: Config, evicting: bool, es: Entries, r: Request)
    ensures Answers(c, evicting, es, [r]) == [AllowLocked(c, evicting, es, r.key, r.at).ok]
  {
    assert [r][..0] == [];
  }

  /** A difference at a request, or after it, is a difference. */
  lemma Tells(c: Config, a: Entries, b: Entries, va: Verdict, vb: Verdict, r: Request, rest: seq<Request>)
    requires va == AllowLocked(c, true, a, r.key, r.at) && vb == AllowLocked(c, false, b, r.key, r.at)
    requires va.ok != vb.ok || Answers(c, true, va.entries, rest) != Answers(c, false, vb.entries, rest)
    ensures Answers(c, true, a, [r] + rest) != Answers(c, false, b, [r] + rest)
  {
    AnswersCons(c, true, a, va, r, rest);
    AnswersCons(c, false, b, vb, r, rest);
    var s, t := Answers(c, true, va.entries, rest), Answers(c, false, vb.entries, rest);
    assert ([va.ok] + s)[0] == va.ok && ([vb.ok] + t)[0] == vb.ok;
    assert ([va.ok] + s)[1..] == s && ([vb.ok] + t)[1..] == t;
  }

  /** One request for a key with x tokens since `at`, where nothing else is tracked. */
  lemma OneKeyStep(c: Config, evicting: bool, k: string, x: real, at: real, now: real, level: real) returns (v: Verdict)
    requires ValidConfig(c) && 0.0 <= x <= c.burst && at <= now
    requires level == if evicting && now - at >= c.idleTTL then c.burst
                      else Capped(c, x + (Earned(c, now) - Earned(c, at)))
    ensures v == AllowLocked(c, evicting, OneKey(k, x, at), k, now)
    ensures v == Verdict(OneKey(k, if level >= 1.0 then level - 1.0 else level, now), level >= 1.0)
  {
    v := AllowLocked(c, evicting, OneKey(k, x, at), k, now);
    var es := OneKey(k, x, at);
    var kept := if evicting then EvictIdle(c, es, now) else es;
    assert kept == if evicting && now - at >= c.idleTTL then map[] else es;
    assert Level(c, kept, k, now) == level;
  }

  function OneKey(k: string, x: real, now: real): Entries { map[k := Entry(x, now)] }

  /** Two limiters whose buckets hold different amounts can be told apart. */
  lemma {:induction false} LevelsTell(c: Config, k: string, x: real, y: real, now: real) returns (rs: seq<Request>)
    requires ValidConfig(c) && c.burst >= 1.0 && 0.0 <= y < x <= c.burst
    ensures Ordered(now, rs)
    ensures Answers(c, true, OneKey(k, x, now), rs) != Answers(c, false, OneKey(k, y, now), rs)
    decreases x.Floor
  {
    if x < 1.0 {
      var t := now + (1.0 - x) / c.rate;
      WaitForToken(c, now, 1.0 - x);
      var va := OneKeyStep(c, true, k, x, now, t, if t - now >= c.idleTTL then c.burst else 1.0);
      var vb := OneKeyStep(c, false, k, y, now, t, y + (1.0 - x));
      Tells(c, OneKey(k, x, now), OneKey(k, y, now), va, vb, Request(k, t), []);
      OrderedCons(now, Request(k, t), []);
      return [Request(k, t)] + [];
    }
    var va := OneKeyStep(c, true, k, x, now, now, x);
    var vb := OneKeyStep(c, false, k, y, now, now, y);
    var rest := [];
    if y >= 1.0 { rest := LevelsTell(c, k, x - 1.0, y - 1.0, now); }
    Tells(c, OneKey(k, x, now), OneKey(k, y, now), va, vb, Request(k, now), rest);
    OrderedCons(now, Request(k, now), rest);
    rs := [Request(k, now)] + rest;
  }

  lemma OrderedCons(start: real, r: Request, rest: seq<Request>)
    requires start <= r.at && Ordered(r.at, rest)
    ensures Ordered(start, [r] + rest)
  {
    assert forall i :: 0 < i < |[r] + rest| ==> ([r] + rest)[i] == rest[i - 1];
  }

  lemma WaitForToken(c: Config, now: real, missing: real)
    requires ValidConfig(c) && missing > 0.0
    ensures var t := now + missing / c.rate; now < t && Earned(c, t) - Earned(c, now) == missing
  {
    var w := missing / c.rate;
    Quotient(missing, c.rate, w);
    assert w > 0.0 by { if w <= 0.0 { Scale(w, 0.0, c.rate); } }
    assert (now + w) * c.rate == now * c.rate + w * c.rate;
  }

  lemma EarnedFromZero(c: Config, t: real)
    requires ValidConfig(c) && t >= 0.0
    ensures Earned(c, 0.0) == 0.0 <= Earned(c, t)
  {
    EarnedGrows(c, 0.0, t);
  }

  /** With an idle time too short to refill a bucket of at least one token, forgetting an emptied one shows. */
  lemma ShortIdleShows(c: Config, k: string) returns (es: Entries, rs: seq<Request>)
    requires ValidConfig(c) && c.burst >= 1.0 && c.idleTTL * c.rate < c.burst
    ensures ValidEntries(c, es, 0.0) && Ordered(0.0, rs) && Answers(c, true, es, rs) != Answers(c, false, es, rs)
  {
    es := OneKey(k, 0.0, 0.0);
    var t := c.idleTTL;
    var level := Earned(c, t);
    EarnedFromZero(c, t);
    var va := OneKeyStep(c, true, k, 0.0, 0.0, t, c.burst);
    var vb := OneKeyStep(c, false, k, 0.0, 0.0, t, level);
    var rest := [];
    if level >= 1.0 { rest := LevelsTell(c, k, c.burst - 1.0, level - 1.0, t); }
    Tells(c, es, es, va, vb, Request(k, t), rest);
    OrderedCons(0.0, Request(k, t), rest);
    rs := [Request(k, t)] + rest;
  }

  /** A bucket smaller than one token never grants anything, so there is nothing to observe. */
  lemma {:induction false} SmallBurstNeverGrants(c: Config, evicting: bool, es: Entries, rs: seq<Request>)
    requires ValidConfig(c) && c.burst < 1.0
    ensures |Answers(c, evicting, es, rs)| == |rs| && forall i :: 0 <= i < |rs| ==> !Answers(c, evicting, es, rs)[i]
  {
    if rs != [] { SmallBurstNeverGrants(c, evicting, es, rs[..|rs| - 1]); }
  }

  /** No run of requests from any state is answered differently when idle keys are forgotten. */
  ghost predicate Unobservable(c: Config) {
    forall es, start, rs :: ValidEntries(c, es, start) && Ordered(start, rs) ==>
      Answers(c, true, es, rs) == Answers(c, false, es, rs)
  }

  /** Exactly when idle eviction cannot be observed. */
  lemma EvictionExactness(c: Config)
    requires ValidConfig(c)
    ensures Unobservable(c) <==> c.idleTTL * c.rate >= c.burst || c.burst < 1.0
  {
    if c.idleTTL * c.rate >= c.burst || c.burst < 1.0 {
      forall es, start, rs | ValidEntries(c, es, start) && Ordered(start, rs)
        ensures Answers(c, true, es, rs) == Answers(c, false, es, rs)
      {
        if c.burst < 1.0 {
          SmallBurstNeverGrants(c, true, es, rs);
          SmallBurstNeverGrants(c, false, es, rs);
        } else {
          EvictionUnobservable(c, es, start, rs);
        }
      }
    } else {
      var es, rs := ShortIdleShows(c, "k");
    }
  }

  // ----- the limiter object -----

  /** k is an entry, and none was used before it. */
  ghost predicate LeastRecent(es: Entries, k: string) {
    k in es && forall o :: o in es ==> es[k].updated <= es[o].updated
  }

  /** makeCapacityLocked's search over the entries in some order; it takes the empty key for "none yet". */
  function Search(es: Entries, order: seq<string>): string
    requires forall k :: k in order ==> k in es
  {
    if order == [] then ""
    else
      var n := |order| - 1;
      var oldest := Search(es, order[..n]);
      if oldest == "" || (oldest in es && es[order[n]].updated < es[oldest].updated) then order[n] else oldest
  }

  /** The order visits every entry exactly once. */
  ghost predicate Visits(es: Entries, order: seq<string>) {
    && (forall k :: k in order <==> k in es)
    && (forall i, j :: 0 <= i < j < |order| ==> order[i] != order[j])
  }

  /** No empty key is in the way: there is none, there is nothing else, or some other key is as old. */
  ghost predicate Searchable(es: Entries) {
    || "" !in es
    || es.Keys == {""}
    || exists k :: k in es && k != "" && es[k].updated <= es[""].updated
  }

  lemma {:induction false} SearchInOrder(es: Entries, order: seq<string>)
    requires (forall k :: k in order ==> k in es) && order != []
    ensures Search(es, order) in order
  {
    var n := |order| - 1;
    if n > 0 { SearchInOrder(es, order[..n]); }
  }

  /** Once a least recently used entry with a real key has been visited, the search keeps one as old. */
  lemma {:induction false} SearchKeepsOldest(es: Entries, order: seq<string>, m: string)
    requires (forall k :: k in order ==> k in es) && LeastRecent(es, m) && m != "" && m in order
    ensures Search(es, order) in es && Search(es, order) != "" && es[Search(es, order)].updated <= es[m].updated
  {
    var n := |order| - 1;
    if m in order[..n] {
      SearchKeepsOldest(es, order[..n], m);
    } else if n > 0 {
      SearchInOrder(es, order[..n]);
    }
  }

  lemma {:induction false} OldestAmong(es: Entries, keys: set<string>) returns (m: string)
    requires keys != {} && forall k :: k in keys ==> k in es
    ensures m in keys && forall k :: k in keys ==> es[m].updated <= es[k].updated
    decreases |keys|
  {
    m := Inhabited(keys);
    if keys == {m} { return; }
    assert keys == {m} + (keys - {m});
    var rest := OldestAmong(es, keys - {m});
    if es[rest].updated < es[m].updated { m := rest; }
  }

  lemma OthersExist(keys: set<string>)
    requires keys != {} && keys != {""}
    ensures keys - {""} != {}
  {
    if "" in keys { assert keys == {""} + (keys - {""}); } else { assert keys - {""} == keys; }
  }

  lemma SearchableHasOldest(es: Entries) returns (m: string)
    requires Searchable(es) && es.Keys != {} && es.Keys != {""}
    ensures m != "" && LeastRecent(es, m)
  {
    OthersExist(es.Keys);
    m := OldestAmong(es, es.Keys - {""});
  }

  lemma SearchFindsOldest(es: Entries, order: seq<string>)
    requires Searchable(es) && es.Keys != {} && Visits(es, order)
    ensures LeastRecent(es, Search(es, order))
  {
    ghost var some := Inhabited(es.Keys);
    assert some in order;
    SearchInOrder(es, order);
    if es.Keys == {""} { return; }
    var m := SearchableHasOldest(es);
    SearchKeepsOldest(es, order, m);
  }

  lemma {:induction false} OrderOf(keys: set<string>) returns (order: seq<string>)
    ensures forall k :: k in order <==> k in keys
    ensures forall i, j :: 0 <= i < j < |order| ==> order[i] != order[j]
    decreases |keys|
  {
    if keys == {} { return []; }
    var k := Inhabited(keys);
    var rest := OrderOf(keys - {k});
    order := rest + [k];
  }

  lemma SearchOne(es: Entries, k: string)
    requires k in es
    ensures Search(es, [k]) == k
  {
    assert [k][..0] == [];
  }

  /** Past the empty key the search never comes back to it. */
  lemma {:induction false} SearchLeavesEmptyKey(es: Entries, rest: seq<string>)
    requires "" in es && "" !in rest && rest != [] && forall k :: k in rest ==> k in es
    ensures Search(es, [""] + rest) != "" && Search(es, [""] + rest) in rest
  {
    var n := |rest| - 1;
    assert ([""] + rest)[..n + 1] == [""] + rest[..n];
    if n == 0 {
      assert [""] + rest[..0] == [""];
      SearchOne(es, "");
    } else {
      SearchLeavesEmptyKey(es, rest[..n]);
    }
  }

  /** If the empty key is strictly the oldest and not alone, visiting it first picks another one. */
  lemma SearchMissesOldest(es: Entries) returns (order: seq<string>)
    requires es.Keys != {} && !Searchable(es)
    ensures Visits(es, order) && !LeastRecent(es, Search(es, order))
  {
    var rest := OrderOf(es.Keys - {""});
    OthersExist(es.Keys);
    ghost var other := Inhabited(es.Keys - {""});
    assert other in rest;
    SearchLeavesEmptyKey(es, rest);
    order := [""] + rest;
    assert forall i :: 0 < i < |order| ==> order[i] == rest[i - 1];
    var found := Search(es, order);
    assert found in es && found != "" && es[""].updated < es[found].updated;
  }

  /** Exactly when the search finds a least recently used entry whatever the order. */
  lemma SearchExactness(es: Entries)
    requires es.Keys != {}
    ensures Searchable(es) <==> forall order :: Visits(es, order) ==> LeastRecent(es, Search(es, order))
  {
    if Searchable(es) {
      forall order | Visits(es, order) ensures LeastRecent(es, Search(es, order)) { SearchFindsOldest(es, order); }
    } else {
      var order := SearchMissesOldest(es);
    }
  }

  /** An empty key last used at 1 hides behind a key last used at 2. */
  lemma EmptyKeyHides(es: Entries)
    requires es == map["" := Entry(0.0, 1.0), "a" := Entry(0.0, 2.0)]
    ensures Visits(es, ["", "a"]) && Search(es, ["", "a"]) == "a" && !LeastRecent(es, "a")
  {
    SearchOne(es, "");
    assert ["", "a"][..1] == [""];
    assert "" in es && "a" in es && es[""].updated < es["a"].updated;
  }

  /** The search may choose this entry; where the search works it is a least recently used one. */
  ghost predicate MayGo(es: Entries, k: string) { k in es && (Searchable(es) ==> LeastRecent(es, k)) }

  /** The loop of makeCapacityLocked: some order of the map, searched through. */
  method OldestKey(es: Entries) returns (oldest: string, ghost order: seq<string>)
    requires |es| > 0
    ensures Visits(es, order) && oldest == Search(es, order) && oldest in es
    ensures Searchable(es) ==> LeastRecent(es, oldest)
  {
    oldest, order := "", [];
    var seen := 0.0;
    var left := es.Keys;
    while left != {}
      invariant left <= es.Keys && (forall k :: k in order <==> k in es && k !in left)
      invariant forall i, j :: 0 <= i < j < |order| ==> order[i] != order[j]
      invariant oldest == Search(es, order)
      invariant oldest != "" ==> oldest in es && seen == es[oldest].updated
      decreases |left|
    {
      ghost var _ := Inhabited(left);
      var key :| key in left;
      left := left - {key};
      assert (order + [key])[..|order|] == order;
      order := order + [key];
      if oldest == "" || es[key].updated < seen {
        oldest := key;
        seen := es[key].updated;
      }
    }
    assert es.Keys != {};
    ghost var some := Inhabited(es.Keys);
    assert some in order;
    SearchInOrder(es, order);
    if Searchable(es) { SearchFindsOldest(es, order); }
  }

  /** The part of allow after housekeeping: refill, cap, spend. */
  method Spend(c: Config, es: Entries, key: string, now: real) returns (r: Entries, ok: bool, retryAfter: int)
    requires ValidConfig(c)
    ensures Verdict(r, ok) == AllowLocked(c, false, es, key, now)
    ensures !ok ==> retryAfter == RetryAfter(c, r[key].tokens)
  {
    var entry := if key in es then es[key] else Entry(c.burst, now);
    var drip := (now - entry.updated) * c.rate;
    DripIsEarned(c, entry.updated, now);
    entry := entry.(tokens := entry.tokens + drip);
    assert Capped(c, entry.tokens) == Level(c, es, key, now);
    if entry.tokens > c.burst { entry := entry.(tokens := c.burst); }
    entry := entry.(updated := now);
    if entry.tokens >= 1.0 { return es[key := entry.(tokens := entry.tokens - 1.0)], true, 0; }
    r, ok := es[key := entry], false;
    retryAfter := RetryAfter(c, entry.tokens);
  }

  function RetryAfter(c: Config, tokens: real): int
    requires c.rate > 0.0
  {
    WholeSeconds((1.0 - tokens) / c.rate)
  }

  /**
    The advised wait is at least a second, and falls short of the time to the next token by less than
    a millisecond.
   */
  lemma RetryAfterAlmostSuffices(c: Config, tokens: real)
    requires c.rate > 0.0 && tokens < 1.0
    ensures RetryAfter(c, tokens) >= 1
    ensures RetryAfter(c, tokens) as real > (1.0 - tokens) / c.rate - 0.001
    ensures RetryAfter(c, tokens) == 1 || RetryAfter(c, tokens) as real <= (1.0 - tokens) / c.rate + 0.999
  {
  }

  /** x seconds are not just over a whole number of them. */
  predicate NotJustOver(x: real) { x <= 1.0 || x == x.Floor as real || x - x.Floor as real >= 0.001 }

  /** Exactly when waiting as advised is long enough. */
  lemma RetryAfterExactness(c: Config, tokens: real, x: real)
    requires c.rate > 0.0 && tokens < 1.0 && x == (1.0 - tokens) / c.rate
    ensures RetryAfter(c, tokens) as real >= x <==> NotJustOver(x)
    ensures tokens + RetryAfter(c, tokens) as real * c.rate >= 1.0 <==> NotJustOver(x)
  {
    WholeSecondsExactness(x);
    WaitInTokens(c, tokens, x, RetryAfter(c, tokens) as real);
  }

  function WholeSeconds(x: real): int { if (x + 0.999).Floor < 1 then 1 else (x + 0.999).Floor }

  lemma WholeSecondsExactness(x: real)
    ensures WholeSeconds(x) as real >= x <==> NotJustOver(x)
  {
    var f, g := x.Floor, (x + 0.999).Floor;
    RoundsUp(x, f, g);
    if x <= 1.0 { return; }
    assert g >= 1;
  }

  /** Adding 0.999 before truncating rounds up, except from just over a whole number. */
  lemma RoundsUp(x: real, f: int, g: int)
    requires f as real <= x < f as real + 1.0 && g as real <= x + 0.999 < g as real + 1.0
    ensures g == if x - f as real >= 0.001 then f + 1 else f
  {
    if x - f as real >= 0.001 {
      assert (f + 1) as real <= x + 0.999 < (f + 2) as real;
    } else {
      assert f as real <= x + 0.999 < (f + 1) as real;
    }
  }

  lemma WaitInTokens(c: Config, tokens: real, x: real, r: real)
    requires c.rate > 0.0 && x == (1.0 - tokens) / c.rate
    ensures tokens + r * c.rate >= 1.0 <==> r >= x
  {
    Quotient(1.0 - tokens, c.rate, x);
    if r >= x { Scale(x, r, c.rate); } else { StrictScale(r, x, c.rate); }
  }

  lemma Quotient(a: real, rate: real, x: real)
    requires rate > 0.0 && x == a / rate
    ensures x * rate == a
  {
  }

  lemma StrictScale(a: real, b: real, r: real)
    requires a < b && r > 0.0
    ensures a * r < b * r
  {
  }

  /** At a token per second or more, the default among them, the advice is never short. */
  lemma FastRateNeverShort(c: Config, tokens: real)
    requires c.rate >= 1.0 && 0.0 <= tokens < 1.0
    ensures RetryAfter(c, tokens) as real >= (1.0 - tokens) / c.rate
  {
    var x := (1.0 - tokens) / c.rate;
    Quotient(1.0 - tokens, c.rate, x);
    if x > 1.0 { Scale(1.0, x, c.rate); }
    RetryAfterExactness(c, tokens, x);
  }

  /** At half a token per second the advice can be half a millisecond short. */
  lemma SlowRateCanBeShort(c: Config)
    requires c.rate == 0.5
    ensures RetryAfter(c, 0.49975) == 1 && (1.0 - 0.49975) / c.rate == 1.0005
  {
  }

  /** allow at the cap: another entry has made room first. */
  ghost predicate AllowedWithout(c: Config, kept: Entries, gone: string, key: string, now: real, v: Verdict) {
    MayGo(kept, gone) && v == AllowLocked(c, false, kept - {gone}, key, now)
  }

  lemma AllowedStaysValid(c: Config, es: Entries, key: string, now: real)
    requires ValidConfig(c) && ValidEntries(c, es, now) && |es| <= c.maxEntries && (key in es || |es| < c.maxEntries)
    ensures var v := AllowLocked(c, false, es, key, now); ValidEntries(c, v.entries, now) && |v.entries| <= c.maxEntries
  {
    AllowLevels(c, false, es, key, now, key);
    var v := AllowLocked(c, false, es, key, now);
    assert v.entries.Keys == es.Keys + {key};
    assert |v.entries| == |v.entries.Keys| && |es| == |es.Keys|;
  }

  lemma EvictionShrinks(c: Config, es: Entries, now: real)
    ensures |EvictIdle(c, es, now)| <= |es|
  {
    var kept := EvictIdle(c, es, now);
    assert kept.Keys <= es.Keys;
    SubsetSize(kept.Keys, es.Keys);
    assert |kept| == |kept.Keys| && |es| == |es.Keys|;
  }

  lemma SubsetSize(a: set<string>, b: set<string>)
    requires a <= b
    ensures |a| <= |b|
  {
    assert b == a + (b - a);
  }

  class IngestRateLimiter {
    var entries: Entries
    const config: Config

    ghost predicate Valid(now: real)
      reads this
    {
      ValidConfig(config) && ValidEntries(config, entries, now) && |entries| <= config.maxEntries
    }

    /** Options that are not positive are replaced by the defaults. */
    constructor (options: Config)
      ensures entries == map[] && forall now :: Valid(now)
      ensures config.rate == (if options.rate > 0.0 then options.rate else 1.0)
      ensures config.burst == (if options.burst > 0.0 then options.burst else 20.0)
      ensures config.maxEntries == (if options.maxEntries > 0 then options.maxEntries else 4096)
      ensures config.idleTTL == (if options.idleTTL > 0.0 then options.idleTTL else 1800.0)
    {
      entries := map[];
      config := Config(if options.rate > 0.0 then options.rate else 1.0,
                       if options.burst > 0.0 then options.burst else 20.0,
                       if options.maxEntries > 0 then options.maxEntries else 4096,
                       if options.idleTTL > 0.0 then options.idleTTL else 1800.0);
    }

    method EvictIdleLocked(now: real)
      modifies this`entries
      ensures entries == EvictIdle(config, old(entries), now)
    {
      ghost var before := entries;
      var left := entries.Keys;
      while left != {}
        invariant left <= before.Keys
        invariant entries == map k | k in before && (k in left || now - before[k].updated < config.idleTTL) :: before[k]
        decreases |left|
      {
        ghost var _ := Inhabited(left);
        var key :| key in left;
        left := left - {key};
        if now - entries[key].updated >= config.idleTTL { entries := entries - {key}; }
      }
    }

    /** At the cap one entry goes. */
    method MakeCapacityLocked() returns (ghost gone: string)
      requires config.maxEntries > 0
      modifies this`entries
      ensures old(|entries|) < config.maxEntries ==> entries == old(entries)
      ensures old(|entries|) >= config.maxEntries ==> MayGo(old(entries), gone) && entries == old(entries) - {gone}
    {
      gone := "";
      if |entries| < config.maxEntries { return; }
      var oldest, order := OldestKey(entries);
      entries := entries - {oldest};
      gone := oldest;
    }

    /** Housekeeping: idle entries go, and at the cap one more for a new key. */
    method MakeRoom(key: string, now: real) returns (ghost gone: string)
      requires Valid(now)
      modifies this`entries
      ensures Valid(now) && (key in entries || |entries| < config.maxEntries)
      ensures !CapHit(config, old(entries), key, now) ==> entries == EvictIdle(config, old(entries), now)
      ensures CapHit(config, old(entries), key, now) ==> var kept := EvictIdle(config, old(entries), now);
                                                         MayGo(kept, gone) && entries == kept - {gone}
    {
      EvictionShrinks(config, entries, now);
      EvictIdleLocked(now);
      gone := "";
      if key !in entries { gone := MakeCapacityLocked(); }
    }

    /**
      allow: as specified whenever the cap does not come into play; at the cap one entry is gone
      first; within the cap always.
     */
    method Allow(key: string, now: real) returns (ok: bool, retryAfter: int, ghost gone: string)
      requires Valid(now)
      modifies this`entries
      ensures Valid(now)
      ensures !CapHit(config, old(entries), key, now)
              ==> Verdict(entries, ok) == AllowLocked(config, true, old(entries), key, now)
      ensures CapHit(config, old(entries), key, now)
              ==> AllowedWithout(config, EvictIdle(config, old(entries), now), gone, key, now, Verdict(entries, ok))
      ensures !ok ==> key in entries && retryAfter == RetryAfter(config, entries[key].tokens)
    {
      gone := MakeRoom(key, now);
      AllowedStaysValid(config, entries, key, now);
      entries, ok, retryAfter := Spend(config, entries, key, now);
    }
  }
}
