/**
  Every fair schedule answers every refresh request. A schedule is endless; it is fair when the loop
  goes on, every ready case of its select is chosen sooner or later, every sender sends, and time
  passes.
 */
module MetadataFairness {
  import opened Wrappers
  import opened MetadataSync

  /** How far off the next sync is. Detours of the loop do not change it. */
  function Rank(s: System): nat {
    match s.place
    case DebounceSync => 1
    case Drained => 2
    case Fired => 3
    case Refreshed => if s.timer.Some? then 4 else 5
    case _ => if s.timer.Some? then 4 else if s.queued then 6 else 7
  }

  /** The steps that bring it nearer. */
  predicate Helpful(s: System, a: Action) {
    match s.place
    case DebounceSync => a == Go
    case Drained => a == Go
    case Fired => a == Go
    case Refreshed => a == Go && s.timer.None?
    case _ =>
      if s.timer.Some? then a == TakeTimer && s.place == AtSelect && s.timer.value <= s.now
      else if s.queued then a == TakeRefresh && s.place == AtSelect
      else a.Send? && a.id in s.senders
  }

  /** Nothing but a new request puts the sync further off. */
  lemma NeverFurther(s: System, a: Action, debounce: int)
    requires Inv(s) && Ripe(s, debounce) && s.owed != {} && !a.Request?
    ensures var n := Next(s, a, debounce);
            Ripe(n, debounce) && (n.owed == {} || (n.owed == s.owed && Rank(n) <= Rank(s)))
  {
    if a.Go? {
      GoNeverFurther(s, debounce);
    }
  }

  lemma GoNeverFurther(s: System, debounce: int)
    requires Inv(s) && Ripe(s, debounce) && s.owed != {}
    ensures var n := Proceed(s, debounce);
            Ripe(n, debounce) && (n.owed == {} || (n.owed == s.owed && Rank(n) <= Rank(s)))
  {
  }

  lemma HelpfulIsNearer(s: System, a: Action, debounce: int)
    requires Inv(s) && Ripe(s, debounce) && s.owed != {} && Helpful(s, a)
    ensures var n := Next(s, a, debounce); n.owed == {} || Rank(n) < Rank(s)
  {
  }

  /** A helpful step is never far: it is possible now, or after at most two of the loop's own steps. */
  lemma HelpfulIsNear(s: System, debounce: int) returns (steps: nat, a: Action)
    requires Inv(s) && Ripe(s, debounce) && s.owed != {}
    ensures steps <= 2
    ensures var n := Run(s, seq(steps, _ => Go), debounce); n.owed == {} || Helpful(n, a)
  {
    if s.place == Connected || s.place == ConnectedSync || s.place == Periodic || s.place.Syncing?
       || (s.place == Refreshed && s.timer.Some?) {
      if s.timer.None? && !s.queued {
        var id := Inhabited(s.senders);
        assert seq(0, _ => Go) == [];
        return 0, Send(id);
      }
      var n := Next(s, Go, debounce);
      NextKeeps(s, Go, debounce);
      NeverFurther(s, Go, debounce);
      assert seq(1, _ => Go) == [Go] && seq(2, _ => Go) == [Go, Go];
      assert [Go, Go][1..] == [Go] && [Go][1..] == [];
      if s.place == Connected { return 2, Go; }
      return 1, if n.timer.Some? then TakeTimer else TakeRefresh;
    }
    assert seq(0, _ => Go) == [];
    if s.place != AtSelect { return 0, Go; }
    if s.timer.Some? { return 0, TakeTimer; }
    if s.queued { return 0, TakeRefresh; }
    var id := Inhabited(s.senders);
    return 0, Send(id);
  }

  // ----- endless schedules -----

  /** The states of an endless run, and the actions between them. */
  type Trace = imap<int, System>
  type Schedule = imap<int, Action>

  ghost predicate StepAt(trace: Trace, sched: Schedule, i: int, debounce: int) {
    && i in trace && i + 1 in trace && i in sched && !sched[i].Request?
    && trace[i + 1] == Next(trace[i], sched[i], debounce)
  }

  /** Step follows step from 0 on, and none is a new request. */
  ghost predicate Endless(trace: Trace, sched: Schedule, debounce: int) {
    forall i {:trigger StepAt(trace, sched, i, debounce)} :: i >= 0 ==> StepAt(trace, sched, i, debounce)
  }

  /** Whatever the time, it comes: clock says by which step. */
  ghost predicate TimeGoesOn(trace: Trace, clock: imap<int, int>) {
    forall t :: t in clock && clock[t] >= 0 && clock[t] in trace && trace[clock[t]].now >= t
  }

  /** Where each kind of step that has been due from step i on is taken. */
  datatype Witness = Witness(go: imap<int, int>, timer: imap<int, int>, refresh: imap<int, int>,
                             send: imap<int, imap<int, int>>)

  /** Inside a case of the select the loop goes on sooner or later. */
  ghost predicate LoopGoesOn(trace: Trace, sched: Schedule, go: imap<int, int>) {
    forall i :: i >= 0 && i in trace && trace[i].place != AtSelect ==>
      i in go && i <= go[i] && go[i] in sched && sched[go[i]] == Go
  }

  /** A timer that has gone off is served sooner or later, unless it is no longer there. */
  ghost predicate TimerServed(trace: Trace, sched: Schedule, timer: imap<int, int>) {
    forall i :: i >= 0 && i in trace && TimerDue(trace[i]) ==>
      && i in timer && i <= timer[i] && timer[i] in trace && timer[i] in sched
      && (trace[timer[i]].timer.None? || (trace[timer[i]].place == AtSelect && sched[timer[i]] == TakeTimer))
  }

  predicate TimerDue(s: System) { s.timer.Some? && s.timer.value <= s.now }

  /** A queued signal is received sooner or later, unless it is no longer there. */
  ghost predicate RefreshServed(trace: Trace, sched: Schedule, refresh: imap<int, int>) {
    forall i :: i >= 0 && i in trace && trace[i].queued ==>
      && i in refresh && i <= refresh[i] && refresh[i] in trace && refresh[i] in sched
      && (!trace[refresh[i]].queued || (trace[refresh[i]].place == AtSelect && sched[refresh[i]] == TakeRefresh))
  }

  /** A request that has been recorded and not yet signalled is signalled sooner or later. */
  ghost predicate SendersSend(trace: Trace, sched: Schedule, send: imap<int, imap<int, int>>) {
    forall i, id :: i >= 0 && i in trace && id in trace[i].senders ==> SentLater(trace, sched, send, i, id)
  }

  ghost predicate SentLater(trace: Trace, sched: Schedule, send: imap<int, imap<int, int>>, i: int, id: int) {
    && i in send && id in send[i] && i <= send[i][id] && send[i][id] in trace && send[i][id] in sched
    && id in trace[send[i][id]].senders && sched[send[i][id]] == Send(id)
  }

  /** Every goroutine gets its turn and every ready case of the select its choice; nothing is said about the order. */
  ghost predicate Fair(trace: Trace, sched: Schedule, w: Witness) {
    && LoopGoesOn(trace, sched, w.go) && TimerServed(trace, sched, w.timer)
    && RefreshServed(trace, sched, w.refresh) && SendersSend(trace, sched, w.send)
  }

  /** By time t the quiet window and every deadline will be past. */
  predicate RipeBy(s: System, t: int, debounce: int) {
    && (s.locked.lastRequest.Some? ==> s.locked.lastRequest.value + debounce <= t)
    && (s.timer.Some? ==> s.timer.value <= t || s.timer.value <= s.now)
  }

  lemma RipeByKeeps(s: System, a: Action, t: int, debounce: int)
    requires Inv(s) && RipeBy(s, t, debounce) && !a.Request?
    ensures RipeBy(Next(s, a, debounce), t, debounce)
  {
    if a.Go? && s.place == Refreshed { return; }
    if a.Go? && s.place == Drained { return; }
  }

  lemma RipeByNext(trace: Trace, sched: Schedule, i: int, t: int, debounce: int)
    requires Endless(trace, sched, debounce) && i >= 0 && i in trace && Inv(trace[i]) && RipeBy(trace[i], t, debounce)
    ensures i + 1 in trace && Inv(trace[i + 1]) && RipeBy(trace[i + 1], t, debounce)
  {
    assert StepAt(trace, sched, i, debounce);
    NextKeeps(trace[i], sched[i], debounce);
    RipeByKeeps(trace[i], sched[i], t, debounce);
  }

  lemma {:induction false} RipeByAt(trace: Trace, sched: Schedule, n: int, t: int, debounce: int)
    requires Endless(trace, sched, debounce) && n >= 0 && 0 in trace && Inv(trace[0]) && RipeBy(trace[0], t, debounce)
    ensures n in trace && Inv(trace[n]) && RipeBy(trace[n], t, debounce)
    decreases n
  {
    if n == 0 { return; }
    RipeByAt(trace, sched, n - 1, t, debounce);
    RipeByNext(trace, sched, n - 1, t, debounce);
  }

  /** Ripe and still owed, no further off than `rank`. */
  ghost predicate Near(s: System, rank: nat, debounce: int) {
    Inv(s) && Ripe(s, debounce) && s.owed != {} && Rank(s) <= rank
  }

  lemma NearNext(trace: Trace, sched: Schedule, i: int, rank: nat, debounce: int)
    requires Endless(trace, sched, debounce) && i >= 0 && i in trace && Near(trace[i], rank, debounce)
    ensures i + 1 in trace && (trace[i + 1].owed == {} || Near(trace[i + 1], rank, debounce))
  {
    assert StepAt(trace, sched, i, debounce);
    NextKeeps(trace[i], sched[i], debounce);
    NeverFurther(trace[i], sched[i], debounce);
  }

  lemma NearerNext(trace: Trace, sched: Schedule, i: int, rank: nat, debounce: int)
    requires Endless(trace, sched, debounce) && i >= 0 && i in trace && Near(trace[i], rank, debounce)
    requires i in sched && Helpful(trace[i], sched[i])
    ensures i + 1 in trace && Nearer(trace[i + 1], rank, debounce)
  {
    assert StepAt(trace, sched, i, debounce);
    NextKeeps(trace[i], sched[i], debounce);
    NeverFurther(trace[i], sched[i], debounce);
    HelpfulIsNearer(trace[i], sched[i], debounce);
  }

  /** From a near state on, the sync comes no further off until it starts. */
  lemma {:induction false} Carry(trace: Trace, sched: Schedule, i: int, j: int, rank: nat, debounce: int)
    returns (n: int)
    requires Endless(trace, sched, debounce) && 0 <= i <= j && i in trace && Near(trace[i], rank, debounce)
    ensures i <= n <= j && n in trace && (trace[n].owed == {} || (n == j && Near(trace[n], rank, debounce)))
    decreases j - i
  {
    if i == j { return i; }
    n := Carry(trace, sched, i, j - 1, rank, debounce);
    if trace[n].owed == {} { return; }
    NearNext(trace, sched, j - 1, rank, debounce);
    n := j;
  }

  /** Something is owed, so fairness leads to a helpful step, or the sync is nearer by then. */
  lemma FairnessHelps(trace: Trace, sched: Schedule, w: Witness, i: int, rank: nat, debounce: int)
    returns (n: int, helped: bool)
    requires Endless(trace, sched, debounce) && Fair(trace, sched, w)
    requires i >= 0 && i in trace && Near(trace[i], rank, debounce) && Rank(trace[i]) == rank
    ensures n >= i && n in trace
    ensures helped ==> Near(trace[n], rank, debounce) && n in sched && Helpful(trace[n], sched[n])
    ensures !helped ==> Nearer(trace[n], rank, debounce)
  {
    var s := trace[i];
    var j: int;
    if rank == 7 {
      var id := Inhabited(s.senders);
      assert SentLater(trace, sched, w.send, i, id);
      j := w.send[i][id];
    } else if rank == 6 {
      j := w.refresh[i];
    } else if rank == 4 {
      assert TimerDue(s);
      j := w.timer[i];
    } else {
      j := w.go[i];
    }
    n := Carry(trace, sched, i, j, rank, debounce);
    helped := trace[n].owed != {} && Rank(trace[n]) == rank;
  }

  /** The sync has started, or is nearer than `rank`. */
  ghost predicate Nearer(s: System, rank: nat, debounce: int) {
    s.owed == {} || (rank > 0 && Near(s, rank - 1, debounce))
  }

  /** Sooner or later the sync has started or is nearer. */
  lemma FairnessProgresses(trace: Trace, sched: Schedule, w: Witness, i: int, rank: nat, debounce: int) returns (n: int)
    requires Endless(trace, sched, debounce) && Fair(trace, sched, w)
    requires i >= 0 && i in trace && Near(trace[i], rank, debounce)
    ensures n >= i && n in trace && Nearer(trace[n], rank, debounce)
  {
    if Rank(trace[i]) < rank { return i; }
    var helped;
    n, helped := FairnessHelps(trace, sched, w, i, rank, debounce);
    if !helped { return; }
    NearerNext(trace, sched, n, rank, debounce);
    n := n + 1;
  }

  lemma {:induction false} NearIsAnswered(trace: Trace, sched: Schedule, w: Witness, i: int, rank: nat, debounce: int)
    returns (n: int)
    requires Endless(trace, sched, debounce) && Fair(trace, sched, w)
    requires i >= 0 && i in trace && Near(trace[i], rank, debounce)
    ensures n in trace && trace[n].owed == {}
    decreases rank
  {
    n := FairnessProgresses(trace, sched, w, i, rank, debounce);
    if trace[n].owed == {} { return; }
    n := NearIsAnswered(trace, sched, w, n, rank - 1, debounce);
  }

  /** After any past, once no further requests come in, every fair schedule answers everything owed. */
  lemma EveryFairScheduleAnswers(past: seq<Action>, trace: Trace, sched: Schedule, clock: imap<int, int>, w: Witness,
                                 debounce: int) returns (n: int)
    requires 0 in trace && trace[0] == Run(Initial(), past, debounce)
    requires Endless(trace, sched, debounce) && TimeGoesOn(trace, clock) && Fair(trace, sched, w)
    ensures n in trace && trace[n].owed == {}
  {
    RunKeeps(Initial(), past, debounce);
    var s := trace[0];
    var last := if s.locked.lastRequest.Some? then s.locked.lastRequest.value + debounce else s.now;
    var t := if s.timer.Some? && s.timer.value > last then s.timer.value else last;
    assert t in clock;
    var i := clock[t];
    RipeByAt(trace, sched, i, t, debounce);
    if trace[i].owed == {} { return i; }
    n := NearIsAnswered(trace, sched, w, i, Rank(trace[i]), debounce);
  }
}
