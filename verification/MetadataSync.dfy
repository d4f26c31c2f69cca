/**
  The metadata sync runner: refresh requests are recorded under a lock, signalled through a
  one-place channel, and answered by one sync after a quiet window. Requests arrive from any
  number of goroutines while the runner's loop is anywhere in its own code.
 */
module MetadataSync {
  import opened Wrappers

  // ----- locked state -----

  datatype Locked = Locked(notificationMode: bool, activated: bool, lastRequest: Option<int>)

  /** recordRefreshRequest: before activation a request leaves no trace but the mode. */
  function Record(l: Locked, upstream: bool, now: int): Locked {
    var m := if upstream then l.(notificationMode := true) else l;
    if l.activated then m.(lastRequest := Some(now)) else m
  }

  /** refreshDebounceDelay. */
  function Delay(l: Locked, debounce: int, now: int): int {
    if l.lastRequest.None? then debounce
    else
      var delay := l.lastRequest.value + debounce - now;
      if delay < 0 then 0 else delay
  }

  class MetadataSyncRunner {
    var notificationMode: bool
    var activated: bool
    var lastRefreshRequestedAt: Option<int>
    const refreshDebounce: int

    ghost function Value(): Locked
      reads this
    {
      Locked(notificationMode, activated, lastRefreshRequestedAt)
    }

    /** A debounce that is not positive becomes one second. */
    constructor (debounce: int)
      ensures Value() == Locked(false, false, None)
      ensures refreshDebounce == (if debounce > 0 then debounce else 1)
    {
      notificationMode, activated, lastRefreshRequestedAt := false, false, None;
      refreshDebounce := if debounce > 0 then debounce else 1;
    }

    method RecordRefreshRequest(upstream: bool, now: int) returns (changed: bool, wasActivated: bool)
      modifies this
      ensures Value() == Record(old(Value()), upstream, now)
      ensures notificationMode == (old(notificationMode) || upstream) && activated == old(activated)
      ensures lastRefreshRequestedAt == if old(activated) then Some(now) else old(lastRefreshRequestedAt)
      ensures changed == (upstream && !old(notificationMode)) && wasActivated == old(activated)
    {
      changed := false;
      if upstream {
        changed := !notificationMode;
        notificationMode := true;
      }
      wasActivated := activated;
      if activated { lastRefreshRequestedAt := Some(now); }
    }

    /** The least wait, never negative, after which a full debounce has passed since the latest request. */
    method RefreshDebounceDelay(now: int) returns (delay: int)
      requires refreshDebounce > 0
      ensures delay >= 0 && delay == Delay(Value(), refreshDebounce, now)
      ensures lastRefreshRequestedAt.None? ==> delay == refreshDebounce
      ensures lastRefreshRequestedAt.Some? ==>
                var due := lastRefreshRequestedAt.value + refreshDebounce;
                now + delay >= due && (delay > 0 ==> now + delay == due)
    {
      if lastRefreshRequestedAt.None? { return refreshDebounce; }
      var dueAt := lastRefreshRequestedAt.value + refreshDebounce;
      delay := dueAt - now;
      if delay < 0 { return 0; }
    }
  }

  // ----- the loop and its callers -----

  /** Where the runner's loop stands: at the select, or inside one of its cases. */
  datatype Place = AtSelect
                 | Connected | ConnectedSync
                 | Periodic
                 | Refreshed
                 | Fired | Drained | DebounceSync
                 | Syncing(debounced: bool)

  /**
    queued and connected are the channels' single places. timer is the pending debounce timer's
    deadline. senders are requests recorded but not yet signalled. owed and early are history: the
    requests, made after and before activation, that no sync has started after. log are the times of
    the requests recorded since activation, and checked how many of them there were at the loop's
    latest look at the quiet window.
   */
  datatype System = System(now: int, locked: Locked, queued: bool, connected: bool, timer: Option<int>,
                           debounceSet: bool, place: Place, senders: set<int>, made: int,
                           owed: set<int>, early: set<int>, syncs: int, log: seq<int>, checked: int)

  datatype Action = Tick(time: int) | Request(upstream: bool) | Send(id: int) | SetMode(notification: bool)
                  | Connect | TakeConnected | TakePeriodic | TakeRefresh | TakeTimer | Go

  function Initial(): System {
    System(0, Locked(false, false, None), false, false, None, false, AtSelect, {}, 0, {}, {}, 0, [], 0)
  }

  /** A sync starts: every request made so far is answered by it. */
  function StartSync(s: System, debounced: bool): System {
    s.(place := Syncing(debounced), owed := {}, early := {}, syncs := s.syncs + 1)
  }

  function Arm(s: System, debounce: int): System {
    s.(timer := Some(s.now + Delay(s.locked, debounce, s.now)), debounceSet := true, place := AtSelect)
  }

  /** The loop goes on inside a case. */
  function Proceed(s: System, debounce: int): System {
    match s.place
    case AtSelect => s
    case Connected => s.(locked := s.locked.(activated := true), place := ConnectedSync)
    case ConnectedSync => StartSync(s, false)
    case Periodic =>
      if s.locked.activated && !s.locked.notificationMode then StartSync(s, false) else s.(place := AtSelect)
    case Refreshed => Arm(s, debounce)
    case Fired => s.(queued := false, place := Drained)
    case Drained =>
      if Delay(s.locked, debounce, s.now) > 0 then Arm(s, debounce) else s.(place := DebounceSync, checked := |s.log|)
    case DebounceSync => StartSync(s, true)
    case Syncing(debounced) =>
      if debounced then s.(timer := None, debounceSet := false, place := AtSelect) else s.(place := AtSelect)
  }

  function Next(s: System, a: Action, debounce: int): System {
    match a
    case Tick(time) => if time > s.now then s.(now := time) else s
    case Request(upstream) =>
      var n := s.(locked := Record(s.locked, upstream, s.now), made := s.made + 1);
      if s.locked.activated
      then n.(senders := s.senders + {s.made}, owed := s.owed + {s.made}, log := s.log + [s.now])
      else n.(early := s.early + {s.made})
    case Send(id) => if id in s.senders then s.(senders := s.senders - {id}, queued := true) else s
    case SetMode(notification) => s.(locked := s.locked.(notificationMode := notification))
    case Connect => s.(connected := true)
    case TakeConnected => if s.place == AtSelect && s.connected then s.(connected := false, place := Connected) else s
    case TakePeriodic => if s.place == AtSelect then s.(place := Periodic) else s
    case TakeRefresh => if s.place == AtSelect && s.queued then s.(queued := false, place := Refreshed) else s
    case TakeTimer =>
      if s.place == AtSelect && s.timer.Some? && s.timer.value <= s.now then s.(timer := None, place := Fired) else s
    case Go => Proceed(s, debounce)
  }

  // ----- what holds throughout -----

  /** Something is on its way that will end in a sync. */
  predicate UnderWay(s: System) {
    || s.queued || s.timer.Some? || s.senders != {}
    || s.place == Refreshed || s.place == Fired || s.place == Drained || s.place == DebounceSync
  }

  /** The loop is handling the debounce timer, which has gone off. */
  predicate Handling(p: Place) { p == Fired || p == Drained || p == DebounceSync || p == Syncing(true) }

  /** Signals of every kind come only from requests made after activation. */
  predicate Signalled(s: System) {
    || s.queued || s.timer.Some? || s.senders != {} || s.owed != {}
    || s.place == Refreshed || Handling(s.place)
  }

  predicate Inv(s: System) {
    && (s.owed != {} ==> UnderWay(s))
    && (s.early != {} ==> !s.locked.activated || s.place == ConnectedSync)
    && (s.syncs > 0 || s.place == ConnectedSync || Signalled(s) ==> s.locked.activated)
    && (Signalled(s) ==> s.locked.lastRequest.Some?)
    && (if Handling(s.place) then s.timer.None? else s.debounceSet == s.timer.Some?)
  }

  lemma RequestKeeps(s: System, upstream: bool, debounce: int)
    requires Inv(s)
    ensures Inv(Next(s, Request(upstream), debounce))
  {
    var n := Next(s, Request(upstream), debounce);
    assert s.locked.activated ==> s.made in n.senders;
    assert !s.locked.activated ==> s.made in n.early;
  }

  lemma ProceedKeeps(s: System, debounce: int)
    requires Inv(s)
    ensures Inv(Proceed(s, debounce))
  {
    match s.place
    case ConnectedSync => SyncKeeps(s, false);
    case DebounceSync => SyncKeeps(s, true);
    case Periodic => if s.locked.activated { SyncKeeps(s, false); }
    case _ =>
  }

  lemma SyncKeeps(s: System, debounced: bool)
    requires Inv(s) && s.locked.activated && (debounced ==> s.place == DebounceSync)
    requires !debounced ==> s.place == ConnectedSync || s.place == Periodic
    ensures Inv(StartSync(s, debounced))
  {
  }

  lemma OtherKeeps(s: System, a: Action, debounce: int)
    requires Inv(s) && !a.Request? && !a.Go?
    ensures Inv(Next(s, a, debounce))
  {
  }

  lemma NextKeeps(s: System, a: Action, debounce: int)
    requires Inv(s)
    ensures Inv(Next(s, a, debounce))
  {
    match a
    case Request(upstream) => RequestKeeps(s, upstream, debounce);
    case Go => ProceedKeeps(s, debounce);
    case _ => OtherKeeps(s, a, debounce);
  }

  function Run(s: System, actions: seq<Action>, debounce: int): System
    decreases |actions|
  {
    if actions == [] then s else Run(Next(s, actions[0], debounce), actions[1..], debounce)
  }

  lemma {:induction false} RunKeeps(s: System, actions: seq<Action>, debounce: int)
    requires Inv(s)
    ensures Inv(Run(s, actions, debounce))
    decreases |actions|
  {
    if actions == [] { return; }
    NextKeeps(s, actions[0], debounce);
    RunKeeps(Next(s, actions[0], debounce), actions[1..], debounce);
  }

  /** At every moment of every run: an owed request is on its way to a sync. */
  lemma NoRefreshIsLost(actions: seq<Action>, debounce: int)
    ensures var s := Run(Initial(), actions, debounce); s.owed != {} ==> UnderWay(s)
  {
    RunKeeps(Initial(), actions, debounce);
  }

  /**
    Requests made before activation wait for the first connected sync, which is then bound to start;
    and none starts earlier.
   */
  lemma FirstSyncCoversEarly(actions: seq<Action>, debounce: int)
    ensures var s := Run(Initial(), actions, debounce);
            && (s.early != {} && s.locked.activated ==> s.place == ConnectedSync && Proceed(s, debounce).early == {})
            && (s.syncs > 0 ==> s.locked.activated)
  {
    RunKeeps(Initial(), actions, debounce);
  }

  /** The latest request is the last one logged, and none is later. */
  predicate Logged(s: System) {
    && (s.locked.lastRequest.None? <==> s.log == [])
    && (s.log != [] ==> s.locked.lastRequest == Some(s.log[|s.log| - 1]) && s.log[|s.log| - 1] <= s.now)
    && (forall i :: 0 <= i < |s.log| ==> s.log[i] <= s.log[|s.log| - 1])
  }

  /** About to sync: every request logged by the latest look is a full debounce old. */
  predicate Quiet(s: System, debounce: int) {
    s.place == DebounceSync ==>
      0 <= s.checked <= |s.log| && forall i :: 0 <= i < s.checked ==> s.log[i] + debounce <= s.now
  }

  lemma LoggedKeeps(s: System, a: Action, debounce: int)
    requires Logged(s) && Inv(s)
    ensures Logged(Next(s, a, debounce))
  {
    if a.Request? {
      if !s.locked.activated { return; }
      LogGrows(s.log, s.now);
      return;
    }
    if a.Go? { ProceedLogsNothing(s, debounce); }
  }

  lemma ProceedLogsNothing(s: System, debounce: int)
    ensures var n := Proceed(s, debounce);
            n.log == s.log && n.locked.lastRequest == s.locked.lastRequest && n.now == s.now
  {
  }

  lemma LogGrows(log: seq<int>, now: int)
    requires forall i :: 0 <= i < |log| ==> log[i] <= log[|log| - 1]
    requires log != [] ==> log[|log| - 1] <= now
    ensures forall i :: 0 <= i < |log + [now]| ==> (log + [now])[i] <= now
  {
  }

  lemma QuietKeeps(s: System, a: Action, debounce: int)
    requires Logged(s) && Quiet(s, debounce) && Inv(s)
    ensures Quiet(Next(s, a, debounce), debounce)
  {
    if a.Go? && s.place == Drained { return; }
    var n := Next(s, a, debounce);
    if n.place != DebounceSync { return; }
    assert s.place == DebounceSync && n.checked == s.checked && s.now <= n.now;
    assert forall i :: 0 <= i < |s.log| ==> n.log[i] == s.log[i];
  }

  lemma {:induction false} RunQuiet(s: System, actions: seq<Action>, debounce: int)
    requires Logged(s) && Quiet(s, debounce) && Inv(s)
    ensures Logged(Run(s, actions, debounce)) && Quiet(Run(s, actions, debounce), debounce)
    decreases |actions|
  {
    if actions == [] { return; }
    NextKeeps(s, actions[0], debounce);
    LoggedKeeps(s, actions[0], debounce);
    QuietKeeps(s, actions[0], debounce);
    RunQuiet(Next(s, actions[0], debounce), actions[1..], debounce);
  }

  /**
    When a refresh sync starts, a request of the last debounce can only have been recorded after the
    loop's look at the quiet window: everything before that look is at least a debounce old.
   */
  lemma QuietWindow(actions: seq<Action>, debounce: int, s: System, i: int)
    requires s == Run(Initial(), actions, debounce) && s.place == DebounceSync && 0 <= i < |s.log|
    ensures 0 <= s.checked <= |s.log| && (s.now < s.log[i] + debounce ==> s.checked <= i)
  {
    RunQuiet(Initial(), actions, debounce);
  }

  // ----- every owed request can still be answered -----

  /** Time has moved past the quiet window and past any deadline. */
  predicate Ripe(s: System, debounce: int) {
    && (s.locked.lastRequest.Some? ==> s.locked.lastRequest.value + debounce <= s.now)
    && (s.timer.Some? ==> s.timer.value <= s.now)
  }

  /** Steps still needed until a sync starts. */
  function Distance(s: System): nat {
    match s.place
    case DebounceSync => 1
    case Drained => 2
    case Fired => 3
    case ConnectedSync => 1
    case Connected => 2
    case Refreshed => 5
    case AtSelect => if s.timer.Some? then 4 else if s.queued then 6 else 7
    case _ => 8
  }

  /** What to do next to get there: the loop's own step, or a waiting signal's. */
  lemma Approach(s: System, debounce: int) returns (a: Action)
    requires Inv(s) && Ripe(s, debounce) && s.owed != {} && debounce > 0
    ensures !a.Request?
    ensures var n := Next(s, a, debounce); Ripe(n, debounce) && (n.owed == {} || Distance(n) < Distance(s))
  {
    if s.place != AtSelect { return Go; }
    if s.timer.Some? { return TakeTimer; }
    if s.queued { return TakeRefresh; }
    var id := Inhabited(s.senders);
    return Send(id);
  }

  predicate NoRequests(actions: seq<Action>) { forall i :: 0 <= i < |actions| ==> !actions[i].Request? }

  lemma {:induction false} RipeIsAnswered(s: System, debounce: int) returns (actions: seq<Action>)
    requires Inv(s) && Ripe(s, debounce) && debounce > 0
    ensures NoRequests(actions) && |actions| <= 8 && Run(s, actions, debounce).owed == {}
    ensures |actions| <= Distance(s)
    decreases Distance(s)
  {
    if s.owed == {} { return []; }
    var a := Approach(s, debounce);
    var n := Next(s, a, debounce);
    NextKeeps(s, a, debounce);
    if n.owed == {} {
      actions := [a];
      assert Run(n, actions[1..], debounce) == n;
    } else {
      var rest := RipeIsAnswered(n, debounce);
      actions := [a] + rest;
      assert actions[1..] == rest;
    }
  }

  /** Whatever has happened, some continuation without further requests answers everything owed. */
  lemma EveryRequestCanBeAnswered(past: seq<Action>, debounce: int) returns (future: seq<Action>)
    requires debounce > 0
    ensures NoRequests(future) && |future| <= 9
    ensures Run(Run(Initial(), past, debounce), future, debounce).owed == {}
  {
    RunKeeps(Initial(), past, debounce);
    var s := Run(Initial(), past, debounce);
    var last := if s.locked.lastRequest.Some? then s.locked.lastRequest.value + debounce else s.now;
    var due := if s.timer.Some? && s.timer.value > last then s.timer.value else last;
    var n := Next(s, Tick(due), debounce);
    NextKeeps(s, Tick(due), debounce);
    var rest := RipeIsAnswered(n, debounce);
    future := [Tick(due)] + rest;
    assert future[1..] == rest;
  }

  // ----- what the loop's turns do -----

  /** A tick of the period syncs when the runner is activated and polls, and only then; the loop goes on either way. */
  lemma PollSyncs(s: System, debounce: int)
    requires s.place == AtSelect
    ensures var n := Run(s, [TakePeriodic, Go], debounce);
            if s.locked.activated && !s.locked.notificationMode
            then n.syncs == s.syncs + 1 && n.owed == {} && n.early == {} && n.place == Syncing(false)
            else n == s
  {
    assert [TakePeriodic, Go][1..] == [Go];
    RunTwo(s, TakePeriodic, Go, debounce);
  }

  lemma RunTwo(s: System, a: Action, b: Action, debounce: int)
    ensures Run(s, [a, b], debounce) == Next(Next(s, a, debounce), b, debounce)
  {
    assert [a, b][1..] == [b] && [b][1..] == [];
    assert Run(Next(s, a, debounce), [b], debounce) == Run(Next(Next(s, a, debounce), b, debounce), [], debounce);
  }

  /** A connection activates the runner and syncs, whatever the mode. */
  lemma ConnectionSyncs(s: System, debounce: int)
    requires s.place == AtSelect
    ensures var c := Next(Next(s, Connect, debounce), TakeConnected, debounce);
            var n := Run(c, [Go, Go], debounce);
            && n.locked == s.locked.(activated := true) && n.syncs == s.syncs + 1 && !n.connected
            && n.owed == {} && n.early == {} && n.place == Syncing(false)
  {
    RunTwo(Next(Next(s, Connect, debounce), TakeConnected, debounce), Go, Go, debounce);
  }

  /** An activated runner owes every request a sync from now on; before that it only waits for the connection. */
  lemma RequestOwes(s: System, upstream: bool, debounce: int)
    ensures var n := Next(s, Request(upstream), debounce);
            && n.locked.notificationMode == (s.locked.notificationMode || upstream)
            && n.locked.activated == s.locked.activated && n.syncs == s.syncs
            && (s.locked.activated ==> n.owed == s.owed + {s.made} && s.made in n.senders && n.early == s.early)
            && (s.locked.activated ==> n.locked.lastRequest == Some(s.now))
            && (!s.locked.activated ==> n.owed == s.owed && n.early == s.early + {s.made} && n.senders == s.senders)
            && (!s.locked.activated ==> n.locked.lastRequest == s.locked.lastRequest)
  {
  }

  /** A signal arms the timer for one debounce after the latest request, or for now when that is past. */
  lemma SignalArms(s: System, debounce: int)
    requires s.place == AtSelect && s.queued
    ensures var n := Run(s, [TakeRefresh, Go], debounce);
            && n.place == AtSelect && !n.queued && n.syncs == s.syncs && n.timer.Some?
            && (s.locked.lastRequest.Some? ==>
                 var due := s.locked.lastRequest.value + debounce;
                 n.timer.value == if due > s.now then due else s.now)
  {
    RunTwo(s, TakeRefresh, Go, debounce);
  }

  /** The timer syncs when the latest request is a debounce old, and is armed for that moment when it is not. */
  lemma TimerSyncs(s: System, debounce: int)
    requires s.place == Fired && s.locked.lastRequest.Some?
    ensures var due := s.locked.lastRequest.value + debounce;
            var n := Run(s, [Go, Go], debounce);
            && !n.queued && n.syncs == s.syncs
            && (due > s.now ==> n.place == AtSelect && n.timer == Some(due))
            && (due <= s.now ==> n.place == DebounceSync)
    ensures s.locked.lastRequest.value + debounce <= s.now ==>
              var n := Run(Run(s, [Go, Go], debounce), [Go, Go], debounce);
              n.syncs == s.syncs + 1 && n.owed == {} && n.early == {} && n.timer.None? && n.place == AtSelect
  {
    RunTwo(s, Go, Go, debounce);
    RunTwo(Run(s, [Go, Go], debounce), Go, Go, debounce);
  }
}
