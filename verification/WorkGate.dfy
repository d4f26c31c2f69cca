/**
  The aggregation work gate: ordinary turns, a pause that waits for them to drain, and one piece
  of controlled work while paused. Critical sections are atomic; between them any thread may run.
 */
module WorkGate {
  import opened Wrappers

  // ----- the gate and its critical sections -----

  /** Channels are numbered as they are made; `closed` are those that have been broadcast on. */
  datatype Gate = Gate(changed: Option<int>, made: int, closed: set<int>,
                       paused: bool, ready: bool, active: int, controlled: bool)

  /** Where a goroutine stands. A wait names the channel it blocks on, a pause its number. */
  datatype Place =
    | Out
    | Entering | EnterWait(chan: int) | InTurn
    | Draining(pause: int) | DrainWait(pause: int, chan: int)
    | Resuming(pause: int) | ResumeWait(pause: int, chan: int) | ResumeRetry(pause: int)
    | OnceWait(pause: int)
    | Controlling

  /** changeChannelLocked. */
  function Listen(g: Gate): Gate {
    if g.changed.Some? then g else g.(changed := Some(g.made), made := g.made + 1)
  }

  function Channel(g: Gate): int {
    if g.changed.Some? then g.changed.value else g.made
  }

  /** notifyLocked. */
  function Notify(g: Gate): Gate {
    if g.changed.None? then g else g.(changed := None, closed := g.closed + {g.changed.value})
  }

  function EnterLocked(g: Gate, cancelled: bool): (Gate, Place) {
    if cancelled then (g, Out)
    else if !g.paused then (g.(active := g.active + 1), InTurn)
    else (Listen(g), EnterWait(Channel(g)))
  }

  function LeaveLocked(g: Gate): Gate {
    var h := g.(active := g.active - 1);
    if h.active == 0 then Notify(h) else h
  }

  function PauseLocked(g: Gate, cancelled: bool, id: int): (Gate, Place) {
    if cancelled || g.paused then (g, Out) else (g.(paused := true), Draining(id))
  }

  function SettleLocked(g: Gate, cancelled: bool, id: int): (Gate, Place) {
    if cancelled then (g, Resuming(id))
    else if g.active == 0 then (g.(ready := true), Out)
    else (Listen(g), DrainWait(id, Channel(g)))
  }

  /** The loop of resume, after `ready` has been cleared. */
  function ResumeLocked(g: Gate, id: int): (Gate, Place) {
    if g.controlled then (Listen(g), ResumeWait(id, Channel(g)))
    else (Notify(g.(paused := false)), Out)
  }

  function BeginLocked(g: Gate, cancelled: bool): (Gate, Place) {
    if cancelled || !g.paused || !g.ready || g.controlled then (g, Out)
    else (g.(controlled := true), Controlling)
  }

  function FinishLocked(g: Gate): Gate { Notify(g.(controlled := false)) }

  /** The gate object; each method is the code between one Lock and its Unlock. */
  class AggregationWorkGate {
    var changed: Option<int>
    var paused: bool
    var ready: bool
    var active: int
    var controlled: bool
    ghost var made: int
    ghost var closed: set<int>
    var nextChannel: int

    ghost predicate Valid()
      reads this
    {
      nextChannel == made
    }

    ghost function Value(): Gate
      reads this
    {
      Gate(changed, made, closed, paused, ready, active, controlled)
    }

    constructor ()
      ensures Valid() && Value() == Gate(None, 0, {}, false, false, 0, false)
    {
      changed, paused, ready, active, controlled := None, false, false, 0, false;
      made, closed, nextChannel := 0, {}, 0;
    }

    method ChangeChannelLocked() returns (c: int)
      requires Valid()
      modifies this
      ensures Valid() && Value() == Listen(old(Value())) && c == Channel(old(Value()))
    {
      if changed.None? {
        changed := Some(nextChannel);
        made, nextChannel := made + 1, nextChannel + 1;
      }
      return changed.value;
    }

    method NotifyLocked()
      requires Valid()
      modifies this
      ensures Valid() && Value() == Notify(old(Value()))
    {
      if changed.Some? {
        closed := closed + {changed.value};
        changed := None;
      }
    }

    method Enter(cancelled: bool) returns (next: Place)
      requires Valid()
      modifies this
      ensures Valid() && (Value(), next) == EnterLocked(old(Value()), cancelled)
    {
      if cancelled { return Out; }
      if !paused {
        active := active + 1;
        return InTurn;
      }
      var c := ChangeChannelLocked();
      return EnterWait(c);
    }

    method Leave()
      requires Valid()
      modifies this
      ensures Valid() && Value() == LeaveLocked(old(Value()))
    {
      active := active - 1;
      if active == 0 { NotifyLocked(); }
    }

    method Pause(cancelled: bool, id: int) returns (next: Place)
      requires Valid()
      modifies this
      ensures Valid() && (Value(), next) == PauseLocked(old(Value()), cancelled, id)
    {
      if cancelled || paused { return Out; }
      paused := true;
      return Draining(id);
    }

    method Settle(cancelled: bool, id: int) returns (next: Place)
      requires Valid()
      modifies this
      ensures Valid() && (Value(), next) == SettleLocked(old(Value()), cancelled, id)
    {
      if cancelled { return Resuming(id); }
      if active == 0 {
        ready := true;
        return Out;
      }
      var c := ChangeChannelLocked();
      return DrainWait(id, c);
    }

    method Resume(first: bool, id: int) returns (next: Place)
      requires Valid()
      modifies this
      ensures Valid()
      ensures (Value(), next) == ResumeLocked(if first then old(Value()).(ready := false) else old(Value()), id)
    {
      if first { ready := false; }
      if controlled {
        var c := ChangeChannelLocked();
        return ResumeWait(id, c);
      }
      paused := false;
      NotifyLocked();
      return Out;
    }

    method BeginControlled(cancelled: bool) returns (next: Place)
      requires Valid()
      modifies this
      ensures Valid() && (Value(), next) == BeginLocked(old(Value()), cancelled)
    {
      if cancelled { return Out; }
      if !paused || !ready { return Out; }
      if controlled { return Out; }
      controlled := true;
      return Controlling;
    }

    method FinishControlled()
      requires Valid()
      modifies this
      ensures Valid() && Value() == FinishLocked(old(Value()))
    {
      controlled := false;
      NotifyLocked();
    }
  }

  // ----- many goroutines -----

  /** The state of a resume function, which runs its body once (sync.OnceFunc). */
  datatype Once = NotRun | Running | Done

  /** A pause that took effect; once settled its resume function is in the callers' hands. */
  datatype PauseCall = PauseCall(settled: bool, once: Once)

  /**
    owner, controller and turns repeat what the places say: who is inside the current pause's
    pause or resume code, who does controlled work, who is in an ordinary turn.
   */
  datatype System = System(gate: Gate, pauses: seq<PauseCall>, places: map<int, Place>,
                           owner: Option<int>, controller: Option<int>, turns: set<int>)

  datatype Action = StartEnter | StartPause | StartControlled | CallResume(pause: int) | Go

  function Initial(threads: set<int>): System {
    System(Gate(None, 0, {}, false, false, 0, false), [], map t | t in threads :: Out, None, None, {})
  }

  predicate Owns(p: Place) { p.Draining? || p.DrainWait? || p.Resuming? || p.ResumeWait? || p.ResumeRetry? }

  /** Thread t moves to a place; the bookkeeping follows. */
  function Move(s: System, t: int, p: Place, g: Gate, pauses: seq<PauseCall>): System {
    System(g, pauses, s.places[t := p],
           if Owns(p) then Some(t) else if s.owner == Some(t) then None else s.owner,
           if p.Controlling? then Some(t) else if s.controller == Some(t) then None else s.controller,
           if p.InTurn? then s.turns + {t} else if t in s.turns then s.turns - {t} else s.turns)
  }

  function SetOnce(pauses: seq<PauseCall>, p: int, o: Once): seq<PauseCall> {
    if 0 <= p < |pauses| then pauses[p := pauses[p].(once := o)] else pauses
  }

  function SetSettled(pauses: seq<PauseCall>, p: int): seq<PauseCall> {
    if 0 <= p < |pauses| then pauses[p := pauses[p].(settled := true)] else pauses
  }

  /** A goroutine with nothing to do starts something. */
  function Start(s: System, t: int, a: Action, cancelled: bool): System {
    match a
    case StartEnter =>
      var (g, p) := EnterLocked(s.gate, cancelled); Move(s, t, p, g, s.pauses)
    case StartPause =>
      var (g, p) := PauseLocked(s.gate, cancelled, |s.pauses|);
      Move(s, t, p, g, if p.Draining? then s.pauses + [PauseCall(false, NotRun)] else s.pauses)
    case StartControlled =>
      var (g, p) := BeginLocked(s.gate, cancelled); Move(s, t, p, g, s.pauses)
    case CallResume(id) =>
      if !(0 <= id < |s.pauses| && s.pauses[id].settled) then s
      else if s.pauses[id].once == NotRun then Move(s, t, Resuming(id), s.gate, SetOnce(s.pauses, id, Running))
      else if s.pauses[id].once == Running then Move(s, t, OnceWait(id), s.gate, s.pauses)
      else s
    case Go => s
  }

  function ResumeStep(s: System, t: int, g: Gate, id: int): System {
    var (h, p) := ResumeLocked(g, id);
    Move(s, t, p, h, if p.Out? then SetOnce(s.pauses, id, Done) else s.pauses)
  }

  /** A goroutine goes on from where it stands; a wait whose channel is still open stays put. */
  function Continue(s: System, t: int, cancelled: bool): System
    requires t in s.places
  {
    match s.places[t]
    case Out => s
    case Entering =>
      var (g, p) := EnterLocked(s.gate, cancelled); Move(s, t, p, g, s.pauses)
    case EnterWait(c) =>
      if cancelled then Move(s, t, Out, s.gate, s.pauses)
      else if c in s.gate.closed then Move(s, t, Entering, s.gate, s.pauses)
      else s
    case InTurn => Move(s, t, Out, LeaveLocked(s.gate), s.pauses)
    case Draining(id) =>
      var (g, p) := SettleLocked(s.gate, cancelled, id);
      Move(s, t, p, g, if p.Out? then SetSettled(s.pauses, id)
                       else if p.Resuming? then SetOnce(s.pauses, id, Running) else s.pauses)
    case DrainWait(id, c) =>
      if cancelled then Move(s, t, Resuming(id), s.gate, SetOnce(s.pauses, id, Running))
      else if c in s.gate.closed then Move(s, t, Draining(id), s.gate, s.pauses)
      else s
    case Resuming(id) => ResumeStep(s, t, s.gate.(ready := false), id)
    case ResumeWait(id, c) =>
      if c in s.gate.closed then Move(s, t, ResumeRetry(id), s.gate, s.pauses) else s
    case ResumeRetry(id) => ResumeStep(s, t, s.gate, id)
    case OnceWait(id) =>
      if 0 <= id < |s.pauses| && s.pauses[id].once == Done then Move(s, t, Out, s.gate, s.pauses) else s
    case Controlling => Move(s, t, Out, FinishLocked(s.gate), s.pauses)
  }

  function Next(s: System, t: int, a: Action, cancelled: bool): System {
    if t !in s.places then s
    else if s.places[t].Out? then Start(s, t, a, cancelled)
    else Continue(s, t, cancelled)
  }

  // ----- invariants -----

  /** A channel is open only while it is the gate's current one. */
  ghost predicate Channels(g: Gate) {
    && 0 <= g.made
    && (g.changed.Some? ==> 0 <= g.changed.value < g.made && g.changed.value !in g.closed)
    && (forall c :: 0 <= c < g.made ==> c in g.closed || g.changed == Some(c))
    && (forall c :: c in g.closed ==> 0 <= c < g.made)
  }

  ghost predicate Bookkeeping(s: System) {
    && (forall t :: t in s.places && Owns(s.places[t]) <==> s.owner == Some(t))
    && (forall t :: t in s.places && s.places[t].Controlling? <==> s.controller == Some(t))
    && (forall t :: t in s.places && s.places[t].InTurn? <==> t in s.turns)
    && s.gate.active == |s.turns|
    && (s.gate.controlled <==> s.controller.Some?)
  }

  ghost predicate Exclusive(g: Gate) {
    && (g.controlled ==> g.paused && g.active == 0)
    && (g.ready ==> g.paused && g.active == 0)
  }

  /** Only the newest pause can be unfinished, and the gate is paused exactly while it is. */
  ghost predicate Pauses(s: System) {
    var n := |s.pauses|;
    && (forall p :: 0 <= p < n - 1 ==> s.pauses[p].once == Done)
    && (s.gate.paused <==> n > 0 && s.pauses[n - 1].once != Done)
    && (s.gate.ready ==> n > 0 && s.pauses[n - 1].settled)
    && (s.owner.Some? <==> n > 0 && (s.pauses[n - 1].once == Running
                                     || (s.pauses[n - 1].once == NotRun && !s.pauses[n - 1].settled)))
  }

  /** What a goroutine may rely on where it stands: a wait on an open channel is a wait worth having. */
  ghost predicate Standing(s: System, p: Place) {
    var n := |s.pauses|;
    match p
    case EnterWait(c) => 0 <= c < s.gate.made && (c !in s.gate.closed ==> s.gate.paused)
    case Draining(id) => id == n - 1 && n > 0 && s.pauses[id].once == NotRun
    case DrainWait(id, c) =>
      && id == n - 1 && n > 0 && s.pauses[id].once == NotRun
      && 0 <= c < s.gate.made && (c !in s.gate.closed ==> s.gate.active != 0)
    case Resuming(id) => id == n - 1 && n > 0 && s.pauses[id].once == Running
    case ResumeWait(id, c) =>
      && id == n - 1 && n > 0 && s.pauses[id].once == Running && !s.gate.ready
      && 0 <= c < s.gate.made && (c !in s.gate.closed ==> s.gate.controlled)
    case ResumeRetry(id) => id == n - 1 && n > 0 && s.pauses[id].once == Running && !s.gate.ready
    case OnceWait(id) => 0 <= id < n && s.pauses[id].once != NotRun
    case _ => true
  }

  ghost predicate Inv(s: System) {
    && Channels(s.gate) && Bookkeeping(s) && Exclusive(s.gate) && Pauses(s)
    && (forall t :: t in s.places ==> Standing(s, s.places[t]))
  }

  lemma InitialInv(threads: set<int>)
    ensures Inv(Initial(threads))
  {
  }

  /** Moving without touching the gate or the pauses. */
  lemma StepAside(s: System, t: int, p: Place)
    requires Inv(s) && t in s.places && Owns(p) == Owns(s.places[t]) && Standing(s, p)
    requires !p.InTurn? && !p.Controlling? && !s.places[t].InTurn? && !s.places[t].Controlling?
    ensures Inv(Move(s, t, p, s.gate, s.pauses))
  {
    var n := Move(s, t, p, s.gate, s.pauses);
    assert n.owner == s.owner && n.controller == s.controller && n.turns == s.turns;
    forall u | u in n.places ensures Standing(n, n.places[u]) {
      if u != t { assert Standing(s, s.places[u]); }
    }
  }

  /** The first run of the current pause's resume begins. */
  lemma BeginResumeKeeps(s: System, t: int, id: int)
    requires Inv(s) && t in s.places && (s.owner == Some(t) || s.owner == None)
    requires !s.places[t].InTurn? && !s.places[t].Controlling?
    requires id == |s.pauses| - 1 && id >= 0 && s.pauses[id].once == NotRun
    ensures Inv(Move(s, t, Resuming(id), s.gate, SetOnce(s.pauses, id, Running)))
  {
    var n := Move(s, t, Resuming(id), s.gate, SetOnce(s.pauses, id, Running));
    assert n.controller == s.controller && n.turns == s.turns;
    assert Bookkeeping(n);
    forall u | u in n.places ensures Standing(n, n.places[u]) {
      if u != t { assert Standing(s, s.places[u]) && !Owns(s.places[u]); }
    }
  }

  lemma EnterKeeps(s: System, t: int, cancelled: bool)
    requires Inv(s) && t in s.places && (s.places[t].Out? || s.places[t].Entering?)
    ensures var (g, p) := EnterLocked(s.gate, cancelled); Inv(Move(s, t, p, g, s.pauses))
  {
    if cancelled {
      StepAside(s, t, Out);
    } else if s.gate.paused {
      ListenKeeps(s);
      StepAside(s.(gate := Listen(s.gate)), t, EnterWait(Channel(s.gate)));
    } else {
      TurnBegins(s, t);
    }
  }

  lemma TurnBegins(s: System, t: int)
    requires Inv(s) && t in s.places && (s.places[t].Out? || s.places[t].Entering?) && !s.gate.paused
    ensures Inv(Move(s, t, InTurn, s.gate.(active := s.gate.active + 1), s.pauses))
  {
    var n := Move(s, t, InTurn, s.gate.(active := s.gate.active + 1), s.pauses);
    assert t !in s.turns;
    assert Bookkeeping(n);
  }

  /** Making the channel a wait will block on disturbs nobody. */
  lemma ListenKeeps(s: System)
    requires Inv(s)
    ensures Inv(s.(gate := Listen(s.gate)))
    ensures 0 <= Channel(s.gate) < Listen(s.gate).made && Channel(s.gate) !in Listen(s.gate).closed
  {
    var n := s.(gate := Listen(s.gate));
    assert Channels(n.gate);
    forall u | u in n.places ensures Standing(n, n.places[u]) { assert Standing(s, s.places[u]); }
  }

  lemma LeaveKeeps(s: System, t: int)
    requires Inv(s) && t in s.places && s.places[t].InTurn?
    ensures Inv(Move(s, t, Out, LeaveLocked(s.gate), s.pauses))
  {
    var n := Move(s, t, Out, LeaveLocked(s.gate), s.pauses);
    assert Channels(n.gate);
    assert Bookkeeping(n);
  }

  lemma PauseKeeps(s: System, t: int, cancelled: bool)
    requires Inv(s) && t in s.places && s.places[t].Out?
    ensures Inv(Start(s, t, StartPause, cancelled))
  {
    var n := Start(s, t, StartPause, cancelled);
    assert Channels(n.gate);
    assert Bookkeeping(n);
  }

  lemma SettleKeeps(s: System, t: int, cancelled: bool)
    requires Inv(s) && t in s.places && s.places[t].Draining?
    ensures Inv(Continue(s, t, cancelled))
  {
    var id := s.places[t].pause;
    assert Standing(s, s.places[t]);
    if cancelled {
      BeginResumeKeeps(s, t, id);
    } else if s.gate.active != 0 {
      ListenKeeps(s);
      StepAside(s.(gate := Listen(s.gate)), t, DrainWait(id, Channel(s.gate)));
    } else {
      var n := Continue(s, t, cancelled);
      assert Bookkeeping(n);
    }
  }

  lemma ResumeKeeps(s: System, t: int, cancelled: bool)
    requires Inv(s) && t in s.places && (s.places[t].Resuming? || s.places[t].ResumeRetry?)
    ensures Inv(Continue(s, t, cancelled))
  {
    var id := s.places[t].pause;
    assert Standing(s, s.places[t]);
    var r := s.(gate := s.gate.(ready := false));
    UnreadyKeeps(s);
    if s.gate.controlled {
      ListenKeeps(r);
      StepAside(r.(gate := Listen(r.gate)), t, ResumeWait(id, Channel(r.gate)));
    } else {
      ResumeEnds(r, t, id);
    }
  }

  lemma UnreadyKeeps(s: System)
    requires Inv(s)
    ensures Inv(s.(gate := s.gate.(ready := false)))
  {
    var n := s.(gate := s.gate.(ready := false));
    forall u | u in n.places ensures Standing(n, n.places[u]) { assert Standing(s, s.places[u]); }
  }

  lemma ResumeEnds(s: System, t: int, id: int)
    requires Inv(s) && t in s.places && s.owner == Some(t) && !s.gate.controlled && !s.gate.ready
    requires id == |s.pauses| - 1 && id >= 0 && s.pauses[id].once == Running
    ensures Inv(Move(s, t, Out, Notify(s.gate.(paused := false)), SetOnce(s.pauses, id, Done)))
  {
    var n := Move(s, t, Out, Notify(s.gate.(paused := false)), SetOnce(s.pauses, id, Done));
    assert Channels(n.gate);
    assert Bookkeeping(n);
    forall u | u in n.places ensures Standing(n, n.places[u]) {
      if u != t { assert Standing(s, s.places[u]) && !Owns(s.places[u]); }
    }
  }

  lemma WaitKeeps(s: System, t: int, cancelled: bool)
    requires Inv(s) && t in s.places
    requires s.places[t].EnterWait? || s.places[t].DrainWait? || s.places[t].ResumeWait? || s.places[t].OnceWait?
    ensures Inv(Continue(s, t, cancelled))
  {
    assert Standing(s, s.places[t]);
    match s.places[t]
    case EnterWait(c) => StepAside(s, t, Out); StepAside(s, t, Entering);
    case DrainWait(id, c) =>
      StepAside(s, t, Draining(id));
      BeginResumeKeeps(s, t, id);
    case ResumeWait(id, c) => StepAside(s, t, ResumeRetry(id));
    case OnceWait(id) => StepAside(s, t, Out);
  }

  lemma BeginKeeps(s: System, t: int, cancelled: bool)
    requires Inv(s) && t in s.places && s.places[t].Out?
    ensures Inv(Start(s, t, StartControlled, cancelled))
  {
    var n := Start(s, t, StartControlled, cancelled);
    assert Bookkeeping(n);
  }

  lemma FinishKeeps(s: System, t: int)
    requires Inv(s) && t in s.places && s.places[t].Controlling?
    ensures Inv(Move(s, t, Out, FinishLocked(s.gate), s.pauses))
  {
    var n := Move(s, t, Out, FinishLocked(s.gate), s.pauses);
    assert Channels(n.gate);
    assert Bookkeeping(n);
  }

  lemma CallResumeKeeps(s: System, t: int, id: int, cancelled: bool)
    requires Inv(s) && t in s.places && s.places[t].Out?
    ensures Inv(Start(s, t, CallResume(id), cancelled))
  {
    if 0 <= id < |s.pauses| && s.pauses[id].settled {
      if s.pauses[id].once == NotRun {
        BeginResumeKeeps(s, t, id);
      } else if s.pauses[id].once == Running {
        StepAside(s, t, OnceWait(id));
      }
    }
  }

  lemma NextKeeps(s: System, t: int, a: Action, cancelled: bool)
    requires Inv(s)
    ensures Inv(Next(s, t, a, cancelled))
  {
    if t in s.places {
      match s.places[t]
      case Out =>
        match a {
          case StartEnter => EnterKeeps(s, t, cancelled);
          case StartPause => PauseKeeps(s, t, cancelled);
          case StartControlled => BeginKeeps(s, t, cancelled);
          case CallResume(id) => CallResumeKeeps(s, t, id, cancelled);
          case Go =>
        }
      case Entering => EnterKeeps(s, t, cancelled);
      case InTurn => LeaveKeeps(s, t);
      case Draining(_) => SettleKeeps(s, t, cancelled);
      case Resuming(_) => ResumeKeeps(s, t, cancelled);
      case ResumeRetry(_) => ResumeKeeps(s, t, cancelled);
      case Controlling => FinishKeeps(s, t);
      case _ => WaitKeeps(s, t, cancelled);
    }
  }

  // ----- every run -----

  datatype Turn = Turn(thread: int, action: Action, cancelled: bool)

  /** Any number of goroutines, scheduled in any order. */
  function Run(threads: set<int>, turns: seq<Turn>): System {
    if turns == [] then Initial(threads)
    else
      var last := turns[|turns| - 1];
      Next(Run(threads, turns[..|turns| - 1]), last.thread, last.action, last.cancelled)
  }

  lemma {:induction false} RunInv(threads: set<int>, turns: seq<Turn>)
    ensures Inv(Run(threads, turns))
  {
    if turns == [] {
      InitialInv(threads);
    } else {
      var last := turns[|turns| - 1];
      RunInv(threads, turns[..|turns| - 1]);
      NextKeeps(Run(threads, turns[..|turns| - 1]), last.thread, last.action, last.cancelled);
    }
  }

  /** Controlled work means: paused, nobody in an ordinary turn, and one controlled worker only. */
  lemma ControlledIsAlone(threads: set<int>, turns: seq<Turn>, t: int, u: int)
    requires var s := Run(threads, turns); t in s.places && s.places[t].Controlling? && u in s.places
    ensures var s := Run(threads, turns); s.gate.paused && s.gate.active == 0
    ensures var s := Run(threads, turns); !s.places[u].InTurn? && (s.places[u].Controlling? ==> u == t)
  {
    RunInv(threads, turns);
    var s := Run(threads, turns);
    assert s.controller == Some(t);
    assert |s.turns| == 0;
  }

  /** What a waiting goroutine waits for. */
  predicate Awaited(s: System, p: Place) {
    match p
    case EnterWait(_) => !s.gate.paused
    case DrainWait(_, _) => s.gate.active == 0
    case ResumeWait(_, _) => !s.gate.controlled
    case OnceWait(id) => 0 <= id < |s.pauses| && s.pauses[id].once == Done
    case _ => true
  }

  /** Nothing will move this goroutine until somebody else acts. */
  predicate Blocked(s: System, p: Place) {
    match p
    case EnterWait(c) => c !in s.gate.closed
    case DrainWait(_, c) => c !in s.gate.closed
    case ResumeWait(_, c) => c !in s.gate.closed
    case OnceWait(id) => !(0 <= id < |s.pauses| && s.pauses[id].once == Done)
    case _ => false
  }

  /** No wake-up is lost: a blocked goroutine's wait is still unmet, and its channel is the one to be closed next. */
  lemma NoLostWakeUp(threads: set<int>, turns: seq<Turn>, t: int)
    requires var s := Run(threads, turns); t in s.places && Blocked(s, s.places[t])
    ensures var s := Run(threads, turns); !Awaited(s, s.places[t])
    ensures var s := Run(threads, turns); !s.places[t].OnceWait? ==> s.gate.changed == Some(s.places[t].chan)
  {
    RunInv(threads, turns);
    var s := Run(threads, turns);
    assert Standing(s, s.places[t]);
  }

  /** Starting something never opens the gate, and of what goes on only the end of a resume does. */
  lemma GateOpens(s: System, t: int, a: Action, cancelled: bool)
    requires s.gate.paused && !Next(s, t, a, cancelled).gate.paused
    ensures t in s.places && (s.places[t].Resuming? || s.places[t].ResumeRetry?)
    ensures Next(s, t, a, cancelled).pauses == SetOnce(s.pauses, s.places[t].pause, Done)
  {
  }

  /** The gate opens again only in the resume that belongs to the pause in force. */
  lemma OwnResumeEndsPause(threads: set<int>, turns: seq<Turn>, s: System, t: int, a: Action, cancelled: bool)
    requires s == Run(threads, turns)
    requires s.gate.paused && !Next(s, t, a, cancelled).gate.paused
    ensures t in s.places && (s.places[t].Resuming? || s.places[t].ResumeRetry?)
    ensures var id := s.places[t].pause;
            && id == |s.pauses| - 1 >= 0 && s.pauses[id].once == Running
            && Next(s, t, a, cancelled).pauses == s.pauses[id := s.pauses[id].(once := Done)]
  {
    RunInv(threads, turns);
    GateOpens(s, t, a, cancelled);
    assert Standing(s, s.places[t]);
  }

  /** A resume that has already run does nothing to a later pause, however often it is called again. */
  lemma StaleResumeIsHarmless(threads: set<int>, turns: seq<Turn>, t: int, id: int, cancelled: bool)
    requires var s := Run(threads, turns); t in s.places && s.places[t].Out? && 0 <= id < |s.pauses| - 1
    ensures Next(Run(threads, turns), t, CallResume(id), cancelled) == Run(threads, turns)
  {
    RunInv(threads, turns);
  }

  ghost predicate AllBlocked(s: System) {
    forall u :: u in s.places && !s.places[u].Out? ==> Blocked(s, s.places[u])
  }

  lemma NobodyInTurn(s: System)
    requires Inv(s) && AllBlocked(s)
    ensures s.gate.active == 0
  {
    if s.turns != {} { ghost var _ := Inhabited(s.turns); }
  }

  /** Somebody who is inside pause or resume code waits only for a turn or for controlled work to end. */
  lemma OwnerNotBlocked(s: System, u: int)
    requires Inv(s) && s.owner == Some(u) && s.gate.active == 0 && s.controller.None?
    ensures u in s.places && !Blocked(s, s.places[u])
  {
    assert u in s.places && Owns(s.places[u]);
    assert Standing(s, s.places[u]);
  }

  lemma ControllerNotBlocked(s: System, u: int)
    requires Inv(s) && s.controller == Some(u)
    ensures u in s.places && s.places[u].Controlling?
  {
  }

  lemma NobodyInPauseCode(s: System)
    requires Inv(s) && AllBlocked(s)
    ensures s.owner.None? && s.controller.None?
  {
    NobodyInTurn(s);
    if s.controller.Some? { ControllerNotBlocked(s, s.controller.value); }
    if s.owner.Some? && s.controller.None? { OwnerNotBlocked(s, s.owner.value); }
  }

  lemma StuckState(s: System, t: int)
    requires Inv(s) && AllBlocked(s) && t in s.places && !s.places[t].Out?
    ensures s.places[t].EnterWait? && s.gate.active == 0 && !s.gate.controlled
    ensures |s.pauses| > 0 && s.pauses[|s.pauses| - 1] == PauseCall(true, NotRun)
  {
    NobodyInTurn(s);
    NobodyInPauseCode(s);
    assert !Owns(s.places[t]);
    assert Standing(s, s.places[t]);
  }

  /**
    When every busy goroutine is blocked, all of them wait to enter, the pause has settled, no work
    of either kind is going on, and the one thing missing is the call of that pause's resume.
   */
  lemma OnlyAnUncalledResumeBlocks(threads: set<int>, turns: seq<Turn>, s: System, t: int)
    requires s == Run(threads, turns) && AllBlocked(s) && t in s.places && !s.places[t].Out?
    ensures s.places[t].EnterWait? && s.gate.active == 0 && !s.gate.controlled
    ensures |s.pauses| > 0 && s.pauses[|s.pauses| - 1] == PauseCall(true, NotRun)
  {
    RunInv(threads, turns);
    StuckState(s, t);
  }

  // ----- what a step achieves -----

  /** A broadcast: whoever listened is woken, and nobody listens any more. */
  predicate Woken(before: Gate, after: Gate) {
    after.changed == None && (before.changed.Some? ==> before.changed.value in after.closed) &&
    before.closed <= after.closed
  }

  /** The goroutine listens: the next broadcast closes the channel that it waits on. */
  predicate Listens(g: Gate, chan: int) { g.changed == Some(chan) && chan !in g.closed }

  /** A live turn enters an open gate at once; at a paused one it listens; a cancelled one leaves no trace. */
  lemma EnterGoesOn(threads: set<int>, turns: seq<Turn>, t: int, a: Action, cancelled: bool)
    requires var s := Run(threads, turns);
             t in s.places && (s.places[t].Entering? || (s.places[t].Out? && a == StartEnter))
    ensures var s := Run(threads, turns);
            var n := Next(s, t, a, cancelled);
            && (!cancelled && !s.gate.paused ==>
                 n.places == s.places[t := InTurn] && n.gate == s.gate.(active := s.gate.active + 1))
            && (!cancelled && s.gate.paused ==>
                 n.places[t].EnterWait? && Listens(n.gate, n.places[t].chan) && n.gate.active == s.gate.active)
            && (cancelled ==> n.places == s.places[t := Out] && n.gate == s.gate)
  {
    RunInv(threads, turns);
  }

  /** The end of a turn; the last one wakes the pause that drains. */
  lemma LeaveGoesOn(threads: set<int>, turns: seq<Turn>, t: int, a: Action, cancelled: bool)
    requires var s := Run(threads, turns); t in s.places && s.places[t].InTurn?
    ensures var s := Run(threads, turns);
            var n := Next(s, t, a, cancelled);
            && n.places == s.places[t := Out] && n.gate.active == s.gate.active - 1
            && n.gate.paused == s.gate.paused && n.gate.ready == s.gate.ready
            && (s.gate.active == 1 ==> Woken(s.gate, n.gate))
  {
    RunInv(threads, turns);
  }

  /** A live pause of an open gate closes it and drains; any other pause is refused without a trace. */
  lemma PauseGoesOn(threads: set<int>, turns: seq<Turn>, t: int, cancelled: bool)
    requires var s := Run(threads, turns); t in s.places && s.places[t].Out?
    ensures var s := Run(threads, turns);
            var n := Next(s, t, StartPause, cancelled);
            && (!cancelled && !s.gate.paused ==>
                 && n.places == s.places[t := Draining(|s.pauses|)] && n.gate == s.gate.(paused := true)
                 && n.pauses == s.pauses + [PauseCall(false, NotRun)])
            && (cancelled || s.gate.paused ==> n.places == s.places && n.gate == s.gate && n.pauses == s.pauses)
  {
    assert Run(threads, turns).places[t := Out] == Run(threads, turns).places;
  }

  /** A live pause with no turn left is settled and hands out its resume; a cancelled one resumes itself. */
  lemma DrainGoesOn(threads: set<int>, turns: seq<Turn>, t: int, a: Action, cancelled: bool)
    requires var s := Run(threads, turns); t in s.places && s.places[t].Draining?
    ensures var s := Run(threads, turns);
            var n, id := Next(s, t, a, cancelled), s.places[t].pause;
            && 0 <= id < |s.pauses|
            && (!cancelled && s.gate.active == 0 ==>
                 && n.places == s.places[t := Out] && n.gate == s.gate.(ready := true)
                 && n.pauses == s.pauses[id := PauseCall(true, NotRun)])
            && (!cancelled && s.gate.active != 0 ==>
                 n.places[t].DrainWait? && Listens(n.gate, n.places[t].chan) && !n.gate.ready && n.pauses == s.pauses)
            && (cancelled ==>
                 n.places == s.places[t := Resuming(id)] && n.gate == s.gate && n.pauses[id].once == Running)
  {
    RunInv(threads, turns);
    assert Standing(Run(threads, turns), Run(threads, turns).places[t]);
  }

  /** The first call of a settled pause's resume runs it. */
  lemma ResumeStarts(threads: set<int>, turns: seq<Turn>, t: int, id: int, cancelled: bool)
    requires var s := Run(threads, turns);
             t in s.places && s.places[t].Out? && 0 <= id < |s.pauses| && s.pauses[id] == PauseCall(true, NotRun)
    ensures Next(Run(threads, turns), t, CallResume(id), cancelled).places[t] == Resuming(id)
  {
  }

  /** A resume opens the gate and wakes everybody, unless controlled work is going on: then it listens. */
  lemma ResumeGoesOn(threads: set<int>, turns: seq<Turn>, t: int, a: Action, cancelled: bool)
    requires var s := Run(threads, turns); t in s.places && (s.places[t].Resuming? || s.places[t].ResumeRetry?)
    ensures var s := Run(threads, turns);
            var n, id := Next(s, t, a, cancelled), s.places[t].pause;
            && 0 <= id < |s.pauses| && !n.gate.ready
            && (!s.gate.controlled ==>
                 && n.places == s.places[t := Out] && !n.gate.paused && Woken(s.gate, n.gate)
                 && n.pauses == s.pauses[id := s.pauses[id].(once := Done)])
            && (s.gate.controlled ==>
                 n.places[t].ResumeWait? && Listens(n.gate, n.places[t].chan) && n.gate.paused && n.pauses == s.pauses)
  {
    RunInv(threads, turns);
    assert Standing(Run(threads, turns), Run(threads, turns).places[t]);
  }

  /** Live controlled work is admitted by a paused, settled and free gate, and by no other. */
  lemma ControlledGoesOn(threads: set<int>, turns: seq<Turn>, t: int, cancelled: bool)
    requires var s := Run(threads, turns); t in s.places && s.places[t].Out?
    ensures var s := Run(threads, turns);
            var n := Next(s, t, StartControlled, cancelled);
            if !cancelled && s.gate.paused && s.gate.ready && !s.gate.controlled
            then n.places == s.places[t := Controlling] && n.gate == s.gate.(controlled := true)
            else n.places == s.places && n.gate == s.gate
  {
    assert Run(threads, turns).places[t := Out] == Run(threads, turns).places;
  }

  /** The end of controlled work frees the gate and wakes the resume that waits for it. */
  lemma FinishGoesOn(threads: set<int>, turns: seq<Turn>, t: int, a: Action, cancelled: bool)
    requires var s := Run(threads, turns); t in s.places && s.places[t].Controlling?
    ensures var s := Run(threads, turns);
            var n := Next(s, t, a, cancelled);
            && n.places == s.places[t := Out] && !n.gate.controlled && Woken(s.gate, n.gate)
            && n.gate.paused && n.gate.ready == s.gate.ready && n.gate.active == s.gate.active
  {
    RunInv(threads, turns);
  }

  /** Whoever was woken looks again, and a cancelled wait is given up. */
  lemma WokenGoesOn(threads: set<int>, turns: seq<Turn>, t: int, a: Action, cancelled: bool)
    requires var s := Run(threads, turns); t in s.places && s.gate.changed == None
    ensures var s := Run(threads, turns);
            var p, next := s.places[t], Next(s, t, a, cancelled).places[t];
            && (p.EnterWait? ==> next == if cancelled then Out else Entering)
            && (p.DrainWait? ==> next == if cancelled then Resuming(p.pause) else Draining(p.pause))
            && (p.ResumeWait? ==> next == ResumeRetry(p.pause))
  {
    RunInv(threads, turns);
    assert Standing(Run(threads, turns), Run(threads, turns).places[t]);
  }
}
