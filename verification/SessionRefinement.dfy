/**
  The cached session manager beside one that has only the store: run in step, they give the same
  answers up to when a session was last seen.
 */
module SessionRefinement {
  import opened Wrappers
  import opened SessionCache

  /** The same sessions, apart from when they were last seen. */
  ghost predicate AlikeStores(a: Sessions, b: Sessions) {
    forall t :: (t in a <==> t in b) && (t in a ==> Same(a[t], b[t]))
  }

  /** The store-only manager is a state without cache, pending activity or writer. */
  ghost predicate Alike(st: State, only: State) {
    && only.cache == map[] && only.pending == map[] && !only.running
    && only.now == st.now && only.policy == st.policy && AlikeStores(st.store, only.store)
  }

  function Uncached(st: State): State { st.(cache := map[]) }

  /** What the store-only manager does while the cached one takes a step: the same, wherever the store is concerned. */
  function StoreOnlyStep(only: State, s: System, a: Action): State {
    match a
    case Tick(time) => if time > only.now then only.(now := time) else only
    case SetPolicy(p) => only.(policy := p)
    case Create(t, x, ttl, saved) =>
      if t == "" || t in s.issued then only else Uncached(CreateLocked(only, t, x, ttl, saved))
    case Go(c) =>
      if c !in s.clients then only
      else if s.clients[c].NeedsStore? then Uncached(PersistedLocked(only, s.clients[c].token).0)
      else if s.clients[c].NeedsDelete? then Remove(only, s.clients[c].token)
      else only
    case Delete(t) => Remove(only, t)
    case DeleteByRole(r) => RemoveRole(only, r)
    case CleanupExpired => Cleanup(only)
    case SetAlias(t, alias) => SetAliasLocked(only, t, alias)
    case _ => only
  }

  /** The answer of Get that a step gives or settles, if it does: by the cache, or else by the look into the store. */
  function Answer(s: System, a: Action): Option<Option<Session>> {
    match a
    case Get(c, t, _) =>
      if !(c in s.clients && s.clients[c].Free?) then None
      else if t == "" then Some(None)
      else if t in s.st.cache then Some(if Live(s.st, s.st.cache[t]) then Some(s.st.cache[t]) else None)
      else None
    case Go(c) =>
      if c !in s.clients then None
      else if s.clients[c].NeedsStore? then Some(PersistedLocked(s.st, s.clients[c].token).1)
      else None
    case _ => None
  }

  /** The answer of the store-only manager at the same moment. */
  function StoreOnlyAnswer(only: State, s: System, a: Action): Option<Option<Session>> {
    if Answer(s, a).None? then None
    else
      match a
      case Get(c, t, _) => Some(if t == "" then None else StoreAnswer(only, t))
      case Go(c) => Some(PersistedLocked(only, s.clients[c].token).1)
      case _ => None
  }

  ghost predicate SameAnswer(a: Option<Option<Session>>, b: Option<Option<Session>>) {
    && (a.None? <==> b.None?)
    && (a.Some? ==> (a.value.None? <==> b.value.None?))
    && (a.Some? && a.value.Some? ==> Same(a.value.value, b.value.value))
  }

  // ----- one step -----

  lemma CleanupAlike(st: State, only: State)
    requires Alike(st, only)
    ensures Alike(Cleanup(st), Cleanup(only))
  {
  }

  lemma CreateAlike(st: State, only: State, t: Token, x: Session, ttl: int, saved: bool)
    requires Alike(st, only)
    ensures Alike(CreateLocked(st, t, x, ttl, saved), Uncached(CreateLocked(only, t, x, ttl, saved)))
  {
    CleanupAlike(st, only);
  }

  lemma RemoveRoleAlike(st: State, only: State, r: Role)
    requires Alike(st, only)
    ensures Alike(RemoveRole(st, r), RemoveRole(only, r))
  {
    CleanupAlike(st, only);
  }

  lemma SetAliasAlike(st: State, only: State, t: Token, alias: string)
    requires Alike(st, only)
    ensures Alike(SetAliasLocked(st, t, alias), SetAliasLocked(only, t, alias))
  {
    CleanupAlike(st, only);
  }

  lemma RemoveAlike(st: State, only: State, t: Token)
    requires Alike(st, only)
    ensures Alike(Remove(st, t), Remove(only, t))
  {
  }

  /** Being valid does not depend on when a session was last seen. */
  lemma LiveAlike(st: State, only: State, x: Session, y: Session)
    requires Alike(st, only) && Same(x, y)
    ensures Live(st, x) == Live(only, y)
  {
  }

  lemma PersistedAlike(s: System, only: State, t: Token)
    requires Inv(s) && Alike(s.st, only)
    ensures var (p, q) := (PersistedLocked(s.st, t), PersistedLocked(only, t));
            Alike(p.0, Uncached(q.0)) && SameAnswer(Some(p.1), Some(q.1))
  {
    if t !in s.st.store { return; }
    RemoveAlike(s.st, only, t);
    LiveAlike(s.st, only, s.st.store[t], only.store[t]);
    if t in s.st.cache { LiveAlike(s.st, only, s.st.cache[t], only.store[t]); }
  }

  lemma GetAlike(s: System, only: State, c: int, t: Token, touch: Option<string>)
    requires Inv(s) && Alike(s.st, only)
    ensures SameAnswer(Answer(s, Get(c, t, touch)), StoreOnlyAnswer(only, s, Get(c, t, touch)))
  {
    if t in s.st.cache { LiveAlike(s.st, only, s.st.cache[t], only.store[t]); }
  }

  lemma GoAlike(s: System, only: State, c: int)
    requires Inv(s) && Alike(s.st, only)
    ensures Alike(Next(s, Go(c)).st, StoreOnlyStep(only, s, Go(c)))
    ensures SameAnswer(Answer(s, Go(c)), StoreOnlyAnswer(only, s, Go(c)))
  {
    if c !in s.clients { return; }
    match s.clients[c]
    case NeedsStore(t, _) => PersistedAlike(s, only, t);
    case NeedsDelete(t) => RemoveAlike(s.st, only, t);
    case _ =>
  }

  lemma StepAlike(s: System, only: State, a: Action)
    requires Inv(s) && Alike(s.st, only)
    ensures Alike(Next(s, a).st, StoreOnlyStep(only, s, a))
    ensures SameAnswer(Answer(s, a), StoreOnlyAnswer(only, s, a))
  {
    match a
    case Create(t, x, ttl, saved) => CreateAlike(s.st, only, t, x, ttl, saved);
    case Get(c, t, touch) => GetAlike(s, only, c, t, touch);
    case Go(c) => GoAlike(s, only, c);
    case Delete(t) => RemoveAlike(s.st, only, t);
    case DeleteByRole(r) => RemoveRoleAlike(s.st, only, r);
    case CleanupExpired => CleanupAlike(s.st, only);
    case SetAlias(t, alias) => SetAliasAlike(s.st, only, t, alias);
    case Write(i, pick, ok) => WriteAlike(s, only, i, pick, ok);
    case _ =>
  }

  /** Persisting activity changes when a session was last seen and nothing else. */
  lemma WriteAlike(s: System, only: State, i: int, pick: Token, ok: bool)
    requires Alike(s.st, only)
    ensures Alike(Next(s, Write(i, pick, ok)).st, only)
  {
  }

  // ----- whole runs -----

  datatype Pair = Pair(cached: System, only: State)

  function StartBoth(policy: Policy, clients: set<int>): Pair {
    Pair(Initial(policy, clients), Initial(policy, clients).st)
  }

  function RunBoth(policy: Policy, clients: set<int>, actions: seq<Action>): Pair {
    if actions == [] then StartBoth(policy, clients)
    else
      var (p, a) := (RunBoth(policy, clients, actions[..|actions| - 1]), actions[|actions| - 1]);
      Pair(Next(p.cached, a), StoreOnlyStep(p.only, p.cached, a))
  }

  lemma {:induction false} RunsAlike(policy: Policy, clients: set<int>, actions: seq<Action>)
    ensures var p := RunBoth(policy, clients, actions);
            p.cached == Run(Initial(policy, clients), actions) && Inv(p.cached) && Alike(p.cached.st, p.only)
  {
    if actions == [] {
      InitialInv(policy, clients);
      return;
    }
    var n := |actions| - 1;
    RunsAlike(policy, clients, actions[..n]);
    var p := RunBoth(policy, clients, actions[..n]);
    NextKeeps(p.cached, actions[n]);
    StepAlike(p.cached, p.only, actions[n]);
  }

  /**
    Whatever has happened, at every step of any interleaving the cached manager answers exactly when
    and what the store-only manager beside it answers, up to last-seen.
   */
  lemma AnswersAlike(policy: Policy, clients: set<int>, actions: seq<Action>, a: Action)
    ensures var p := RunBoth(policy, clients, actions);
            SameAnswer(Answer(p.cached, a), StoreOnlyAnswer(p.only, p.cached, a))
  {
    RunsAlike(policy, clients, actions);
    var p := RunBoth(policy, clients, actions);
    StepAlike(p.cached, p.only, a);
  }
}
