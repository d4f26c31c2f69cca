/**
  The session manager: a cache written through to a session store, with last-seen times persisted
  later by a background writer. Code under the lock is one atomic step; a token stands for its hash.
 */
module SessionCache {
  import opened Wrappers

  type Token = string

  datatype Role = Admin | APIKeyViewer

  datatype Source = Standard | Embed | OIDC | Unknown

  datatype Identity = Identity(issuer: string, subject: string, clientId: string)

  datatype Seen = Seen(ip: string, at: int)

  /** `details` are the fields that never change after login. */
  datatype Session = Session(role: Role, source: Source, identity: Identity, alias: string,
                             details: string, expires: int, seen: Seen)

  datatype Policy = Policy(enabled: bool, issuer: string, clientId: string, subjects: seq<string>)

  const WRITE_INTERVAL: int := 60

  /** sessionAllowedLocked. */
  predicate Allowed(p: Policy, s: Session) {
    if s.source == Standard || s.source == Embed then true
    else
      && s.source == OIDC && p.enabled && s.role == Admin
      && s.identity.issuer != "" && s.identity.subject != "" && s.identity.clientId != ""
      && s.identity.issuer == p.issuer && s.identity.clientId == p.clientId
      && (p.subjects == [] || s.identity.subject in p.subjects)
  }

  type Sessions = map<Token, Session>

  datatype State = State(now: int, policy: Policy, store: Sessions, cache: Sessions,
                         pending: map<Token, Seen>, running: bool)

  // ----- the code under the lock -----

  predicate Live(st: State, s: Session) { s.expires > st.now && Allowed(st.policy, s) }

  function Unexpired(m: Sessions, now: int): Sessions { map t | t in m && m[t].expires > now :: m[t] }

  function Cleanup(st: State): State {
    st.(store := Unexpired(st.store, st.now), cache := Unexpired(st.cache, st.now))
  }

  function CreateLocked(st: State, t: Token, s: Session, ttl: int, saved: bool): State {
    var c := Cleanup(st);
    var full := s.(expires := st.now + ttl, seen := Seen(s.seen.ip, st.now));
    if !Allowed(st.policy, s) || !saved then c else c.(store := c.store[t := full], cache := c.cache[t := full])
  }

  function Remove(st: State, t: Token): State { st.(store := st.store - {t}, cache := st.cache - {t}) }

  function WithoutRole(m: Sessions, r: Role): Sessions { map t | t in m && m[t].role != r :: m[t] }

  function RemoveRole(st: State, r: Role): State {
    var c := Cleanup(st);
    c.(store := WithoutRole(c.store, r), cache := WithoutRole(c.cache, r))
  }

  function SetAliasLocked(st: State, t: Token, alias: string): State {
    var c := Cleanup(st);
    if !(t in c.store && c.store[t].role == Admin) then c
    else c.(store := c.store[t := c.store[t].(alias := alias)],
            cache := if t in c.cache && c.cache[t].role == Admin then c.cache[t := c.cache[t].(alias := alias)]
                else c.cache)
  }

  /** getPersisted: the cache again, then the store; what is no longer valid is removed on sight. */
  function PersistedLocked(st: State, t: Token): (State, Option<Session>) {
    if t in st.cache then
      if Live(st, st.cache[t]) then (st, Some(st.cache[t])) else (Remove(st, t), None)
    else if t !in st.store then (st, None)
    else if Live(st, st.store[t]) then (st.(cache := st.cache[t := st.store[t]]), Some(st.store[t]))
    else (Remove(st, t), None)
  }

  function NewSeen(st: State, s: Session, ip: string): Seen { Seen(if ip == "" then s.seen.ip else ip, st.now) }

  /** The locked part of Touch; the flag says whether a writer has to be started. */
  function TouchLocked(st: State, t: Token, ip: string): (State, bool) {
    if t !in st.cache || st.cache[t].expires <= st.now then (st, false)
    else
      var s := st.cache[t];
      var seen := NewSeen(st, s, ip);
      if seen.ip == s.seen.ip && s.seen.at + WRITE_INTERVAL > st.now then (st, false)
      else
        (st.(cache := st.cache[t := s.(seen := seen)], pending := st.pending[t := seen], running := true), !st.running)
  }

  /** The writer takes one pending update, or stops when there is none. */
  function TakeLocked(st: State, t: Token): (State, Option<Seen>) {
    if t in st.pending then (st.(pending := st.pending - {t}), Some(st.pending[t]))
    else (st.(running := false), None)
  }

  /** The store's UpdateActivity: a row that is gone is not brought back. */
  function StoreActivity(st: State, t: Token, seen: Seen): State {
    if t in st.store then st.(store := st.store[t := st.store[t].(seen := seen)]) else st
  }

  // ----- what each of them means, session by session -----

  /** What became of a session: it is in the new map exactly if `stays`, and then unchanged. */
  predicate Kept(before: Sessions, after: Sessions, t: Token, stays: bool) {
    (t in after <==> t in before && stays) && (t in after && t in before ==> after[t] == before[t])
  }

  /** A session that has not expired stays as it is, and every other one goes. */
  lemma CleanupMeaning(st: State, t: Token)
    ensures Kept(st.store, Cleanup(st).store, t, t in st.store && st.store[t].expires > st.now)
    ensures Kept(st.cache, Cleanup(st).cache, t, t in st.cache && st.cache[t].expires > st.now)
    ensures Cleanup(st).(store := st.store, cache := st.cache) == st
  {
  }

  /** A login adds its own session, valid for ttl from now; expired sessions go and all others stay. */
  lemma CreateMeaning(st: State, t: Token, x: Session, ttl: int, u: Token)
    ensures var n := CreateLocked(st, t, x, ttl, true);
            && (u != t || !Allowed(st.policy, x) ==>
                 && Kept(st.store, n.store, u, u in st.store && st.store[u].expires > st.now)
                 && Kept(st.cache, n.cache, u, u in st.cache && st.cache[u].expires > st.now))
            && (Allowed(st.policy, x) ==>
                 && t in n.store && t in n.cache && n.store[t] == n.cache[t]
                 && n.store[t] == x.(expires := st.now + ttl, seen := Seen(x.seen.ip, st.now)))
            && n.(store := st.store, cache := st.cache) == st
    ensures CreateLocked(st, t, x, ttl, false) == Cleanup(st)
  {
    CleanupMeaning(st, u);
  }

  /** A logout removes exactly its own session. */
  lemma RemoveMeaning(st: State, t: Token, u: Token)
    ensures Kept(st.store, Remove(st, t).store, u, u != t) && Kept(st.cache, Remove(st, t).cache, u, u != t)
    ensures Remove(st, t).(store := st.store, cache := st.cache) == st
  {
  }

  /** Revoking a role removes exactly its sessions, besides the expired ones. */
  lemma RemoveRoleMeaning(st: State, r: Role, t: Token)
    ensures var n := RemoveRole(st, r);
            && Kept(st.store, n.store, t, t in st.store && st.store[t].expires > st.now && st.store[t].role != r)
            && Kept(st.cache, n.cache, t, t in st.cache && st.cache[t].expires > st.now && st.cache[t].role != r)
            && n.(store := st.store, cache := st.cache) == st
  {
    CleanupMeaning(st, t);
  }

  /** A new alias reaches the named live admin session, in the store and in the cache, and no other session. */
  lemma SetAliasMeaning(st: State, t: Token, alias: string, u: Token)
    requires t in st.cache ==> t in st.store && Same(st.cache[t], st.store[t])
    ensures var n := SetAliasLocked(st, t, alias);
            var named := u == t && t in st.store && st.store[t].expires > st.now && st.store[t].role == Admin;
            && (named ==> u in n.store && n.store[u] == st.store[u].(alias := alias))
            && (named && u in st.cache ==> u in n.cache && n.cache[u] == st.cache[u].(alias := alias))
            && (!named ==> Kept(st.store, n.store, u, u in st.store && st.store[u].expires > st.now))
            && (!named && u != t ==> Kept(st.cache, n.cache, u, u in st.cache && st.cache[u].expires > st.now))
  {
    CleanupMeaning(st, u);
    CleanupMeaning(st, t);
  }

  /** Local sessions need no policy; an OIDC session needs one that is enabled, complete and made for it. */
  lemma AllowedMeaning(p: Policy, s: Session)
    ensures s.source == Standard || s.source == Embed ==> Allowed(p, s)
    ensures s.source == Unknown || (s.source == OIDC && (!p.enabled || s.role != Admin)) ==> !Allowed(p, s)
    ensures s.source == OIDC && Allowed(p, s) ==>
              p.issuer == s.identity.issuer != "" && p.clientId == s.identity.clientId != "" && s.identity.subject != ""
    ensures s.source == OIDC && Allowed(p, s) && p.subjects != [] ==> s.identity.subject in p.subjects
    ensures s.source == OIDC && s.role == Admin && p.enabled && s.identity.subject != "" ==>
              p.issuer == s.identity.issuer != "" && p.clientId == s.identity.clientId != "" ==>
                p.subjects == [] || s.identity.subject in p.subjects ==> Allowed(p, s)
  {
  }

  /** Activity is recorded when the address changes, or a minute after it was last recorded. */
  lemma TouchMeaning(st: State, t: Token, ip: string, u: Token)
    ensures var (n, start) := TouchLocked(st, t, ip);
            var valid := t in st.cache && st.cache[t].expires > st.now;
            var moved := valid && ip != "" && ip != st.cache[t].seen.ip;
            var due := valid && st.now - st.cache[t].seen.at >= 60;
            var seen := Seen(if moved || t !in st.cache then ip else st.cache[t].seen.ip, st.now);
            && (moved || due ==>
                 && n.cache == st.cache[t := st.cache[t].(seen := seen)] && n.pending == st.pending[t := seen]
                 && n.running && start == !st.running)
            && (!moved && !due ==> n == st && !start)
            && n.store == st.store && n.policy == st.policy && n.now == st.now
  {
  }

  /** The writer takes an update out of the queue; a row it no longer finds stays away. */
  lemma WriterMeaning(st: State, t: Token, seen: Seen, u: Token)
    ensures var (n, r) := TakeLocked(st, t);
            && (t in st.pending ==> r == Some(st.pending[t]) && n.running == st.running)
            && (t !in st.pending ==> r == None && !n.running)
            && (u in n.pending <==> u in st.pending && u != t) && (u in n.pending ==> n.pending[u] == st.pending[u])
            && n.store == st.store && n.cache == st.cache
    ensures var n := StoreActivity(st, t, seen);
            && (u in n.store <==> u in st.store) && n.cache == st.cache && n.pending == st.pending
            && (u in st.store ==> n.store[u] == if u == t then st.store[u].(seen := seen) else st.store[u])
  {
  }

  /** The manager object. */
  class SessionManager {
    var policy: Policy
    var store: Sessions
    var sessions: Sessions
    var pendingActivity: map<Token, Seen>
    var activityWriterRunning: bool

    ghost function Value(now: int): State
      reads this
    {
      State(now, policy, store, sessions, pendingActivity, activityWriterRunning)
    }

    constructor (policy: Policy, store: Sessions)
      ensures forall now :: Value(now) == State(now, policy, store, map[], map[], false)
    {
      this.policy, this.store, sessions, pendingActivity, activityWriterRunning := policy, store, map[], map[], false;
    }

    method CleanupExpiredLocked(now: int)
      modifies this`store, this`sessions
      ensures Value(now) == Cleanup(old(Value(now)))
      ensures forall t :: t in store <==> t in old(store) && old(store)[t].expires > now
      ensures forall t :: t in sessions <==> t in old(sessions) && old(sessions)[t].expires > now
    {
      ghost var before := sessions;
      var left := sessions.Keys;
      while left != {}
        invariant left <= before.Keys && store == old(store)
        invariant sessions == map t | t in before && (t in left || before[t].expires > now) :: before[t]
        decreases |left|
      {
        ghost var _ := Inhabited(left);
        var t :| t in left;
        left := left - {t};
        if sessions[t].expires <= now { sessions := sessions - {t}; }
      }
      assert sessions == Unexpired(before, now);
      store := Unexpired(store, now);
    }

    method Create(now: int, t: Token, s: Session, ttl: int, saved: bool) returns (ok: bool)
      modifies this`store, this`sessions
      ensures Value(now) == CreateLocked(old(Value(now)), t, s, ttl, saved)
      ensures ok == (Allowed(policy, s) && saved)
    {
      CleanupExpiredLocked(now);
      if !Allowed(policy, s) { return false; }
      var full := s.(expires := now + ttl, seen := Seen(s.seen.ip, now));
      if !saved { return false; }
      store := store[t := full];
      sessions := sessions[t := full];
      return true;
    }

    method Touch(now: int, t: Token, ip: string) returns (startWriter: bool)
      modifies this`sessions, this`pendingActivity, this`activityWriterRunning
      ensures (Value(now), startWriter) == TouchLocked(old(Value(now)), t, ip)
    {
      if t !in sessions || !(sessions[t].expires > now) { return false; }
      var session := sessions[t];
      var seenIP := if ip == "" then session.seen.ip else ip;
      if seenIP == session.seen.ip && session.seen.at + WRITE_INTERVAL > now { return false; }
      sessions := sessions[t := session.(seen := Seen(seenIP, now))];
      startWriter := false;
      pendingActivity := pendingActivity[t := Seen(seenIP, now)];
      if !activityWriterRunning {
        activityWriterRunning := true;
        startWriter := true;
      }
    }

    /** One turn of the writer's loop, up to the unlock. */
    method TakePending(ghost now: int) returns (token: Token, update: Option<Seen>)
      modifies this`pendingActivity, this`activityWriterRunning
      ensures (Value(now), update) == TakeLocked(old(Value(now)), token)
      ensures update.None? ==> old(pendingActivity) == map[]
    {
      if pendingActivity.Keys != {} {
        ghost var _ := Inhabited(pendingActivity.Keys);
        token :| token in pendingActivity.Keys;
        update := Some(pendingActivity[token]);
        pendingActivity := pendingActivity - {token};
      } else {
        token, update := "", None;
        activityWriterRunning := false;
      }
    }

    method GetPersisted(now: int, t: Token) returns (r: Option<Session>)
      modifies this`store, this`sessions
      ensures (Value(now), r) == PersistedLocked(old(Value(now)), t)
    {
      if t in sessions {
        var session := sessions[t];
        if !(session.expires > now) || !Allowed(policy, session) {
          Delete(now, t);
          return None;
        }
        return Some(session);
      }
      if t !in store { return None; }
      var session := store[t];
      if !(session.expires > now) || !Allowed(policy, session) {
        Delete(now, t);
        return None;
      }
      sessions := sessions[t := session];
      return Some(session);
    }

    method Delete(ghost now: int, t: Token)
      modifies this`store, this`sessions
      ensures Value(now) == Remove(old(Value(now)), t)
    {
      sessions := sessions - {t};
      store := store - {t};
    }
  }

  // ----- many requests and one background writer -----

  /** Where a request stands between two locked sections. */
  datatype Client = Free | NeedsStore(token: Token, touch: Option<string>) | NeedsDelete(token: Token)
                  | NeedsTouch(token: Token, ip: string)

  datatype Update = Update(token: Token, seen: Seen)

  /** A writer goroutine: about to take an update, or about to store one. */
  datatype Writer = Taking | Storing(update: Update)

  /**
    issued, revoked and stale are history: tokens ever created, tokens whose session was removed, and
    tokens whose latest activity write failed.
   */
  datatype System = System(st: State, clients: map<int, Client>, writers: seq<Writer>,
                           issued: set<Token>, revoked: set<Token>, stale: set<Token>)

  datatype Action =
    | Tick(time: int) | SetPolicy(policy: Policy)
    | Create(token: Token, session: Session, ttl: int, saved: bool)
    | Get(client: int, token: Token, touch: Option<string>) | Go(client: int)
    | Write(writer: int, pick: Token, ok: bool)
    | Delete(token: Token) | DeleteByRole(role: Role) | CleanupExpired | SetAlias(token: Token, alias: string)
    | Restart

  function Initial(policy: Policy, clients: set<int>): System {
    System(State(0, policy, map[], map[], map[], false), map c | c in clients :: Free, [], {}, {}, {})
  }

  /** The state after a locked section; whatever left the store has been revoked. */
  function After(s: System, st: State): System {
    s.(st := st, revoked := s.revoked + (s.st.store.Keys - st.store.Keys))
  }

  function At(s: System, c: int, p: Client): System { s.(clients := s.clients[c := p]) }

  /** What a request does once it holds a valid session. */
  function Found(s: System, c: int, t: Token, touch: Option<string>): System {
    At(s, c, if touch.Some? then NeedsTouch(t, touch.value) else Free)
  }

  function GetStep(s: System, c: int, t: Token, touch: Option<string>): System {
    if t == "" then s
    else if t !in s.st.cache then At(s, c, NeedsStore(t, touch))
    else if Live(s.st, s.st.cache[t]) then Found(s, c, t, touch)
    else At(s, c, NeedsDelete(t))
  }

  function GoStep(s: System, c: int): System
    requires c in s.clients
  {
    match s.clients[c]
    case Free => s
    case NeedsStore(t, touch) =>
      var (st, r) := PersistedLocked(s.st, t);
      if r.Some? then Found(After(s, st), c, t, touch) else At(After(s, st), c, Free)
    case NeedsDelete(t) => At(After(s, Remove(s.st, t)), c, Free)
    case NeedsTouch(t, ip) =>
      var (st, start) := TouchLocked(s.st, t, ip);
      At(After(s, st), c, Free).(writers := if start then s.writers + [Taking] else s.writers)
  }

  function WriteStep(s: System, i: int, pick: Token, ok: bool): System
    requires 0 <= i < |s.writers|
  {
    match s.writers[i]
    case Taking =>
      if pick !in s.st.pending && s.st.pending != map[] then s
      else
        var (st, r) := TakeLocked(s.st, pick);
        After(s, st).(writers := if r.Some? then s.writers[i := Storing(Update(pick, r.value))]
                                 else s.writers[..i] + s.writers[i + 1..])
    case Storing(u) =>
      var st := if ok then StoreActivity(s.st, u.token, u.seen) else s.st;
      After(s, st).(writers := s.writers[i := Taking], stale := if ok then s.stale - {u.token} else s.stale + {u.token})
  }

  function Next(s: System, a: Action): System {
    match a
    case Tick(time) => if time > s.st.now then s.(st := s.st.(now := time)) else s
    case SetPolicy(p) => s.(st := s.st.(policy := p))
    case Create(t, x, ttl, saved) =>
      if t == "" || t in s.issued then s
      else After(s, CreateLocked(s.st, t, x, ttl, saved)).(issued := s.issued + {t})
    case Get(c, t, touch) => if c in s.clients && s.clients[c].Free? then GetStep(s, c, t, touch) else s
    case Go(c) => if c in s.clients then GoStep(s, c) else s
    case Write(i, pick, ok) => if 0 <= i < |s.writers| then WriteStep(s, i, pick, ok) else s
    case Delete(t) => After(s, Remove(s.st, t))
    case DeleteByRole(r) => After(s, RemoveRole(s.st, r))
    case CleanupExpired => After(s, Cleanup(s.st))
    case SetAlias(t, alias) => After(s, SetAliasLocked(s.st, t, alias))
    case Restart =>
      System(s.st.(cache := map[], pending := map[], running := false), map c | c in s.clients :: Free, [],
             s.issued, s.revoked, {})
  }

  // ----- invariants -----

  /** The same session, apart from when it was last seen. */
  predicate Same(a: Session, b: Session) { a.(seen := b.seen) == b }

  /** Everything cached is stored. */
  ghost predicate Backed(st: State) {
    forall t :: t in st.cache ==> t in st.store && Same(st.cache[t], st.store[t])
  }

  /** Nothing that was removed is anywhere, and only what was created can be. */
  ghost predicate Gone(s: System) {
    && (forall t :: t in s.st.store ==> t in s.issued && t !in s.revoked)
    && s.revoked <= s.issued && s.st.pending.Keys <= s.issued
    && (forall w :: w in s.writers && w.Storing? ==> w.update.token in s.issued)
  }

  ghost predicate OneWriter(s: System) {
    |s.writers| == (if s.st.running then 1 else 0) && (!s.st.running ==> s.st.pending == map[])
  }

  /** The update in the writer's hands, if it is for this token. */
  predicate Held(s: System, t: Token) { |s.writers| == 1 && s.writers[0].Storing? && s.writers[0].update.token == t }

  /** The newest activity is in the cache, and also pending, being written, or stored unless its write failed. */
  predicate Tracked(s: System, t: Token)
    requires t in s.st.cache && t in s.st.store
  {
    if t in s.st.pending then s.st.cache[t].seen == s.st.pending[t]
    else if Held(s, t) then s.st.cache[t].seen == s.writers[0].update.seen
    else t in s.stale || s.st.cache[t].seen == s.st.store[t].seen
  }

  ghost predicate AllTracked(s: System)
    requires Backed(s.st)
  {
    && (forall t :: t in s.st.cache ==> Tracked(s, t))
    && (forall t :: t in s.st.store && (t in s.st.pending || Held(s, t)) ==> t in s.st.cache)
  }

  ghost predicate Inv(s: System) { Backed(s.st) && Gone(s) && OneWriter(s) && AllTracked(s) }

  lemma TimePasses(s: System, st: State)
    requires Inv(s) && st.store == s.st.store && st.cache == s.st.cache && st.pending == s.st.pending
            && st.running == s.st.running
    ensures Inv(s.(st := st))
  {
  }

  /** Removing sessions, from the cache whatever leaves the store, keeps everything. */
  lemma RemovalKeeps(s: System, st: State)
    requires Inv(s) && st.pending == s.st.pending && st.running == s.st.running
    requires st.store.Keys <= s.st.store.Keys && st.cache.Keys == s.st.cache.Keys * st.store.Keys
    requires forall t :: t in st.store ==> st.store[t] == s.st.store[t]
    requires forall t :: t in st.cache ==> st.cache[t] == s.st.cache[t]
    ensures Inv(After(s, st))
  {
  }

  lemma CleanupKeeps(s: System)
    requires Inv(s)
    ensures Inv(After(s, Cleanup(s.st)))
  {
    assert forall t :: t in s.st.cache ==> s.st.cache[t].expires == s.st.store[t].expires;
    RemovalKeeps(s, Cleanup(s.st));
  }

  lemma RemoveKeeps(s: System, t: Token)
    requires Inv(s)
    ensures Inv(After(s, Remove(s.st, t)))
  {
    RemovalKeeps(s, Remove(s.st, t));
  }

  lemma RemoveRoleKeeps(s: System, r: Role)
    requires Inv(s)
    ensures Inv(After(s, RemoveRole(s.st, r)))
  {
    assert forall t :: t in s.st.cache ==>
      s.st.cache[t].expires == s.st.store[t].expires && s.st.cache[t].role == s.st.store[t].role;
    RemovalKeeps(s, RemoveRole(s.st, r));
  }

  lemma IssueKeeps(s: System, t: Token)
    requires Inv(s)
    ensures Inv(s.(issued := s.issued + {t}))
  {
  }

  lemma AddKeeps(s: System, t: Token, x: Session)
    requires Inv(s) && t in s.issued && t !in s.revoked && t !in s.st.store && t !in s.st.pending && !Held(s, t)
    ensures Inv(s.(st := s.st.(store := s.st.store[t := x], cache := s.st.cache[t := x])))
  {
    var n := s.(st := s.st.(store := s.st.store[t := x], cache := s.st.cache[t := x]));
    forall u | u in n.st.cache ensures Tracked(n, u) {
      if u != t { assert Tracked(s, u); }
    }
  }

  lemma CreateKeeps(s: System, t: Token, x: Session, ttl: int, saved: bool)
    requires Inv(s) && t !in s.issued
    ensures Inv(After(s, CreateLocked(s.st, t, x, ttl, saved)).(issued := s.issued + {t}))
  {
    CleanupKeeps(s);
    var c := After(s, Cleanup(s.st)).(issued := s.issued + {t});
    IssueKeeps(After(s, Cleanup(s.st)), t);
    if !(Allowed(s.st.policy, x) && saved) { return; }
    var st := CreateLocked(s.st, t, x, ttl, saved);
    assert s.st.store.Keys - st.store.Keys == s.st.store.Keys - c.st.store.Keys;
    AddKeeps(c, t, st.store[t]);
  }

  lemma LoadKeeps(s: System, t: Token)
    requires Inv(s) && t !in s.st.cache && t in s.st.store
    ensures Inv(s.(st := s.st.(cache := s.st.cache[t := s.st.store[t]])))
  {
    var n := s.(st := s.st.(cache := s.st.cache[t := s.st.store[t]]));
    forall u | u in n.st.cache ensures Tracked(n, u) {
      if u != t { assert Tracked(s, u); }
    }
  }

  lemma PersistedKeeps(s: System, t: Token)
    requires Inv(s)
    ensures Inv(After(s, PersistedLocked(s.st, t).0))
  {
    var (st, r) := PersistedLocked(s.st, t);
    if r.None? {
      if t in s.st.cache || t in s.st.store { RemoveKeeps(s, t); } else { assert After(s, st) == s; }
    } else if t in s.st.cache {
      assert After(s, st) == s;
    } else {
      LoadKeeps(s, t);
      assert After(s, st) == s.(st := st);
    }
  }

  /** The alias changes in the store and, if cached, in the cache. */
  lemma AliasKeeps(s: System, t: Token, alias: string)
    requires Inv(s)
    ensures Inv(After(s, SetAliasLocked(s.st, t, alias)))
  {
    CleanupKeeps(s);
    var c := After(s, Cleanup(s.st));
    var n := After(s, SetAliasLocked(s.st, t, alias));
    if t in c.st.store && c.st.store[t].role == Admin {
      assert n.st.store.Keys == c.st.store.Keys && n.st.cache.Keys == c.st.cache.Keys && n.revoked == c.revoked;
      forall u | u in n.st.cache ensures Same(n.st.cache[u], n.st.store[u]) && Tracked(n, u) {
        assert Same(c.st.cache[u], c.st.store[u]) && Tracked(c, u);
      }
    }
  }

  /** A newer activity replaces what was pending, and a writer runs from then on. */
  lemma SeenKeeps(s: System, t: Token, seen: Seen)
    requires Inv(s) && t in s.st.cache
    ensures Inv(s.(st := s.st.(cache := s.st.cache[t := s.st.cache[t].(seen := seen)],
                               pending := s.st.pending[t := seen], running := true),
                   writers := if s.st.running then s.writers else [Taking]))
  {
    var n := s.(st := s.st.(cache := s.st.cache[t := s.st.cache[t].(seen := seen)],
                            pending := s.st.pending[t := seen], running := true),
                writers := if s.st.running then s.writers else [Taking]);
    assert Backed(n.st);
    assert Gone(n);
    forall u | u in n.st.cache ensures Tracked(n, u) { assert Tracked(s, u); }
  }

  lemma TouchKeeps(s: System, t: Token, ip: string)
    requires Inv(s)
    ensures var (st, start) := TouchLocked(s.st, t, ip);
            Inv(After(s, st).(writers := if start then s.writers + [Taking] else s.writers))
  {
    var (st, start) := TouchLocked(s.st, t, ip);
    assert s.revoked + (s.st.store.Keys - st.store.Keys) == s.revoked;
    if st == s.st && !start { return; }
    SeenKeeps(s, t, NewSeen(s.st, s.st.cache[t], ip));
    assert s.writers + [Taking] == if s.st.running then s.writers + [Taking] else [Taking];
  }

  lemma TakeKeeps(s: System, pick: Token)
    requires Inv(s) && s.writers == [Taking] && (pick in s.st.pending || s.st.pending == map[])
    ensures var (st, r) := TakeLocked(s.st, pick);
            Inv(s.(st := st, writers := if r.Some? then [Storing(Update(pick, r.value))] else []))
  {
    var (st, r) := TakeLocked(s.st, pick);
    var n := s.(st := st, writers := if r.Some? then [Storing(Update(pick, r.value))] else []);
    forall u | u in n.st.cache ensures Tracked(n, u) { assert Tracked(s, u); }
  }

  lemma StoreKeeps(s: System, u: Update, ok: bool)
    requires Inv(s) && s.writers == [Storing(u)]
    ensures Inv(s.(st := if ok then StoreActivity(s.st, u.token, u.seen) else s.st, writers := [Taking],
                   stale := if ok then s.stale - {u.token} else s.stale + {u.token}))
  {
    var n := s.(st := if ok then StoreActivity(s.st, u.token, u.seen) else s.st, writers := [Taking],
                stale := if ok then s.stale - {u.token} else s.stale + {u.token});
    forall t | t in n.st.cache ensures Tracked(n, t) { assert Tracked(s, t) && Same(s.st.cache[t], s.st.store[t]); }
  }

  lemma WriteKeeps(s: System, i: int, pick: Token, ok: bool)
    requires Inv(s) && 0 <= i < |s.writers|
    ensures Inv(WriteStep(s, i, pick, ok))
  {
    assert i == 0 && s.writers == [s.writers[0]];
    match s.writers[0]
    case Taking =>
      if pick in s.st.pending || s.st.pending == map[] {
        TakeKeeps(s, pick);
        assert s.writers[..0] + s.writers[1..] == [];
        var (st, r) := TakeLocked(s.st, pick);
        assert r.Some? ==> s.writers[0 := Storing(Update(pick, r.value))] == [Storing(Update(pick, r.value))];
        assert s.revoked + (s.st.store.Keys - st.store.Keys) == s.revoked;
      }
    case Storing(u) =>
      StoreKeeps(s, u, ok);
      var st := StoreActivity(s.st, u.token, u.seen);
      assert st.store.Keys == s.st.store.Keys;
      assert s.revoked + (s.st.store.Keys - st.store.Keys) == s.revoked
          == s.revoked + (s.st.store.Keys - s.st.store.Keys);
      assert s.writers[0 := Taking] == [Taking];
  }

  /** Requests in flight hold nothing but a token. */
  lemma ClientsFree(s: System, clients: map<int, Client>)
    requires Inv(s)
    ensures Inv(s.(clients := clients))
  {
  }

  lemma GoKeeps(s: System, c: int)
    requires Inv(s) && c in s.clients
    ensures Inv(GoStep(s, c))
  {
    var n := GoStep(s, c);
    match s.clients[c]
    case Free =>
    case NeedsStore(t, touch) =>
      PersistedKeeps(s, t);
      ClientsFree(After(s, PersistedLocked(s.st, t).0), n.clients);
    case NeedsDelete(t) =>
      RemoveKeeps(s, t);
      ClientsFree(After(s, Remove(s.st, t)), n.clients);
    case NeedsTouch(t, ip) =>
      TouchKeeps(s, t, ip);
      ClientsFree(After(s, TouchLocked(s.st, t, ip).0).(writers := n.writers), n.clients);
  }

  lemma RestartKeeps(s: System)
    requires Inv(s)
    ensures Inv(Next(s, Restart))
  {
  }

  lemma NextKeeps(s: System, a: Action)
    requires Inv(s)
    ensures Inv(Next(s, a))
  {
    match a
    case Tick(time) => TimePasses(s, s.st.(now := time));
    case SetPolicy(p) => TimePasses(s, s.st.(policy := p));
    case Create(t, x, ttl, saved) => if t !in s.issued { CreateKeeps(s, t, x, ttl, saved); }
    case Get(c, t, touch) => ClientsFree(s, Next(s, a).clients);
    case Go(c) => if c in s.clients { GoKeeps(s, c); }
    case Write(i, pick, ok) => if 0 <= i < |s.writers| { WriteKeeps(s, i, pick, ok); }
    case Delete(t) => RemoveKeeps(s, t);
    case DeleteByRole(r) => RemoveRoleKeeps(s, r);
    case CleanupExpired => CleanupKeeps(s);
    case SetAlias(t, alias) => AliasKeeps(s, t, alias);
    case Restart => RestartKeeps(s);
  }

  // ----- every run -----

  function Run(s: System, actions: seq<Action>): System {
    if actions == [] then s else Next(Run(s, actions[..|actions| - 1]), actions[|actions| - 1])
  }

  lemma {:induction false} RunKeeps(s: System, actions: seq<Action>)
    requires Inv(s)
    ensures Inv(Run(s, actions))
  {
    if actions == [] { return; }
    RunKeeps(s, actions[..|actions| - 1]);
    NextKeeps(Run(s, actions[..|actions| - 1]), actions[|actions| - 1]);
  }

  lemma InitialInv(policy: Policy, clients: set<int>)
    ensures Inv(Initial(policy, clients))
  {
  }

  /** Reached from a fresh start by any interleaving whatever. */
  ghost predicate Reachable(s: System) {
    exists policy, clients, actions :: s == Run(Initial(policy, clients), actions)
  }

  lemma ReachableInv(s: System)
    requires Reachable(s)
    ensures Inv(s)
  {
    var policy, clients, actions :| s == Run(Initial(policy, clients), actions);
    InitialInv(policy, clients);
    RunKeeps(Initial(policy, clients), actions);
  }

  /** What a manager without any cache would answer. */
  function StoreAnswer(st: State, t: Token): Option<Session> {
    if t in st.store && Live(st, st.store[t]) then Some(st.store[t]) else None
  }

  /** A cached session is answered exactly when the store alone would have answered, and alike up to last-seen. */
  lemma CachedAnswer(s: System, t: Token)
    requires Reachable(s) && t in s.st.cache
    ensures Live(s.st, s.st.cache[t]) <==> StoreAnswer(s.st, t).Some?
    ensures Live(s.st, s.st.cache[t]) ==> Same(s.st.cache[t], StoreAnswer(s.st, t).value)
  {
    ReachableInv(s);
  }

  /** So is the answer of the slower path, whether it finds a session or none; and none stays none. */
  lemma PersistedAnswer(s: System, t: Token)
    requires Reachable(s)
    ensures var (st, r) := PersistedLocked(s.st, t);
            && (r.Some? <==> StoreAnswer(s.st, t).Some?)
            && (r.Some? ==> Same(r.value, StoreAnswer(s.st, t).value))
            && (r.None? ==> t !in st.store && t !in st.cache)
  {
    ReachableInv(s);
  }

  /** At most one writer, and none running leaves nothing unwritten: then cache and store agree completely. */
  lemma WriterAccounts(s: System)
    requires Reachable(s)
    ensures |s.writers| <= 1
    ensures !s.st.running ==> s.writers == [] && s.st.pending == map[]
    ensures forall t :: !s.st.running && t in s.st.cache && t !in s.stale ==>
              t in s.st.store && s.st.cache[t] == s.st.store[t]
  {
    ReachableInv(s);
    forall t | !s.st.running && t in s.st.cache && t !in s.stale
        ensures t in s.st.store && s.st.cache[t] == s.st.store[t] {
      assert Tracked(s, t) && Same(s.st.cache[t], s.st.store[t]);
    }
  }

  lemma RevokedGrows(s: System, a: Action)
    ensures s.revoked <= Next(s, a).revoked
  {
  }

  lemma {:induction false} RevokedStays(s: System, actions: seq<Action>)
    ensures s.revoked <= Run(s, actions).revoked
  {
    if actions == [] { return; }
    RevokedStays(s, actions[..|actions| - 1]);
    RevokedGrows(Run(s, actions[..|actions| - 1]), actions[|actions| - 1]);
  }

  /**
    No touch, reload, late activity write or restart brings a removed session back: from then on
    it is neither stored nor cached, whatever happens.
   */
  lemma NeverResurrected(s: System, t: Token, actions: seq<Action>)
    requires Reachable(s) && t in s.revoked
    ensures var n := Run(s, actions); t !in n.st.store && t !in n.st.cache && StoreAnswer(n.st, t).None?
  {
    ReachableInv(s);
    RunKeeps(s, actions);
    RevokedStays(s, actions);
  }

  /** The slower path answers exactly the stored sessions that are neither expired nor against the policy. */
  lemma AnswersAreValid(s: System, t: Token)
    requires Reachable(s)
    ensures PersistedLocked(s.st, t).1.Some? <==>
              t in s.st.store && s.st.store[t].expires > s.st.now && Allowed(s.st.policy, s.st.store[t])
    ensures t in s.st.cache ==> t in s.st.store
    ensures t in s.st.cache ==> (Live(s.st, s.st.cache[t]) <==>
              s.st.store[t].expires > s.st.now && Allowed(s.st.policy, s.st.store[t]))
  {
    ReachableInv(s);
  }

  /** A logout is final, whatever happens afterwards, and it concerns nobody else. */
  lemma LogoutIsFinal(s: System, t: Token, actions: seq<Action>)
    requires Reachable(s) && t in s.st.store
    ensures var n := Run(Next(s, Delete(t)), actions); StoreAnswer(n.st, t).None? && t !in n.st.cache
    ensures forall u :: u != t && u in s.st.store ==>
              u in Next(s, Delete(t)).st.store && u !in Next(s, Delete(t)).revoked
  {
    ReachableInv(s);
    NextKeeps(s, Delete(t));
    RunKeeps(Next(s, Delete(t)), actions);
    RevokedStays(Next(s, Delete(t)), actions);
    assert t in Next(s, Delete(t)).revoked;
  }

  // ----- where a request goes on -----

  /** A request that holds a valid session is done, or has its activity to record. */
  function Holding(t: Token, touch: Option<string>): Client {
    match touch
    case None => Free
    case Some(ip) => NeedsTouch(t, ip)
  }

  /** A lookup: a valid cached session answers it, an invalid one is to be removed, a missing one to be read. */
  lemma GetGoesOn(s: System, c: int, t: Token, touch: Option<string>)
    requires Reachable(s) && c in s.clients && s.clients[c] == Free
    ensures var n := Next(s, Get(c, t, touch));
            && n.st == s.st && n.writers == s.writers && n.revoked == s.revoked
            && (t == "" ==> n.clients[c] == Free)
            && (t != "" && t !in s.st.cache ==> n.clients[c] == NeedsStore(t, touch))
            && (t != "" && t in s.st.cache ==>
                 n.clients[c] == if s.st.cache[t].expires > s.st.now && Allowed(s.st.policy, s.st.cache[t])
                                 then Holding(t, touch) else NeedsDelete(t))
  {
  }

  /** The look into the store: a valid session is cached from then on, and any other is gone. */
  lemma StoreGoesOn(s: System, c: int, t: Token, touch: Option<string>)
    requires Reachable(s) && c in s.clients && s.clients[c] == NeedsStore(t, touch)
    ensures var n := Next(s, Go(c));
            if t in s.st.store && s.st.store[t].expires > s.st.now && Allowed(s.st.policy, s.st.store[t])
            then n.clients[c] == Holding(t, touch) && t in n.st.cache && Same(n.st.cache[t], s.st.store[t])
            else n.clients[c] == Free && t !in n.st.cache && t !in n.st.store
  {
    ReachableInv(s);
  }

  /** The removal and the recording, and nothing is left to do. */
  lemma RequestEnds(s: System, c: int, t: Token, ip: string)
    requires Reachable(s) && c in s.clients
    ensures s.clients[c] == NeedsDelete(t) ==>
              var n := Next(s, Go(c)); n.clients[c] == Free && t !in n.st.cache && t !in n.st.store
    ensures s.clients[c] == NeedsTouch(t, ip) ==>
              var n := Next(s, Go(c));
              && n.clients[c] == Free && n.st == TouchLocked(s.st, t, ip).0
              && n.writers == if n.st.running && !s.st.running then [Taking] else s.writers
  {
    ReachableInv(s);
  }

  /** The writer stores what it has taken, or notes that it could not, and goes back for more. */
  lemma WriterGoesOn(s: System, u: Update, ok: bool, pick: Token)
    requires Reachable(s) && s.writers == [Storing(u)]
    ensures var n := Next(s, Write(0, pick, ok));
            && n.writers == [Taking] && n.st.cache == s.st.cache && n.st.pending == s.st.pending
            && (ok && u.token in s.st.store ==>
                 n.st.store == s.st.store[u.token := s.st.store[u.token].(seen := u.seen)])
            && (!ok || u.token !in s.st.store ==> n.st.store == s.st.store)
            && (u.token in n.stale <==> !ok)
  {
    assert s.writers[0 := Taking] == [Taking];
  }

  /** While updates wait the writer takes one of them, and it ends only when none does. */
  lemma WriterTakes(s: System, pick: Token, ok: bool)
    requires Reachable(s) && s.writers == [Taking]
    ensures var n := Next(s, Write(0, pick, ok));
            && (pick in s.st.pending ==>
                 n.writers == [Storing(Update(pick, s.st.pending[pick]))] && n.st.pending == s.st.pending - {pick})
            && (s.st.pending == map[] ==> n.writers == [] && !n.st.running)
            && n.st.store == s.st.store && n.st.cache == s.st.cache
  {
    ReachableInv(s);
    assert s.writers[..0] + s.writers[1..] == [];
  }
}
