/**
  The ingest runner. Taking messages from the remote is destructive, so a batch whose local write
  fails is parked and written again before anything else is taken.

  The outside world is a script of answers, one used up per interaction; when it runs out every
  further interaction answers that the context was cancelled. Nothing restricts the script, so the
  methods cover every outcome of every subscribe, pull, receive, insert, sleep and clock reading.
 */
module Ingest {
  import opened Wrappers
  import opened ControlMessages

  const SUBSCRIBE_NAME: string := "redis_subscribe:usage"
  const REDIS_NAME: string := "redis_pull:usage"
  const HTTP_NAME: string := "http_pull:usage_queue"

  // ----- the account of messages -----

  datatype Entry = Entry(source: string, message: string)

  /** pendingInboxBatch. */
  datatype Batch = Batch(source: string, messages: seq<string>)

  /** A batch's messages, each under the batch's source, in order. */
  function Entries(b: Batch): seq<Entry>
    decreases |b.messages|
  {
    if b.messages == [] then []
    else
      var n := |b.messages| - 1;
      Entries(Batch(b.source, b.messages[..n])) + [Entry(b.source, b.messages[n])]
  }

  /** Every message of a batch is an entry under the batch's source, in the batch's order. */
  lemma {:induction false} EntriesAre(b: Batch)
    ensures |Entries(b)| == |b.messages|
    ensures forall i :: 0 <= i < |b.messages| ==> Entries(b)[i] == Entry(b.source, b.messages[i])
    decreases |b.messages|
  {
    if b.messages != [] { EntriesAre(Batch(b.source, b.messages[..|b.messages| - 1])); }
  }

  function Flatten(bs: seq<Batch>): seq<Entry> {
    if bs == [] then [] else Entries(bs[0]) + Flatten(bs[1..])
  }

  lemma {:induction false} FlattenAppend(a: seq<Batch>, b: seq<Batch>)
    ensures Flatten(a + b) == Flatten(a) + Flatten(b)
  {
    if a == [] {
      assert a + b == b;
    } else {
      FlattenAppend(a[1..], b);
      ConcatAssoc(Entries(a[0]), Flatten(a[1..]), Flatten(b));
      assert (a + b)[1..] == a[1..] + b;
    }
  }

  lemma FlattenOne(b: Batch)
    ensures Flatten([b]) == Entries(b)
  {
    assert [b][1..] == [];
  }

  ghost function UsageOne(e: Entry): seq<Entry> { if IsUsage(e.message) then [e] else [] }

  /** The entries that belong in the durable log: neither blank, null nor a control notice. */
  ghost function Usage(es: seq<Entry>): seq<Entry> {
    if es == [] then []
    else
      Usage(es[..|es| - 1]) + UsageOne(es[|es| - 1])
  }

  lemma UsageSnoc(es: seq<Entry>, e: Entry)
    ensures Usage(es + [e]) == Usage(es) + UsageOne(e)
  {
    assert (es + [e])[..|es|] == es;
  }

  lemma {:induction false} UsageAppend(a: seq<Entry>, b: seq<Entry>)
    ensures Usage(a + b) == Usage(a) + Usage(b)
  {
    if b == [] {
      assert a + b == a;
    } else {
      var n := |b| - 1;
      assert b == b[..n] + [b[n]];
      UsageAppend(a, b[..n]);
      UsageStep(a, b[..n], b[n]);
    }
  }

  lemma UsageStep(a: seq<Entry>, b: seq<Entry>, e: Entry)
    requires Usage(a + b) == Usage(a) + Usage(b)
    ensures Usage(a + (b + [e])) == Usage(a) + Usage(b + [e])
  {
    ConcatAssoc(a, b, [e]);
    UsageSnoc(a + b, e);
    UsageSnoc(b, e);
    ConcatAssoc(Usage(a), Usage(b), UsageOne(e));
  }

  /** Filtering a batch's messages and filtering its entries are the same thing. */
  lemma {:induction false} UsageOfBatch(source: string, messages: seq<string>)
    ensures Usage(Entries(Batch(source, messages))) == Entries(Batch(source, UsageOnly(messages)))
    decreases |messages|
  {
    if messages != [] {
      var n := |messages| - 1;
      var es := Entries(Batch(source, messages[..n]));
      UsageOfBatch(source, messages[..n]);
      assert (es + [Entry(source, messages[n])])[..|es|] == es;
      var us := UsageOnly(messages[..n]);
      var m := messages[n];
      assert us + [] == us;
      assert (us + [m])[..|us|] == us;
      assert Entries(Batch(source, us + [m])) == Entries(Batch(source, us)) + [Entry(source, m)];
    }
  }

  /** consumed: taken from the remote; handed: accepted by the writer; log: what is stored. */
  datatype Ledger = Ledger(consumed: seq<Entry>, handed: seq<Entry>, log: seq<Entry>)

  /** Nothing is lost, repeated or reordered: `held` is what the runner still has in memory. */
  ghost predicate Balanced(l: Ledger, held: seq<Batch>) {
    l.consumed == l.handed + Flatten(held) && l.log == Usage(l.handed)
  }

  function Consume(l: Ledger, b: Batch): Ledger { l.(consumed := l.consumed + Entries(b)) }

  ghost function HandOver(l: Ledger, b: Batch): Ledger {
    l.(handed := l.handed + Entries(b), log := l.log + Usage(Entries(b)))
  }

  lemma ConsumeKeeps(l: Ledger, held: seq<Batch>, b: Batch)
    requires Balanced(l, held)
    ensures Balanced(Consume(l, b), held + [b]) && Extends(l, Consume(l, b))
  {
    FlattenAppend(held, [b]);
    FlattenOne(b);
    ConcatAssoc(l.handed, Flatten(held), Entries(b));
  }

  /** One more message joins the batch that is being collected. */
  lemma ConsumeExtends(l: Ledger, source: string, batch: seq<string>, m: string)
    requires Balanced(l, [Batch(source, batch)])
    ensures Balanced(Consume(l, Batch(source, [m])), [Batch(source, batch + [m])])
  {
    FlattenOne(Batch(source, batch));
    FlattenOne(Batch(source, batch + [m]));
    assert Entries(Batch(source, [m])) == [Entry(source, m)];
    assert (batch + [m])[..|batch|] == batch;
    ConcatAssoc(l.handed, Entries(Batch(source, batch)), [Entry(source, m)]);
  }

  lemma HandOverKeeps(l: Ledger, held: seq<Batch>)
    requires held != [] && Balanced(l, held)
    ensures Balanced(HandOver(l, held[0]), held[1..]) && Extends(l, HandOver(l, held[0]))
  {
    UsageAppend(l.handed, Entries(held[0]));
    ConcatAssoc(l.handed, Entries(held[0]), Flatten(held[1..]));
  }

  /** A call of the writer with a batch, and whether it succeeded. */
  datatype Attempt = Attempt(batch: Batch, ok: bool)

  /** What the calls have told the observer: every notice once per call, failed calls included. */
  ghost function Told(attempts: seq<Attempt>): seq<Signal> {
    if attempts == [] then []
    else Told(attempts[..|attempts| - 1]) + Signals(attempts[|attempts| - 1].batch.messages)
  }

  /** What the successful calls have handed over. */
  ghost function HandedBy(attempts: seq<Attempt>): seq<Entry> {
    if attempts == [] then []
    else
      var a := attempts[|attempts| - 1];
      HandedBy(attempts[..|attempts| - 1]) + if a.ok then Entries(a.batch) else []
  }

  /** The observer and the ledger both account for the calls made. */
  ghost predicate Explained(attempts: seq<Attempt>, observed: seq<Signal>, handed: seq<Entry>) {
    observed == Told(attempts) && handed == HandedBy(attempts)
  }

  lemma AttemptExplained(attempts: seq<Attempt>, observed: seq<Signal>, handed: seq<Entry>, b: Batch, ok: bool)
    requires Explained(attempts, observed, handed)
    ensures Explained(attempts + [Attempt(b, ok)], observed + Signals(b.messages),
                      handed + if ok then Entries(b) else [])
  {
    assert (attempts + [Attempt(b, ok)])[..|attempts|] == attempts;
  }

  predicate OneAtMost(bs: seq<Batch>) { |bs| <= 1 && (bs != [] ==> bs[0].messages != []) }

  /** Time only adds to the ledger. */
  predicate Extends(before: Ledger, after: Ledger) {
    before.consumed <= after.consumed && before.handed <= after.handed && before.log <= after.log
  }

  // ----- the runner -----

  datatype Failure = Canceled | DeadlineExceeded | Broken

  datatype Answer = Answer(ok: bool, failure: Failure, name: string, messages: seq<string>)

  /** What every interaction answers once the script is used up. */
  const CANCELLED: Answer := Answer(false, Canceled, "", [])

  datatype Outcome = Success | RemoteFailed | InboxFailed | Stopped

  datatype Remote = Redis | HTTP

  // ----- the order of interactions -----

  /** The loop the runner is in: choosing a mode, or one of the modes and their fallbacks. */
  datatype Mode = Probing | Subscribed | Degraded | RedisActive | RedisDegraded | HTTPOnly

  /** A step: a loop begins, a context check, a subscription, a look at the clock, a pull, a writer call, a wait. */
  datatype Kind =
    | Enter(mode: Mode) | Check | Subscribe | Due | Pulling(remote: Remote) | Inserting
    | ReceiveFirst | ReceiveMore | Sleep | Stop

  /** How much is at hand: nothing, less than a batch, a whole batch. */
  datatype Size = Empty | Short | Full

  function SizeOf(count: int, batchSize: int): Size {
    if count <= 0 then Empty else if count >= batchSize then Full else Short
  }

  /** A step, its answer, and how much is at hand after it. */
  datatype Call = Call(kind: Kind, answer: Answer, size: Size)

  /** The messages that an answer brings. */
  function Brought(kind: Kind, a: Answer): nat {
    if !a.ok then 0
    else
      match kind
      case Pulling(_) => |a.messages|
      case ReceiveFirst => 1
      case ReceiveMore => 1
      case _ => 0
  }

  /** The loop and its next step. While messages are at hand they are written, and then the goal is next. */
  datatype Point = At(mode: Mode, next: Kind) | Writing(mode: Mode, goal: Mode, next: Kind)

  const START: Point := At(Probing, Stop)

  /** The first step of a loop. */
  function Entered(m: Mode): Point { At(m, if m == Subscribed then Pulling(Redis) else Check) }

  /** A loop's turn begins with a look at the context. */
  function AfterCheck(m: Mode, running: bool): Point {
    if !running then At(m, if m == Probing then Stop else Enter(Probing))
    else
      match m
      case RedisActive => At(m, Pulling(Redis))
      case HTTPOnly => At(m, Pulling(HTTP))
      case Degraded => At(m, Due)
      case RedisDegraded => At(m, Due)
      case _ => At(m, Subscribe)
  }

  function AfterSubscribe(m: Mode, connected: bool): Point {
    At(m, if connected then Enter(Subscribed) else Pulling(Redis))
  }

  /** Degraded polling retries the subscription when its time has come; degraded redis_pull retries Redis. */
  function AfterDue(m: Mode, due: bool): Point {
    At(m, if m == Degraded then if due then Subscribe else Pulling(Redis) else Pulling(if due then Redis else HTTP))
  }

  /** In redis_pull mode the remote that was pulled from decides whether the mode is degraded. */
  function ModeBy(m: Mode, r: Remote): Mode {
    if m == RedisActive || m == RedisDegraded then if r == HTTP then RedisDegraded else RedisActive else m
  }

  /** The long-term mode that a first successful pull settles on. */
  function ModeFor(r: Remote): Mode { if r == Redis then RedisActive else HTTPOnly }

  /** What a pull was, once everything it brought is stored: a whole batch means that there may be more. */
  function AfterPull(m: Mode, r: Remote, size: Size): Kind {
    match m
    case Probing => Enter(ModeFor(r))
    case Subscribed => if size == Full then Pulling(r) else ReceiveFirst
    case _ => if size == Full then Check else Sleep
  }

  /** HTTP is what remains when Redis fails; a subscription goes on without either. */
  function AfterFailedPull(m: Mode, r: Remote): Point {
    At(m, if r == Redis then Pulling(HTTP) else if m == Subscribed then ReceiveFirst else Sleep)
  }

  function AfterSleep(m: Mode, slept: bool): Point {
    At(m, if m == Probing then if slept then Enter(Probing) else Stop
          else if slept && m != Subscribed then Check else Enter(Probing))
  }

  /** The end of a subscription, or of the window in which a batch is collected. */
  function AfterReceiveEnded(f: Failure, open: bool): Kind {
    match f
    case Canceled => Enter(Probing)
    case Broken => Enter(Degraded)
    case DeadlineExceeded => if open then ReceiveFirst else Enter(Degraded)
  }

  /** The first message is waited for; more are collected for a while. */
  function Window(batch: seq<string>): Kind { if batch == [] then ReceiveFirst else ReceiveMore }

  function AfterReceive(m: Mode, open: bool, a: Answer, size: Size): Point {
    if a.ok then if size == Full then Writing(m, m, ReceiveFirst) else At(m, ReceiveMore)
    else if open then Writing(m, m, AfterReceiveEnded(a.failure, true))
    else At(m, AfterReceiveEnded(a.failure, false))
  }

  /** After a refused insert the runner waits. */
  function AfterInsert(p: Point, ok: bool): Point {
    if !ok then At(p.mode, Sleep) else if p.Writing? then At(p.goal, p.next) else p
  }

  /** What a pull brought is written before anything else, and only then has the pull succeeded. */
  function AfterAnswer(m: Mode, r: Remote, ok: bool, size: Size): Point {
    if !ok then AfterFailedPull(m, r)
    else if size == Empty then At(ModeBy(m, r), AfterPull(m, r, Empty))
    else Writing(m, ModeBy(m, r), AfterPull(m, r, size))
  }

  function After(p: Point, c: Call): Point {
    match c.kind
    case Enter(m) => Entered(m)
    case Check => AfterCheck(p.mode, c.answer.ok)
    case Subscribe => AfterSubscribe(p.mode, c.answer.ok)
    case Due => AfterDue(p.mode, c.answer.ok)
    case Pulling(r) => AfterAnswer(p.mode, r, c.answer.ok, c.size)
    case Inserting => AfterInsert(p, c.answer.ok)
    case ReceiveFirst => AfterReceive(p.mode, false, c.answer, c.size)
    case ReceiveMore => AfterReceive(p.mode, true, c.answer, c.size)
    case Sleep => AfterSleep(p.mode, c.answer.ok)
    case Stop => p
  }

  /** The next step; a parked batch's turn before a pull; or a new run after the last one's end. */
  predicate MayFollow(p: Point, k: Kind) {
    if p.Writing? then k == Inserting
    else (k == p.next && k != Stop) || (p.next.Pulling? && k == Inserting) || (p.next == Stop && k == Enter(Probing))
  }

  /** A step and the point at which it was taken. */
  datatype Stamp = Stamp(at: Point, call: Call)

  /** All the steps so far and the point they have led to. */
  datatype Log = Log(steps: seq<Stamp>, now: Point)

  function PointAt(l: Log, i: nat): Point { if i < |l.steps| then l.steps[i].at else l.now }

  /** The step was one that could come next, and it led to the point of the step after it. */
  predicate Fits(l: Log, i: nat)
    requires i < |l.steps|
  {
    MayFollow(l.steps[i].at, l.steps[i].call.kind) && PointAt(l, i + 1) == After(l.steps[i].at, l.steps[i].call)
  }

  ghost predicate Lawful(l: Log) { PointAt(l, 0) == START && forall i | 0 <= i < |l.steps| :: Fits(l, i) }

  type Course = l: Log | Lawful(l) witness Log([], START)

  function Append(l: Log, c: Call): Log { Log(l.steps + [Stamp(l.now, c)], After(l.now, c)) }

  lemma AppendLawful(l: Log, c: Call)
    requires Lawful(l) && MayFollow(l.now, c.kind)
    ensures Lawful(Append(l, c))
  {
    var m := Append(l, c);
    assert PointAt(m, 0) == PointAt(l, 0);
    forall i | 0 <= i < |m.steps|
      ensures Fits(m, i)
    {
      if i < |l.steps| {
        assert Fits(l, i) && PointAt(m, i + 1) == PointAt(l, i + 1);
      }
    }
  }

  /** The steps that a loop can come to. */
  predicate Known(m: Mode, k: Kind) {
    match k
    case Enter(n) => n == Probing || (m == Probing && n != Degraded) || (m == Degraded && n == Subscribed) ||
                     (m == Subscribed && n == Degraded)
    case Check => m != Subscribed
    case Subscribe => m == Probing || m == Degraded
    case Due => m == Degraded || m == RedisDegraded
    case Pulling(r) => m == HTTPOnly ==> r == HTTP
    case Inserting => false
    case ReceiveFirst => m == Subscribed
    case ReceiveMore => m == Subscribed
    case Sleep => true
    case Stop => m == Probing
  }

  /** After a write there is the same loop's next step, never one that an answer would have to decide. */
  predicate Reachable(p: Point) {
    match p
    case At(m, k) => Known(m, k)
    case Writing(m, goal, k) =>
      && Known(goal, k) && k != Subscribe && k != Due && k != ReceiveMore && k != Stop
      && (k.Pulling? ==> goal == Subscribed) && (k == Enter(Probing) ==> goal == Subscribed) && k != Enter(Subscribed)
      && (goal == m || (m == RedisActive && goal == RedisDegraded) || (m == RedisDegraded && goal == RedisActive))
  }

  lemma {:induction false} PointsReachable(l: Course, i: nat)
    requires i <= |l.steps|
    ensures Reachable(PointAt(l, i))
  {
    if i > 0 {
      PointsReachable(l, i - 1);
      assert Fits(l, i - 1);
    }
  }

  /** What was taken is offered to the writer next, whatever else went wrong; a refused insert is followed by a wait. */
  lemma StoresBeforeMore(l: Course, i: nat)
    requires i + 1 < |l.steps|
    ensures var c, next := l.steps[i].call, l.steps[i + 1].call.kind;
            && (c.kind.Pulling? && c.answer.ok && c.size != Empty ==> next == Inserting)
            && (c.kind == ReceiveFirst && c.answer.ok ==> next == if c.size == Full then Inserting else ReceiveMore)
            && (c.kind == ReceiveMore && !c.answer.ok ==> next == Inserting)
            && (c.kind == Inserting && !c.answer.ok ==> next == Sleep)
  {
    assert Fits(l, i) && Fits(l, i + 1);
  }

  /** HTTP is pulled from where nothing else is, after Redis failed, or while Redis is not due to be tried again. */
  lemma HTTPIsAFallback(l: Course, i: nat)
    requires i + 1 < |l.steps| && l.steps[i + 1].call.kind == Pulling(HTTP)
    ensures var c, m := l.steps[i].call, l.steps[i + 1].at.mode;
            || m == HTTPOnly
            || (c.kind == Pulling(Redis) && !c.answer.ok)
            || (m == RedisDegraded && c.kind == Due && !c.answer.ok)
            || (c.kind == Inserting && c.answer.ok)
  {
    PointsReachable(l, i);
    assert Fits(l, i) && Fits(l, i + 1);
  }

  /** A subscription is tried first of all, and again only when its retry is due after one has broken. */
  lemma SubscribesWhenDue(l: Course, i: nat)
    requires i + 1 < |l.steps| && l.steps[i + 1].call.kind == Subscribe
    ensures var c, m := l.steps[i].call, l.steps[i + 1].at.mode;
            (m == Degraded && c.kind == Due && c.answer.ok) || (m != Degraded && c.kind == Check && c.answer.ok)
  {
    PointsReachable(l, i);
    assert Fits(l, i) && Fits(l, i + 1);
  }

  /** A new subscription is lived in from its backfill on; without one Redis is pulled from. */
  lemma SubscriptionDecides(l: Course, i: nat)
    requires i + 1 < |l.steps|
    ensures var c, next := l.steps[i].call, l.steps[i + 1].call.kind;
            && (c.kind == Subscribe && c.answer.ok ==> next == Enter(Subscribed))
            && (c.kind == Subscribe && !c.answer.ok ==> next == Pulling(Redis) || next == Inserting)
            && (c.kind == Enter(Subscribed) ==> next == Pulling(Redis) || next == Inserting)
            && (c.kind.Enter? && c.kind.mode != Subscribed ==> next == Check && l.steps[i + 1].at.mode == c.kind.mode)
            && (next == Enter(Subscribed) ==> c.kind == Subscribe && c.answer.ok)
  {
    PointsReachable(l, i);
    assert Fits(l, i) && Fits(l, i + 1);
  }

  /** A failed Redis pull is followed by HTTP; after both, a subscription receives and every other mode waits. */
  lemma FailedPullFallsBack(l: Course, i: nat)
    requires i + 1 < |l.steps| && l.steps[i].call.kind.Pulling? && !l.steps[i].call.answer.ok
    ensures var r, m, next := l.steps[i].call.kind.remote, l.steps[i].at.mode, l.steps[i + 1].call.kind;
            && l.steps[i + 1].at.mode == m
            && (r == Redis ==> next == Pulling(HTTP) || next == Inserting)
            && (r == HTTP ==> next == if m == Subscribed then ReceiveFirst else Sleep)
  {
    PointsReachable(l, i);
    assert Fits(l, i) && Fits(l, i + 1);
  }

  /** The steps up to i end with a pull that brought nothing, or with the insert of what it brought. */
  ghost predicate Stored(l: Log, i: nat, r: Remote, size: Size, m: Mode) {
    && i < |l.steps| && l.steps[i].call.answer.ok
    && if size == Empty then PulledAt(l, i, r, size, m)
       else i > 0 && PulledAt(l, i - 1, r, size, m) && l.steps[i].call.kind == Inserting
  }

  predicate PulledAt(l: Log, i: nat, r: Remote, size: Size, m: Mode)
    requires i < |l.steps|
  {
    var c := l.steps[i].call;
    c.answer.ok && c.kind == Pulling(r) && c.size == size && l.steps[i].at.mode == m
  }

  /**
    A stored pull: the first one settles on its remote's mode; a backfill takes whole batches until one is short and
    then receives; a polling mode starts its next turn after a whole batch and waits otherwise; and in redis_pull
    mode the remote decides whether the mode is degraded.
   */
  lemma StoredPullGoesOn(l: Course, i: nat, r: Remote, size: Size, m: Mode)
    requires i + 1 < |l.steps| && Stored(l, i, r, size, m)
    ensures var next, mode := l.steps[i + 1].call.kind, l.steps[i + 1].at.mode;
            && (m == Probing ==> next == Enter(if r == Redis then RedisActive else HTTPOnly))
            && (m == Subscribed && size != Full ==> next == ReceiveFirst)
            && (m == Subscribed && size == Full ==> next == Pulling(r) || next == Inserting)
            && (m != Probing && m != Subscribed ==> next == if size == Full then Check else Sleep)
            && (m == RedisActive || m == RedisDegraded ==> mode == if r == Redis then RedisActive else RedisDegraded)
            && (m != RedisActive && m != RedisDegraded ==> mode == m)
  {
    assert Fits(l, i) && Fits(l, i + 1);
    PointsReachable(l, i);
    if size != Empty { assert Fits(l, i - 1); }
  }

  /** A turn of a mode: Redis in redis_pull mode, HTTP in HTTP mode, and in the degraded modes what their clock says. */
  lemma TurnsPull(l: Course, i: nat)
    requires i + 1 < |l.steps| && l.steps[i].call.answer.ok && l.steps[i].call.kind == Check
    ensures var m, next := l.steps[i].at.mode, l.steps[i + 1].call.kind;
            && l.steps[i + 1].at.mode == m
            && (m == Probing ==> next == Subscribe)
            && (m == RedisActive ==> next == Pulling(Redis) || next == Inserting)
            && (m == HTTPOnly ==> next == Pulling(HTTP) || next == Inserting)
            && (m == RedisDegraded || m == Degraded ==> next == Due)
  {
    PointsReachable(l, i);
    assert Fits(l, i) && Fits(l, i + 1);
  }

  /** A retry that is due is made, of the subscription or of Redis; until then polling goes on with what works. */
  lemma RetriesWhenDue(l: Course, i: nat)
    requires i + 1 < |l.steps| && l.steps[i].call.kind == Due
    ensures var m, due, next := l.steps[i].at.mode, l.steps[i].call.answer.ok, l.steps[i + 1].call.kind;
            && (m == Degraded && due ==> next == Subscribe)
            && (m == Degraded && !due ==> next == Pulling(Redis) || next == Inserting)
            && (m == RedisDegraded && due ==> next == Pulling(Redis) || next == Inserting)
            && (m == RedisDegraded && !due ==> next == Pulling(HTTP) || next == Inserting)
            && (m == Degraded || m == RedisDegraded)
  {
    PointsReachable(l, i);
    assert Fits(l, i) && Fits(l, i + 1);
  }

  /** After a wait a polling mode takes its next turn; a subscription and the choice of a mode start over. */
  lemma WaitsThenGoesOn(l: Course, i: nat)
    requires i + 1 < |l.steps| && l.steps[i].call.kind == Sleep
    ensures var m, slept, next := l.steps[i].at.mode, l.steps[i].call.answer.ok, l.steps[i + 1].call.kind;
            next == if slept && m != Probing && m != Subscribed then Check else Enter(Probing)
  {
    PointsReachable(l, i);
    assert Fits(l, i) && Fits(l, i + 1);
  }

  /** The window ended at i with messages in hand, and they have been stored. */
  ghost predicate WindowStored(l: Log, i: nat, f: Failure) {
    && 0 < i < |l.steps| && l.steps[i - 1].call.kind == ReceiveMore && !l.steps[i - 1].call.answer.ok
    && l.steps[i - 1].call.answer.failure == f && l.steps[i].call.kind == Inserting && l.steps[i].call.answer.ok
  }

  /** Receiving goes on after a window that ran out; a broken subscription is polled around; a cancelled one is left. */
  lemma SubscriptionGoesOn(l: Course, i: nat, f: Failure)
    requires i + 1 < |l.steps|
    ensures WindowStored(l, i, f) ==>
              l.steps[i + 1].call.kind ==
              if f == DeadlineExceeded then ReceiveFirst else if f == Broken then Enter(Degraded) else Enter(Probing)
    ensures l.steps[i].call.kind == ReceiveFirst && !l.steps[i].call.answer.ok ==>
              l.steps[i + 1].call.kind ==
              if l.steps[i].call.answer.failure == Canceled then Enter(Probing) else Enter(Degraded)
  {
    assert Fits(l, i) && Fits(l, i + 1);
    PointsReachable(l, i);
    if WindowStored(l, i, f) { assert Fits(l, i - 1); }
  }

  /** The choice of a mode starts over only after a cancelled context, a wait or the end of a subscription. */
  lemma StartsOverWhenStopped(l: Course, i: nat)
    requires i + 1 < |l.steps| && l.steps[i + 1].call.kind == Enter(Probing)
    ensures var c := l.steps[i].call;
            || (c.kind == Check && !c.answer.ok)
            || c.kind == Sleep
            || (c.kind == ReceiveFirst && !c.answer.ok && c.answer.failure == Canceled)
            || (c.kind == Inserting && c.answer.ok && l.steps[i].at.Writing? && l.steps[i].at.goal == Subscribed)
  {
    PointsReachable(l, i);
    assert Fits(l, i) && Fits(l, i + 1);
  }

  /** The point after one pull with everything it brought stored, or after what went wrong. */
  function AfterTurn(m: Mode, r: Remote, outcome: Outcome, size: Size): Point {
    match outcome
    case Success => At(ModeBy(m, r), AfterPull(m, r, size))
    case RemoteFailed => AfterFailedPull(m, r)
    case _ => At(m, Sleep)
  }

  /** A pull and the write of what it brought add up to one of the three outcomes. */
  lemma AnswerTurn(m: Mode, r: Remote, ok: bool, size: Size)
    ensures var p := AfterAnswer(m, r, ok, size);
            if ok && size != Empty
            then p.Writing? && AfterInsert(p, true) == AfterTurn(m, r, Success, size) &&
                 AfterInsert(p, false) == AfterTurn(m, r, InboxFailed, size)
            else p == AfterTurn(m, r, if ok then Success else RemoteFailed, size)
  {
  }

  /** In the polling loops a whole batch is followed by the next turn at once, and anything else by a wait. */
  lemma PollingTurn(m: Mode, r: Remote, outcome: Outcome, count: int, batchSize: int)
    requires batchSize > 0 && m != Probing && m != Subscribed
    requires outcome == Success || outcome == InboxFailed || (outcome == RemoteFailed && r == HTTP)
    ensures AfterTurn(m, r, outcome, SizeOf(count, batchSize)) ==
            At(if outcome == Success then ModeBy(m, r) else m,
               if outcome == Success && count >= batchSize then Check else Sleep)
  {
  }

  /** How a window that was written away has ended. */
  function WindowEnd(f: Failure): Outcome {
    match f
    case DeadlineExceeded => Success
    case Canceled => Stopped
    case Broken => RemoteFailed
  }

  function AfterReceiving(outcome: Outcome): Kind {
    match outcome
    case Success => ReceiveFirst
    case RemoteFailed => Enter(Degraded)
    case InboxFailed => Sleep
    case Stopped => Enter(Probing)
  }

  datatype WriteState = WriteState(ledger: Ledger, attempts: seq<Attempt>, now: Point)

  /** The batches at hand wait with nothing done about them, or have all been written. */
  ghost predicate Writes(waiting: seq<Batch>, pending: seq<Batch>, before: WriteState, now: WriteState) {
    now.ledger.consumed == before.ledger.consumed &&
    if pending == waiting then now == before else pending == [] && now.now == AfterInsert(before.now, true)
  }

  /** What the runner holds: parked batches, or a batch in a local variable. */
  datatype Account = Account(ledger: Ledger, origin: Ledger, parked: seq<Batch>, inFlight: seq<Batch>)

  /** Messages are parked or in a local variable, never both, and the ledger accounts for them. */
  ghost predicate Sound(a: Account) {
    match a
    case Account(l, origin, parked, inFlight) =>
      && (parked == [] || inFlight == []) && OneAtMost(parked) && OneAtMost(inFlight)
      && Balanced(l, if parked == [] then inFlight else parked)
      && Extends(origin, l)
  }

  /** The count is that of the messages taken, and only of those that were stored. */
  predicate Counted(before: Ledger, after: Ledger, outcome: Outcome, count: int) {
    match outcome
    case Success => count == |after.consumed| - |before.consumed|
    case Stopped => false
    case _ => count == 0
  }

  /** What is collected from the subscription, once it is not empty. */
  function Growing(batch: seq<string>): seq<Batch> { if batch == [] then [] else [Batch(SUBSCRIBE_NAME, batch)] }

  lemma ReceivedSound(l: Ledger, origin: Ledger, batch: seq<string>, m: string)
    requires Sound(Account(l, origin, [], Growing(batch)))
    ensures Sound(Account(Consume(l, Batch(SUBSCRIBE_NAME, [m])), origin, [], [Batch(SUBSCRIBE_NAME, batch + [m])]))
  {
    if batch == [] {
      ConsumeKeeps(l, [], Batch(SUBSCRIBE_NAME, [m]));
      assert batch + [m] == [m];
    } else {
      ConsumeExtends(l, SUBSCRIBE_NAME, batch, m);
    }
  }

  lemma WrittenSound(l: Ledger, origin: Ledger, parked: seq<Batch>)
    requires parked != [] && Sound(Account(l, origin, parked, []))
    ensures parked[1..] == [] && Sound(Account(HandOver(l, parked[0]), origin, [], []))
  {
    HandOverKeeps(l, parked);
  }

  /** Every pull since then was from this remote. */
  predicate OnlyFrom(remote: Remote, before: seq<Remote>, after: seq<Remote>) {
    |before| <= |after| && forall i :: |before| <= i < |after| ==> after[i] == remote
  }

  lemma OnlyFromStep(remote: Remote, before: seq<Remote>, mid: seq<Remote>, after: seq<Remote>)
    requires OnlyFrom(remote, before, mid) && (after == mid || after == mid + [remote])
    ensures OnlyFrom(remote, before, after)
  {
  }

  /** How many answers are left and how many steps have been taken. */
  datatype Mark = Mark(left: nat, steps: nat)

  /** The outside world: the answers it will give, and what has been asked of it so far. */
  class Outside {
    var script: seq<Answer>
    ghost var log: Course

    constructor (answers: seq<Answer>)
      ensures script == answers && log == Log([], START)
    {
      script, log := answers, Log([], START);
    }

    ghost function Now(): Point
      reads this
    {
      log.now
    }

    ghost function Position(): Mark
      reads this
    {
      Mark(|script|, |log.steps|)
    }

    /** Answers are only used up and steps are only added. */
    ghost predicate Since(m: Mark)
      reads this
    {
      |script| <= m.left && m.steps <= |log.steps|
    }

    /** The latest step told the runner to stop: a cancelled context or wait while it was choosing a mode. */
    ghost predicate Stopped()
      reads this
    {
      && log.steps != []
      && var last := log.steps[|log.steps| - 1];
         !last.call.answer.ok && last.at.mode == Probing && (last.call.kind == Check || last.call.kind == Sleep)
    }

    /** The step that comes next. */
    ghost predicate Ready(k: Kind)
      reads this
    {
      Now().At? && Now().next == k
    }

    /** The next answer of the script. */
    method Take() returns (a: Answer)
      modifies this`script
      ensures old(script) == [] ==> script == [] && a == CANCELLED
      ensures old(script) != [] ==> script == old(script)[1..] && a == old(script)[0]
    {
      if script == [] { return CANCELLED; }
      a, script := script[0], script[1..];
    }

    /** The answer to a step that may come next; `had` is what was at hand before it. */
    method Ask(ghost kind: Kind, ghost had: int, ghost batchSize: int) returns (a: Answer)
      requires MayFollow(Now(), kind)
      modifies this
      ensures old(script) == [] ==> script == [] && a == CANCELLED
      ensures old(script) != [] ==> script == old(script)[1..] && a == old(script)[0]
      ensures log == Append(old(log), Call(kind, a, SizeOf(had + Brought(kind, a), batchSize)))
    {
      a := Take();
      AppendLawful(log, Call(kind, a, SizeOf(had + Brought(kind, a), batchSize)));
      log := Append(log, Call(kind, a, SizeOf(had + Brought(kind, a), batchSize)));
    }

    /** A loop begins. */
    ghost method Begin(mode: Mode)
      requires MayFollow(Now(), Enter(mode))
      modifies this`log
      ensures Now() == Entered(mode) && |log.steps| == |old(log).steps| + 1
    {
      AppendLawful(log, Call(Enter(mode), CANCELLED, Empty));
      log := Append(log, Call(Enter(mode), CANCELLED, Empty));
    }

    /** The writer was called. */
    ghost method Note(ok: bool)
      requires MayFollow(Now(), Inserting)
      modifies this`log
      ensures Now() == AfterInsert(old(Now()), ok) && |log.steps| == |old(log).steps| + 1
    {
      AppendLawful(log, Call(Inserting, CANCELLED.(ok := ok), Empty));
      log := Append(log, Call(Inserting, CANCELLED.(ok := ok), Empty));
    }

    /** The context is still alive. */
    method Running() returns (yes: bool)
      requires Now().At? && Now().next == Check
      modifies this
      ensures !yes && old(Now()).mode == Probing ==> Stopped()
      ensures Since(old(Position())) && |log.steps| == |old(log).steps| + 1 && (yes ==> |script| < old(|script|))
      ensures yes <==> old(script) != [] && old(script)[0].ok
      ensures Now() == AfterCheck(old(Now()).mode, yes)
    {
      var a := Ask(Check, 0, 1);
      return a.ok;
    }

    /** A subscription was made. */
    method Connects() returns (yes: bool)
      requires Now().At? && Now().next == Subscribe
      modifies this
      ensures Since(old(Position())) && |log.steps| == |old(log).steps| + 1 && (yes ==> |script| < old(|script|))
      ensures yes <==> old(script) != [] && old(script)[0].ok
      ensures Now() == AfterSubscribe(old(Now()).mode, yes)
    {
      var a := Ask(Subscribe, 0, 1);
      return a.ok;
    }

    /** The clock has reached the time of the next retry. */
    method IsDue() returns (yes: bool)
      requires Now().At? && Now().next == Due
      modifies this
      ensures Since(old(Position())) && |log.steps| == |old(log).steps| + 1 && (yes ==> |script| < old(|script|))
      ensures yes <==> old(script) != [] && old(script)[0].ok
      ensures Now() == AfterDue(old(Now()).mode, yes)
    {
      var a := Ask(Due, 0, 1);
      return a.ok;
    }

    /** The wait was not cut short. */
    method Sleeps() returns (yes: bool)
      requires Now().At? && Now().next == Sleep
      modifies this
      ensures !yes && old(Now()).mode == Probing ==> Stopped()
      ensures Since(old(Position())) && |log.steps| == |old(log).steps| + 1 && (yes ==> |script| < old(|script|))
      ensures yes <==> old(script) != [] && old(script)[0].ok
      ensures Now() == AfterSleep(old(Now()).mode, yes)
    {
      var a := Ask(Sleep, 0, 1);
      return a.ok;
    }
  }

  class IngestRunner {
    const outside: Outside
    var hasSubscribe: bool
    var hasRedis: bool
    var hasHTTP: bool
    var hasWriter: bool
    var batchSize: int
    var pendingInbox: seq<Batch>
    ghost var observed: seq<Signal>
    /** Every call of the writer, in order. */
    ghost var attempts: seq<Attempt>
    /** The remotes pulled from, in order. */
    ghost var pulls: seq<Remote>
    ghost var ledger: Ledger
    /** The ledger as it stood when the present run began. */
    ghost var origin: Ledger
    /** Taken from the remote and still in a local variable: a pulled or a growing subscribe batch. */
    ghost var inFlight: seq<Batch>

    ghost predicate Valid()
      reads this
    {
      Sound(Account(ledger, origin, pendingInbox, inFlight)) && Explained(attempts, observed, ledger.handed)
    }

    /** A parked batch is the one whose insert has just failed. */
    ghost predicate Parked()
      reads this
    {
      pendingInbox != [] ==> attempts != [] && attempts[|attempts| - 1] == Attempt(pendingInbox[0], false)
    }

    /** What validate guarantees for the rest of a run. */
    predicate Configured()
      reads this
    {
      hasSubscribe && hasRedis && hasHTTP && hasWriter && batchSize > 0
    }

    /** The state between two operations: nothing is in a local variable. */
    ghost predicate Idle()
      reads this
    {
      Still() && Parked()
    }

    /** The same while a parked batch is about to be written again. */
    ghost predicate Still()
      reads this
    {
      Valid() && Configured() && inFlight == []
    }

    constructor (sub: bool, redis: bool, http: bool, writer: bool, batch: int, world: Outside)
      ensures Valid() && inFlight == [] && pendingInbox == [] && outside == world
      ensures ledger == Ledger([], [], []) && observed == []
      ensures hasSubscribe == sub && hasRedis == redis && hasHTTP == http && hasWriter == writer && batchSize == batch
    {
      hasSubscribe, hasRedis, hasHTTP, hasWriter, batchSize := sub, redis, http, writer, batch;
      outside, pendingInbox := world, [];
      observed, attempts, pulls, ledger, origin, inFlight := [], [], [], Ledger([], [], []), Ledger([], [], []), [];
    }

    // ----- interactions with the outside -----

    /** source.Pull: only ever called with nothing parked. */
    method Pull(remote: Remote) returns (a: Answer)
      requires Idle() && pendingInbox == [] && outside.Ready(Pulling(remote))
      modifies outside, this`ledger, this`inFlight, this`pulls
      ensures Parked() && a == if old(outside.script) == [] then CANCELLED else old(outside.script)[0]
      ensures outside.Now() == AfterAnswer(old(outside.Now()).mode, remote, a.ok, SizeOf(|a.messages|, batchSize))
      ensures Valid() && outside.Since(old(outside.Position())) && pulls == old(pulls) + [remote]
      ensures a.ok ==> |outside.script| < old(|outside.script|)
      ensures var usual := if remote == Redis then "redis_pull:usage" else "http_pull:usage_queue";
              var b := Batch(if a.name != "" then a.name else usual, a.messages);
              if a.ok && a.messages != []
              then ledger == Consume(old(ledger), b) && |Entries(b)| == |a.messages| && inFlight == [b]
              else ledger == old(ledger) && inFlight == []
    {
      a := outside.Ask(Pulling(remote), 0, batchSize);
      pulls := pulls + [remote];
      if a.ok && a.messages != [] {
        ghost var b := Batch(if a.name != "" then a.name else NameOf(remote), a.messages);
        ConsumeKeeps(ledger, [], b);
        EntriesAre(b);
        ledger, inFlight := Consume(ledger, b), [b];
      }
    }

    /** sub.Receive: only ever called with nothing parked. */
    method Receive(ghost batch: seq<string>) returns (a: Answer, message: string)
      requires Valid() && Configured() && pendingInbox == [] && outside.Ready(Window(batch))
      requires inFlight == Growing(batch)
      modifies outside, this`ledger, this`inFlight
      ensures Valid() && outside.Since(old(outside.Position()))
      ensures a.ok ==> |outside.script| < old(|outside.script|)
      ensures a == (if old(outside.script) == [] then CANCELLED else old(outside.script)[0]) && message == a.name
      ensures outside.Now() == AfterReceive(old(outside.Now()).mode, batch != [], a, SizeOf(|batch| + 1, batchSize))
      ensures a.ok && old(outside.Now()).mode == Subscribed ==> Collecting(batch + [message])
      ensures if a.ok then ledger == Consume(old(ledger), Batch("redis_subscribe:usage", [message]))
                           && inFlight == [Batch("redis_subscribe:usage", batch + [message])]
              else ledger == old(ledger) && inFlight == old(inFlight)
    {
      a := outside.Ask(Window(batch), |batch|, batchSize);
      message := a.name;
      if a.ok {
        ReceivedSound(ledger, origin, batch, message);
        ledger := Consume(ledger, Batch(SUBSCRIBE_NAME, [message]));
        inFlight := [Batch(SUBSCRIBE_NAME, batch + [message])];
      }
    }

    /** The control-aware writer over a delegate that stores all of a batch or none of it. */
    method Insert(b: Batch) returns (ok: bool)
      requires hasWriter && Explained(attempts, observed, ledger.handed)
      requires MayFollow(outside.Now(), Inserting)
      modifies outside, this`ledger, this`observed, this`attempts
      ensures Explained(attempts, observed, ledger.handed) && attempts == old(attempts) + [Attempt(b, ok)]
      ensures ledger == if ok then HandOver(old(ledger), b) else old(ledger)
      ensures observed == old(observed) + Signals(b.messages)
      ensures outside.Since(old(outside.Position()))
      ensures ok <==> UsageOnly(b.messages) == [] || (old(outside.script) != [] && old(outside.script)[0].ok)
      ensures outside.Now() == AfterInsert(old(outside.Now()), ok)
    {
      var usage, signals := FilterUsage(b.messages);
      observed := observed + signals;
      UsageOfBatch(b.source, b.messages);
      if usage == [] {
        ok := true;
      } else {
        var a := outside.Take();
        ok := a.ok;
      }
      outside.Note(ok);
      AttemptExplained(attempts, old(observed), ledger.handed, b, ok);
      attempts := attempts + [Attempt(b, ok)];
      if ok {
        ledger := ledger.(handed := ledger.handed + Entries(b), log := ledger.log + Entries(Batch(b.source, usage)));
      }
    }

    // ----- writing and pulling -----

    /** The writer is called with the parked batch. */
    method InsertFirst() returns (ok: bool)
      requires Still() && pendingInbox != [] && MayFollow(outside.Now(), Inserting)
      modifies outside, this`ledger, this`observed, this`attempts
      ensures if ok then Written() else Idle()
      ensures attempts == old(attempts) + [Attempt(pendingInbox[0], ok)]
      ensures ledger.consumed == old(ledger).consumed && (!ok ==> ledger == old(ledger))
      ensures outside.Since(old(outside.Position())) && outside.Now() == AfterInsert(old(outside.Now()), ok)
    {
      WrittenSound(ledger, origin, pendingInbox);
      ok := Insert(pendingInbox[0]);
    }

    /** The parked batch has just been stored and is due to be dropped. */
    ghost predicate Written()
      reads this
    {
      && Sound(Account(ledger, origin, [], [])) && Explained(attempts, observed, ledger.handed)
      && Configured() && inFlight == [] && |pendingInbox| == 1
    }

    method DropFirst()
      requires Written()
      modifies this`pendingInbox
      ensures Still() && pendingInbox == []
    {
      pendingInbox := pendingInbox[1..];
    }

    /** A new batch joins those that wait; where one waits already, there is none. */
    method Park(source: string, messages: seq<string>)
      requires Valid() && Configured()
      requires inFlight == if messages == [] then [] else [Batch(source, messages)]
      modifies this`pendingInbox, this`inFlight
      ensures Still() && pendingInbox == old(pendingInbox) + old(inFlight)
    {
      if |messages| > 0 {
        pendingInbox := pendingInbox + [Batch(source, messages)];
        assert pendingInbox == inFlight;
        inFlight := [];
      }
    }

    /** writeInboxLocked: the parked batch, or the new one, goes to the writer; on failure it is kept. */
    method WriteInboxLocked(source: string, messages: seq<string>) returns (outcome: Outcome)
      requires Valid() && Configured()
      requires inFlight == if messages == [] then [] else [Batch(source, messages)]
      requires pendingInbox + inFlight != [] ==> MayFollow(outside.Now(), Inserting)
      modifies outside, this`ledger, this`observed, this`attempts, this`pendingInbox, this`inFlight
      ensures Idle() && outside.Since(old(outside.Position()))
      ensures outcome == Success || outcome == InboxFailed
      ensures outcome == Success <==> pendingInbox == []
      ensures ledger.consumed == old(ledger).consumed
      ensures outcome == Success ==> ledger.handed == ledger.consumed
      ensures outcome == InboxFailed ==> pendingInbox == old(pendingInbox) + old(inFlight) && ledger == old(ledger)
      ensures outcome == InboxFailed ==> attempts == old(attempts) + [Attempt(pendingInbox[0], false)]
      ensures outside.Now() == if old(pendingInbox + inFlight) == [] then old(outside.Now())
                               else AfterInsert(old(outside.Now()), outcome == Success)
    {
      Park(source, messages);
      outcome := WriteWaiting();
    }

    /** Its loop. */
    method WriteWaiting() returns (outcome: Outcome)
      requires Still() && (pendingInbox != [] ==> MayFollow(outside.Now(), Inserting))
      modifies outside, this`ledger, this`observed, this`attempts, this`pendingInbox
      ensures Idle() && outside.Since(old(outside.Position())) && ledger.consumed == old(ledger).consumed
      ensures if outcome == Success then pendingInbox == []
              else outcome == InboxFailed && pendingInbox == old(pendingInbox) && ledger == old(ledger) &&
                   pendingInbox != [] && attempts == old(attempts) + [Attempt(pendingInbox[0], false)]
      ensures outside.Now() == if old(pendingInbox) == [] then old(outside.Now())
                               else AfterInsert(old(outside.Now()), outcome == Success)
    {
      ghost var waiting := pendingInbox;
      while |pendingInbox| > 0
        invariant Still() && outside.Since(old(outside.Position()))
        invariant Writes(waiting, pendingInbox, WriteState(old(ledger), old(attempts), old(outside.Now())),
                         WriteState(ledger, attempts, outside.Now()))
        decreases |pendingInbox|
      {
        var ok := InsertFirst();
        if !ok { return InboxFailed; }
        DropFirst();
      }
      return Success;
    }

    /** serialPullAndWrite: a parked batch goes first, and while it cannot be written nothing is pulled. */
    method SerialPullAndWrite(remote: Remote) returns (count: int, outcome: Outcome)
      requires Idle() && outside.Ready(Pulling(remote))
      modifies outside, this`ledger, this`observed, this`attempts, this`pendingInbox, this`inFlight, this`pulls
      ensures Idle() && outside.Since(old(outside.Position()))
      ensures Counted(old(ledger), ledger, outcome, count) && (outcome != InboxFailed <==> pendingInbox == [])
      ensures outcome == Success ==> |outside.script| < old(|outside.script|)
      ensures outcome == InboxFailed && ledger.consumed == old(ledger).consumed
              ==> pendingInbox == old(pendingInbox) && ledger == old(ledger)
      ensures ledger.consumed != old(ledger).consumed ==> old(ledger).consumed <= ledger.handed
      ensures pulls == old(pulls) + [remote] || (pulls == old(pulls) && outcome == InboxFailed && ledger == old(ledger))
      ensures outside.Now() == AfterTurn(old(outside.Now()).mode, remote, outcome, SizeOf(count, batchSize))
    {
      if (remote == Redis && !hasRedis) || (remote == HTTP && !hasHTTP) { return 0, RemoteFailed; }
      outcome := WriteInboxLocked("", []);
      if outcome != Success { return 0, outcome; }
      count, outcome := PullAndWrite(remote);
    }

    /** The rest of serialPullAndWrite, once nothing is parked. */
    method PullAndWrite(remote: Remote) returns (count: int, outcome: Outcome)
      requires Idle() && pendingInbox == [] && outside.Ready(Pulling(remote))
      modifies outside, this`ledger, this`observed, this`attempts, this`pendingInbox, this`inFlight, this`pulls
      ensures Idle() && outside.Since(old(outside.Position()))
      ensures outside.Now() == AfterTurn(old(outside.Now()).mode, remote, outcome, SizeOf(count, batchSize))
      ensures Counted(old(ledger), ledger, outcome, count) && (outcome != InboxFailed <==> pendingInbox == [])
      ensures outcome == Success ==> |outside.script| < old(|outside.script|)
      ensures outcome == InboxFailed ==> |old(ledger).consumed| < |ledger.consumed|
      ensures old(ledger).consumed <= ledger.handed && pulls == old(pulls) + [remote]
    {
      ghost var m := outside.Now().mode;
      var a, name := Fetch(remote);
      AnswerTurn(m, remote, a.ok, SizeOf(|a.messages|, batchSize));
      if !a.ok || |a.messages| == 0 { return 0, if a.ok then Success else RemoteFailed; }
      outcome := WritePulled(name, a.messages);
      count := if outcome == Success then |a.messages| else 0;
    }

    /** The pull and the name that its batch is stored under. */
    method Fetch(remote: Remote) returns (a: Answer, name: string)
      requires Idle() && pendingInbox == [] && outside.Ready(Pulling(remote))
      modifies outside, this`ledger, this`inFlight, this`pulls
      ensures Valid() && Parked() && pulls == old(pulls) + [remote]
      ensures outside.Since(old(outside.Position())) && (a.ok ==> |outside.script| < old(|outside.script|))
      ensures outside.Now() == AfterAnswer(old(outside.Now()).mode, remote, a.ok, SizeOf(|a.messages|, batchSize))
      ensures inFlight == if a.ok && a.messages != [] then [Batch(name, a.messages)] else []
      ensures ledger.handed == old(ledger).consumed
      ensures |ledger.consumed| == |old(ledger).consumed| + if a.ok then |a.messages| else 0
    {
      assert ledger.handed == ledger.consumed;
      a := Pull(remote);
      name := if a.name != "" then a.name else NameOf(remote);
    }

    /** The pulled batch goes to the writer; what was consumed before it has been handed over already. */
    method WritePulled(name: string, messages: seq<string>) returns (outcome: Outcome)
      requires Valid() && Configured() && messages != [] && inFlight == [Batch(name, messages)]
      requires outside.Now().Writing?
      modifies outside, this`ledger, this`observed, this`attempts, this`pendingInbox, this`inFlight
      ensures Idle() && outside.Since(old(outside.Position())) && ledger.consumed == old(ledger).consumed
      ensures outcome == Success || outcome == InboxFailed
      ensures outcome == Success <==> pendingInbox == []
      ensures old(ledger).handed <= ledger.handed
      ensures outside.Now() == AfterInsert(old(outside.Now()), outcome == Success)
    {
      outcome := WriteInboxLocked(name, messages);
    }

    /** The order every mode pulls in: Redis, and HTTP only when Redis itself failed. */
    method PullRedisElseHTTP(tryRedis: bool) returns (count: int, outcome: Outcome, used: Remote)
      requires Idle() && outside.Ready(Pulling(if tryRedis then Redis else HTTP))
      modifies outside, this`ledger, this`observed, this`attempts, this`pendingInbox, this`inFlight, this`pulls
      ensures Idle() && outside.Since(old(outside.Position()))
      ensures outcome == Success || outcome == InboxFailed || outcome == RemoteFailed
      ensures outcome != InboxFailed <==> pendingInbox == []
      ensures outcome == Success ==> |outside.script| < old(|outside.script|)
      ensures used == Redis ==> tryRedis && outcome != RemoteFailed
      ensures used == Redis ==> pulls == old(pulls) + [Redis] || (pulls == old(pulls) && outcome == InboxFailed)
      ensures used == HTTP ==> var tried := if tryRedis then old(pulls) + [Redis] else old(pulls);
                               pulls == tried + [HTTP] || (pulls == tried && outcome == InboxFailed)
      ensures outside.Now() == AfterTurn(old(outside.Now()).mode, used, outcome, SizeOf(count, batchSize))
    {
      if tryRedis {
        count, outcome := SerialPullAndWrite(Redis);
        if outcome != RemoteFailed { return count, outcome, Redis; }
      }
      count, outcome := SerialPullAndWrite(HTTP);
      return count, outcome, HTTP;
    }

    /** drainBackfillSource: until a batch comes back short. */
    method DrainBackfillSource(remote: Remote) returns (outcome: Outcome)
      requires Idle() && outside.Now() == At(Subscribed, Pulling(remote))
      modifies outside, this`ledger, this`observed, this`attempts, this`pendingInbox, this`inFlight, this`pulls
      ensures Idle() && outside.Since(old(outside.Position()))
      ensures outcome == Success || outcome == InboxFailed || outcome == RemoteFailed
      ensures outcome != InboxFailed <==> pendingInbox == []
      ensures OnlyFrom(remote, old(pulls), pulls)
      ensures outside.Now() == AfterTurn(Subscribed, remote, outcome, Short)
    {
      while true
        invariant Idle() && outside.Since(old(outside.Position())) && OnlyFrom(remote, old(pulls), pulls)
        invariant outside.Now() == At(Subscribed, Pulling(remote))
        decreases |outside.script|
      {
        ghost var mid := pulls;
        var count, result := SerialPullAndWrite(remote);
        OnlyFromStep(remote, old(pulls), mid, pulls);
        if result != Success { return result; }
        if count == 0 || !(count >= batchSize) { return Success; }
      }
    }

    /** backfillAfterSubscribe: unless the inbox failed, nothing is left parked. */
    method BackfillAfterSubscribe() returns (outcome: Outcome)
      requires Idle() && outside.Now() == At(Subscribed, Pulling(Redis))
      modifies outside, this`ledger, this`observed, this`attempts, this`pendingInbox, this`inFlight, this`pulls
      ensures Idle() && outside.Since(old(outside.Position()))
      ensures outcome == Success || outcome == InboxFailed
      ensures outcome == Success <==> pendingInbox == []
      ensures outside.Now() == At(Subscribed, if outcome == Success then ReceiveFirst else Sleep)
    {
      outcome := DrainBackfillSource(Redis);
      if outcome == Success || outcome == InboxFailed { return; }
      outcome := DrainBackfillSource(HTTP);
      if outcome == Success || outcome == InboxFailed { return; }
      return Success;
    }

    /** receiveSubscribeBatches: whatever was received is written before the method ends. */
    method ReceiveSubscribeBatches() returns (outcome: Outcome)
      requires Idle() && pendingInbox == [] && outside.Now() == At(Subscribed, ReceiveFirst)
      modifies outside, this`ledger, this`observed, this`attempts, this`pendingInbox, this`inFlight
      ensures Idle() && outside.Since(old(outside.Position()))
      ensures outcome == InboxFailed <==> pendingInbox != []
      ensures outcome == Success ==> |outside.script| < old(|outside.script|)
      ensures outside.Now() == At(Subscribed, AfterReceiving(outcome))
    {
      var a, first := Receive([]);
      if !a.ok { return if a.failure == Canceled then Stopped else RemoteFailed; }
      assert [] + [first] == [first];
      outcome := CollectWindow(first);
    }

    /** The window after a first message: it ends when the batch is whole or nothing more comes. */
    method CollectWindow(first: string) returns (outcome: Outcome)
      requires Collecting([first])
      modifies outside, this`ledger, this`observed, this`attempts, this`pendingInbox, this`inFlight
      ensures Idle() && outside.Since(old(outside.Position()))
      ensures outcome == InboxFailed <==> pendingInbox != []
      ensures outside.Now() == At(Subscribed, AfterReceiving(outcome))
    {
      var batch := [first];
      while |batch| < batchSize
        invariant Collecting(batch) && outside.Since(old(outside.Position()))
        decreases |outside.script|
      {
        var a, message := Receive(batch);
        if !a.ok {
          outcome := CloseWindow(batch, a.failure);
          return;
        }
        batch := batch + [message];
      }
      outcome := WriteSubscribeBatch(batch);
    }

    /** The window has ended: what it brought is written, whatever ended it. */
    method CloseWindow(batch: seq<string>, failure: Failure) returns (outcome: Outcome)
      requires Valid() && Configured() && pendingInbox == [] && inFlight == [Batch(SUBSCRIBE_NAME, batch)]
      requires outside.Now() == Writing(Subscribed, Subscribed, AfterReceiveEnded(failure, true))
      modifies outside, this`ledger, this`observed, this`attempts, this`pendingInbox, this`inFlight
      ensures Idle() && outside.Since(old(outside.Position()))
      ensures outcome == InboxFailed <==> pendingInbox != []
      ensures outside.Now() == At(Subscribed, AfterReceiving(outcome))
    {
      outcome := WriteSubscribeBatch(batch);
      if outcome == Success { outcome := WindowEnd(failure); }
    }

    /** A batch is being collected; once it is whole it is due to be written. */
    ghost predicate Collecting(batch: seq<string>)
      reads this, outside
    {
      && Valid() && Configured() && pendingInbox == [] && batch != []
      && inFlight == [Batch(SUBSCRIBE_NAME, batch)]
      && outside.Now() ==
         if |batch| >= batchSize then Writing(Subscribed, Subscribed, ReceiveFirst) else At(Subscribed, ReceiveMore)
    }

    /** writeSubscribeBatch. */
    method WriteSubscribeBatch(batch: seq<string>) returns (outcome: Outcome)
      requires Valid() && Configured() && pendingInbox == [] && inFlight == [Batch(SUBSCRIBE_NAME, batch)]
      requires outside.Now().Writing?
      modifies outside, this`ledger, this`observed, this`attempts, this`pendingInbox, this`inFlight
      ensures Idle() && outside.Since(old(outside.Position()))
      ensures outcome == Success || outcome == InboxFailed
      ensures outcome == Success <==> pendingInbox == []
      ensures outside.Now() == AfterInsert(old(outside.Now()), outcome == Success)
    {
      outcome := WriteInboxLocked(SUBSCRIBE_NAME, batch);
    }

    // ----- mode loops -----

    /** A polling turn ends: at once after a whole batch, else after an idle wait, an inbox pause or a backoff. */
    method FinishTurn(ghost m: Mode, outcome: Outcome, count: int) returns (again: bool)
      requires m != Probing && m != Subscribed
      requires outside.Now() == At(m, if outcome == Success && count >= batchSize then Check else Sleep)
      modifies outside
      ensures outside.Since(old(outside.Position()))
      ensures again && !(outcome == Success && count >= batchSize) ==> |outside.script| < old(|outside.script|)
      ensures if again then outside.Now() == At(m, Check) else outside.Ready(Enter(Probing))
    {
      if outcome == Success && count >= batchSize { return true; }
      again := outside.Sleeps();
    }

    /** A turn's pull and the wait after it. */
    method PollOnce(ghost m: Mode, tryRedis: bool) returns (again: bool, outcome: Outcome, used: Remote)
      requires m != Probing && m != Subscribed
      requires Idle() && outside.Now() == At(m, Pulling(if tryRedis then Redis else HTTP))
      modifies outside, this`ledger, this`observed, this`attempts, this`pendingInbox, this`inFlight, this`pulls
      ensures Idle() && outside.Since(old(outside.Position()))
              && (again ==> |outside.script| < old(|outside.script|))
      ensures if again then outside.Now() == At(if outcome == Success then ModeBy(m, used) else m, Check)
              else outside.Ready(Enter(Probing))
    {
      var count;
      count, outcome, used := PullRedisElseHTTP(tryRedis);
      PollingTurn(m, used, outcome, count, batchSize);
      again := FinishTurn(if outcome == Success then ModeBy(m, used) else m, outcome, count);
    }

    /** runSubscribeDegradedPolling: true when a new subscription was made, false when cancelled. */
    method RunSubscribeDegradedPolling() returns (reconnected: bool)
      requires Idle() && outside.Ready(Enter(Degraded))
      modifies outside, this`ledger, this`observed, this`attempts, this`pendingInbox, this`inFlight, this`pulls
      ensures Idle() && outside.Since(old(outside.Position()))
      ensures reconnected ==> |outside.script| < old(|outside.script|)
      ensures outside.Ready(Enter(if reconnected then Subscribed else Probing))
    {
      outside.Begin(Degraded);
      while true
        invariant Idle() && outside.Since(old(outside.Position()))
        invariant outside.Now() == At(Degraded, Check)
        decreases |outside.script|
      {
        var again;
        again, reconnected := DegradedTurn();
        if !again { return; }
      }
    }

    /** One turn of degraded polling: the context, the subscription when its retry is due, then a pull. */
    method DegradedTurn() returns (again: bool, reconnected: bool)
      requires Idle() && outside.Now() == At(Degraded, Check)
      modifies outside, this`ledger, this`observed, this`attempts, this`pendingInbox, this`inFlight, this`pulls
      ensures Idle() && outside.Since(old(outside.Position()))
      ensures again || reconnected ==> |outside.script| < old(|outside.script|)
      ensures if again then outside.Now() == At(Degraded, Check) && !reconnected
              else outside.Ready(Enter(if reconnected then Subscribed else Probing))
    {
      again := outside.Running();
      if !again { return false, false; }
      reconnected := Reconnects();
      if reconnected { return false, true; }
      var outcome, used;
      again, outcome, used := PollOnce(Degraded, true);
    }

    /** A degraded turn's attempt to subscribe again, made when its time has come. */
    method Reconnects() returns (reconnected: bool)
      requires outside.Now() == At(Degraded, Due)
      modifies outside
      ensures outside.Since(old(outside.Position())) && (reconnected ==> |outside.script| < old(|outside.script|))
      ensures outside.Now() == At(Degraded, if reconnected then Enter(Subscribed) else Pulling(Redis))
    {
      reconnected := outside.IsDue();
      if reconnected { reconnected := outside.Connects(); }
    }

    method RunSubscribeMode()
      requires Idle() && outside.Ready(Enter(Subscribed))
      modifies outside, this`ledger, this`observed, this`attempts, this`pendingInbox, this`inFlight, this`pulls
      ensures Idle() && outside.Since(old(outside.Position())) && outside.Ready(Enter(Probing))
    {
      while true
        invariant Idle() && outside.Since(old(outside.Position())) && outside.Ready(Enter(Subscribed))
        decreases |outside.script|
      {
        outside.Begin(Subscribed);
        var outcome := BackfillAfterSubscribe();
        if outcome != Success {
          var _ := outside.Sleeps();
          return;
        }
        var reconnected := ReceiveUntilReconnected();
        if !reconnected { return; }
      }
    }

    /** The inner loop of runSubscribeMode, up to the reconnection that leaves it. */
    method ReceiveUntilReconnected() returns (reconnected: bool)
      requires Idle() && pendingInbox == [] && outside.Now() == At(Subscribed, ReceiveFirst)
      modifies outside, this`ledger, this`observed, this`attempts, this`pendingInbox, this`inFlight, this`pulls
      ensures Idle() && outside.Since(old(outside.Position()))
      ensures reconnected ==> |outside.script| < old(|outside.script|)
      ensures outside.Ready(Enter(if reconnected then Subscribed else Probing))
    {
      while true
        invariant Idle() && pendingInbox == [] && outside.Since(old(outside.Position()))
        invariant outside.Now() == At(Subscribed, ReceiveFirst)
        decreases |outside.script|
      {
        var outcome := ReceiveSubscribeBatches();
        if outcome == Success { continue; }
        if outcome == Stopped { return false; }
        if outcome == InboxFailed {
          var _ := outside.Sleeps();
          return false;
        }
        reconnected := RunSubscribeDegradedPolling();
        return;
      }
    }

    method RunRedisPullMode()
      requires Idle() && outside.Ready(Enter(RedisActive))
      modifies outside, this`ledger, this`observed, this`attempts, this`pendingInbox, this`inFlight, this`pulls
      ensures Idle() && outside.Since(old(outside.Position())) && outside.Ready(Enter(Probing))
    {
      outside.Begin(RedisActive);
      var degraded := false;
      while true
        invariant Idle() && outside.Since(old(outside.Position()))
        invariant outside.Now() == At(if degraded then RedisDegraded else RedisActive, Check)
        decreases |outside.script|
      {
        var running := outside.Running();
        if !running { return; }
        var tryRedis := TriesRedis(degraded);
        var again;
        again, degraded := RedisTurn(degraded, tryRedis);
        if !again { return; }
      }
    }

    /** While degraded, Redis is tried again only when its retry is due. */
    method TriesRedis(degraded: bool) returns (tryRedis: bool)
      requires outside.Now() == AfterCheck(if degraded then RedisDegraded else RedisActive, true)
      modifies outside
      ensures outside.Since(old(outside.Position())) && (!degraded ==> tryRedis)
      ensures outside.Now() ==
              At(if degraded then RedisDegraded else RedisActive, Pulling(if tryRedis then Redis else HTTP))
    {
      tryRedis := true;
      if degraded { tryRedis := outside.IsDue(); }
    }

    /** A redis_pull turn: the remote that was pulled from decides whether the mode is degraded. */
    method RedisTurn(was: bool, tryRedis: bool) returns (again: bool, degraded: bool)
      requires Idle()
      requires outside.Now() ==
               At(if was then RedisDegraded else RedisActive, Pulling(if tryRedis then Redis else HTTP))
      modifies outside, this`ledger, this`observed, this`attempts, this`pendingInbox, this`inFlight, this`pulls
      ensures Idle() && outside.Since(old(outside.Position()))
              && (again ==> |outside.script| < old(|outside.script|))
      ensures if again then outside.Now() == At(if degraded then RedisDegraded else RedisActive, Check)
              else outside.Ready(Enter(Probing))
    {
      degraded := was;
      var outcome, used;
      again, outcome, used := PollOnce(if was then RedisDegraded else RedisActive, tryRedis);
      if outcome == Success { degraded := used == HTTP; }
    }

    method RunHTTPPullMode()
      requires Idle() && outside.Ready(Enter(HTTPOnly))
      modifies outside, this`ledger, this`observed, this`attempts, this`pendingInbox, this`inFlight, this`pulls
      ensures Idle() && outside.Since(old(outside.Position())) && OnlyFrom(HTTP, old(pulls), pulls)
      ensures outside.Ready(Enter(Probing))
    {
      outside.Begin(HTTPOnly);
      while true
        invariant Idle() && outside.Since(old(outside.Position())) && OnlyFrom(HTTP, old(pulls), pulls)
        invariant outside.Now() == At(HTTPOnly, Check)
        decreases |outside.script|
      {
        var again := HTTPTurn(old(pulls));
        if !again { return; }
      }
    }

    method HTTPTurn(ghost before: seq<Remote>) returns (again: bool)
      requires Idle() && outside.Now() == At(HTTPOnly, Check) && OnlyFrom(HTTP, before, pulls)
      modifies outside, this`ledger, this`observed, this`attempts, this`pendingInbox, this`inFlight, this`pulls
      ensures Idle() && outside.Since(old(outside.Position()))
              && (again ==> |outside.script| < old(|outside.script|))
      ensures if again then outside.Now() == At(HTTPOnly, Check) else outside.Ready(Enter(Probing))
      ensures OnlyFrom(HTTP, before, pulls)
    {
      again := outside.Running();
      if !again { return; }
      var count, outcome := SerialPullAndWrite(HTTP);
      PollingTurn(HTTPOnly, HTTP, outcome, count, batchSize);
      OnlyFromStep(HTTP, before, old(pulls), pulls);
      again := FinishTurn(HTTPOnly, outcome, count);
    }

    /** validate: refuses missing parts and repairs the batch size. */
    method Validate() returns (ok: bool)
      modifies this`batchSize
      ensures ok == (hasSubscribe && hasRedis && hasHTTP && hasWriter)
      ensures ok ==> Configured()
      ensures batchSize == old(batchSize) || (ok && batchSize == 1000)
      ensures ok ==> (batchSize == old(batchSize) <==> old(batchSize) > 0)
    {
      if !hasSubscribe || !hasRedis || !hasHTTP || !hasWriter { return false; }
      if batchSize <= 0 { batchSize := 1000; }
      return true;
    }

    /**
      The whole life of a runner, from any earlier state, possibly with a batch still parked: every
      message taken is either handed over or parked, in order, and the log is the handed-over usage.
     */
    method Run() returns (ok: bool)
      requires Valid() && Parked() && inFlight == [] && outside.Now() == START
      modifies outside, this`ledger, this`observed, this`attempts, this`pendingInbox, this`inFlight, this`pulls,
               this`batchSize, this`origin
      ensures Valid() && inFlight == [] && Extends(old(ledger), ledger)
      ensures pendingInbox != [] ==> attempts != [] && attempts[|attempts| - 1] == Attempt(pendingInbox[0], false)
      ensures outside.Now() == START
      ensures ok ==> outside.Stopped() && |outside.log.steps| > old(|outside.log.steps|)
      ensures |pendingInbox| <= 1
      ensures ledger.consumed == ledger.handed + Flatten(pendingInbox)
      ensures ledger.log == Usage(ledger.handed)
      ensures observed == Told(attempts) && ledger.handed == HandedBy(attempts)
      ensures !ok ==> ledger == old(ledger) && pendingInbox == old(pendingInbox)
    {
      ok := Validate();
      if !ok { return; }
      origin := ledger;
      ProbeUntilStopped();
    }

    /** Run's loop. */
    method ProbeUntilStopped()
      requires Idle() && outside.Now() == START
      modifies outside, this`ledger, this`observed, this`attempts, this`pendingInbox, this`inFlight, this`pulls
      ensures Idle() && outside.Now() == START
      ensures outside.Stopped() && |outside.log.steps| > old(|outside.log.steps|)
    {
      while true
        invariant Idle() && MayFollow(outside.Now(), Enter(Probing)) && outside.Since(old(outside.Position()))
        decreases |outside.script|
      {
        var again := ProbeAndRun();
        if !again { return; }
      }
    }

    /** One turn of Run: subscribe, else pull from Redis, else from HTTP, and live in the mode that worked. */
    method ProbeAndRun() returns (again: bool)
      requires Idle() && MayFollow(outside.Now(), Enter(Probing))
      modifies outside, this`ledger, this`observed, this`attempts, this`pendingInbox, this`inFlight, this`pulls
      ensures Idle() && outside.Since(old(outside.Position()))
      ensures again ==> |outside.script| < old(|outside.script|)
      ensures if again then outside.Ready(Enter(Probing)) else outside.Now() == START && outside.Stopped()
      ensures |outside.log.steps| > old(|outside.log.steps|)
    {
      outside.Begin(Probing);
      var running := outside.Running();
      if !running { return false; }
      var subscribed := outside.Connects();
      if subscribed {
        RunSubscribeMode();
        return true;
      }
      again := PullAndRun();
    }

    /** Without a subscription the first remote that answers decides the mode; if none does, a wait follows. */
    method PullAndRun() returns (again: bool)
      requires Idle() && outside.Now() == At(Probing, Pulling(Redis))
      modifies outside, this`ledger, this`observed, this`attempts, this`pendingInbox, this`inFlight, this`pulls
      ensures Idle() && outside.Since(old(outside.Position()))
      ensures again ==> |outside.script| < old(|outside.script|)
      ensures if again then outside.Ready(Enter(Probing)) else outside.Now() == START && outside.Stopped()
    {
      var count, outcome, used := PullRedisElseHTTP(true);
      if outcome == Success {
        if used == Redis { RunRedisPullMode(); } else { RunHTTPPullMode(); }
        return true;
      }
      again := outside.Sleeps();
    }

    function NameOf(remote: Remote): string { if remote == Redis then REDIS_NAME else HTTP_NAME }
  }
}
