/**
  The in-memory queue of plugin API keys waiting to be registered: bounded in number and bytes,
  drained in batches, each key held until the registration stops returning it.
 */
module RegistrationQueue {
  import opened Wrappers

  const BATCH_SIZE: int := 1000
  const PENDING_LIMIT: int := 10000
  const BYTE_LIMIT: int := 8388608

  /** `plugin` says that the provider and the key both have the plugin form. */
  datatype Identity = Identity(key: string, provider: string, plugin: bool)

  type Identities = map<string, Identity>

  function Size(i: Identity): int { |i.key| + |i.provider| }

  // ----- the register of accepted identities -----

  ghost predicate HasKey(l: seq<Identity>, k: string) {
    l != [] && (l[|l| - 1].key == k || HasKey(l[..|l| - 1], k))
  }

  ghost predicate Unique(l: seq<Identity>) {
    l != [] ==> Unique(l[..|l| - 1]) && !HasKey(l[..|l| - 1], l[|l| - 1].key)
  }

  ghost function Bytes(l: seq<Identity>): int {
    if l == [] then 0 else Bytes(l[..|l| - 1]) + Size(l[|l| - 1])
  }

  ghost function Find(l: seq<Identity>, k: string): (i: Identity)
    requires HasKey(l, k)
    ensures i.key == k
  {
    if l[|l| - 1].key == k then l[|l| - 1] else Find(l[..|l| - 1], k)
  }

  ghost function Without(l: seq<Identity>, k: string): seq<Identity> {
    if l == [] then []
    else if l[|l| - 1].key == k then Without(l[..|l| - 1], k)
    else Without(l[..|l| - 1], k) + [l[|l| - 1]]
  }

  lemma AppendFacts(l: seq<Identity>, i: Identity)
    requires Unique(l) && !HasKey(l, i.key)
    ensures Unique(l + [i]) && Bytes(l + [i]) == Bytes(l) + Size(i)
    ensures forall k :: HasKey(l + [i], k) <==> k == i.key || HasKey(l, k)
    ensures forall k :: HasKey(l + [i], k) ==> Find(l + [i], k) == if k == i.key then i else Find(l, k)
  {
    assert (l + [i])[..|l|] == l;
  }

  lemma {:induction false} WithoutAbsent(l: seq<Identity>, k: string)
    requires !HasKey(l, k)
    ensures Without(l, k) == l
  {
    if l == [] { return; }
    WithoutAbsent(l[..|l| - 1], k);
  }

  lemma {:induction false} WithoutOther(l: seq<Identity>, k: string, o: string)
    requires o != k
    ensures HasKey(Without(l, k), o) <==> HasKey(l, o)
    ensures HasKey(l, o) ==> Find(Without(l, k), o) == Find(l, o)
  {
    if l == [] { return; }
    var n := |l| - 1;
    WithoutOther(l[..n], k, o);
    if l[n].key == k { return; }
    assert (Without(l[..n], k) + [l[n]])[..|Without(l[..n], k)|] == Without(l[..n], k);
  }

  lemma {:induction false} WithoutFacts(l: seq<Identity>, k: string)
    requires Unique(l) && HasKey(l, k)
    ensures Unique(Without(l, k)) && |Without(l, k)| < |l| && !HasKey(Without(l, k), k)
    ensures Bytes(Without(l, k)) == Bytes(l) - Size(Find(l, k))
  {
    var n := |l| - 1;
    if l[n].key == k {
      WithoutAbsent(l[..n], k);
      return;
    }
    WithoutFacts(l[..n], k);
    WithoutOther(l[..n], k, l[n].key);
    AppendFacts(Without(l[..n], k), l[n]);
  }

  // ----- the books -----

  /** pending waits, taken has been taken out for registration and not released, accepted are the keys of both. */
  datatype Books = Books(pending: Identities, taken: Identities, accepted: set<string>, bytes: int)

  ghost predicate Listed(m: Identities, register: seq<Identity>) {
    forall k :: k in m ==> HasKey(register, k) && m[k] == Find(register, k)
  }

  /** accepted is the disjoint union of pending and taken. */
  ghost predicate Partition(b: Books) {
    forall k :: (k in b.accepted <==> k in b.pending || k in b.taken) && !(k in b.pending && k in b.taken)
  }

  /** The books agree with a register of the accepted identities. */
  ghost predicate Balanced(b: Books, register: seq<Identity>) {
    && Unique(register) && Partition(b)
    && Listed(b.pending, register) && Listed(b.taken, register)
    && (forall k :: k in b.accepted <==> HasKey(register, k)) && b.bytes == Bytes(register)
  }

  function Admit(b: Books, i: Identity): Books {
    b.(pending := b.pending[i.key := i], accepted := b.accepted + {i.key}, bytes := b.bytes + Size(i))
  }

  function MoveOut(b: Books, k: string): Books
    requires k in b.pending
  {
    b.(pending := b.pending - {k}, taken := b.taken[k := b.pending[k]])
  }

  function Release(b: Books, k: string): Books
    requires k in b.taken
  {
    b.(taken := b.taken - {k}, accepted := b.accepted - {k}, bytes := b.bytes - Size(b.taken[k]))
  }

  lemma AdmitKeeps(b: Books, register: seq<Identity>, i: Identity)
    requires Balanced(b, register) && i.key !in b.accepted
    ensures Balanced(Admit(b, i), register + [i])
  {
    AppendFacts(register, i);
  }

  lemma MoveOutKeeps(b: Books, register: seq<Identity>, k: string)
    requires Balanced(b, register) && k in b.pending
    ensures Balanced(MoveOut(b, k), register)
  {
  }

  lemma ReleaseKeeps(b: Books, register: seq<Identity>, k: string)
    requires Balanced(b, register) && k in b.taken
    ensures Balanced(Release(b, k), Without(register, k))
  {
    WithoutFacts(register, k);
    forall o | o != k
      ensures HasKey(Without(register, k), o) <==> HasKey(register, o)
      ensures HasKey(register, o) ==> Find(Without(register, k), o) == Find(register, o)
    {
      WithoutOther(register, k, o);
    }
  }

  /** Some register of at most maxPending identities fits the books, and its bytes are within the limit. */
  ghost predicate Sound(b: Books, maxPending: int, maxBytes: int) {
    b.bytes <= maxBytes && exists register :: Balanced(b, register) && |register| <= maxPending
  }

  lemma {:induction false} KeysSize(l: seq<Identity>, keys: set<string>)
    requires Unique(l) && forall k :: k in keys <==> HasKey(l, k)
    ensures |keys| == |l|
  {
    if l == [] {
      assert keys == {};
      return;
    }
    var k := l[|l| - 1].key;
    KeysSize(l[..|l| - 1], keys - {k});
    assert k in keys;
  }

  /** The number of accepted keys is within its limit too. */
  lemma SoundCount(b: Books, maxPending: int, maxBytes: int)
    requires Sound(b, maxPending, maxBytes)
    ensures |b.accepted| <= maxPending
  {
    var register :| Balanced(b, register) && |register| <= maxPending;
    KeysSize(register, b.accepted);
  }

  /** One identity of a notification: known, not a plugin's, refused for lack of room, or accepted. */
  function Offer(b: Books, i: Identity, maxPending: int, maxBytes: int): Books {
    if i.key in b.accepted || !i.plugin || Refused(b, i, maxPending, maxBytes) then b else Admit(b, i)
  }

  predicate Refused(b: Books, i: Identity, maxPending: int, maxBytes: int) {
    i.key !in b.accepted && i.plugin && (|b.accepted| >= maxPending || Size(i) > maxBytes - b.bytes)
  }

  /** No room: another key would exceed the number, or its key and provider the bytes. */
  lemma RefusedMeaning(b: Books, i: Identity, maxPending: int, maxBytes: int)
    ensures Refused(b, i, maxPending, maxBytes) <==>
              i.plugin && i.key !in b.accepted &&
              (|b.accepted + {i.key}| > maxPending || b.bytes + |i.key| + |i.provider| > maxBytes)
    ensures Offer(b, i, maxPending, maxBytes) ==
              if i.plugin && i.key !in b.accepted && !Refused(b, i, maxPending, maxBytes)
              then Books(b.pending[i.key := i], b.taken, b.accepted + {i.key}, b.bytes + |i.key| + |i.provider|)
              else b
  {
    if i.key !in b.accepted { SizeAdd(b.accepted, i.key); }
  }

  /** Only what is accepted decides what is accepted next, not whether it waits or has been taken. */
  lemma {:induction false} OffersAlike(b: Books, c: Books, identities: seq<Identity>, maxPending: int, maxBytes: int)
    requires b.accepted == c.accepted && b.bytes == c.bytes
    ensures OfferAll(b, identities, maxPending, maxBytes).accepted
            == OfferAll(c, identities, maxPending, maxBytes).accepted
    ensures OfferAll(b, identities, maxPending, maxBytes).bytes == OfferAll(c, identities, maxPending, maxBytes).bytes
  {
    if identities != [] { OffersAlike(b, c, identities[..|identities| - 1], maxPending, maxBytes); }
  }

  lemma OfferSound(b: Books, i: Identity, maxPending: int, maxBytes: int)
    requires Sound(b, maxPending, maxBytes)
    ensures Sound(Offer(b, i, maxPending, maxBytes), maxPending, maxBytes)
  {
    if i.key in b.accepted || !i.plugin || Refused(b, i, maxPending, maxBytes) { return; }
    var register :| Balanced(b, register) && |register| <= maxPending;
    KeysSize(register, b.accepted);
    AdmitKeeps(b, register, i);
  }

  lemma MoveOutSound(b: Books, k: string, maxPending: int, maxBytes: int)
    requires Sound(b, maxPending, maxBytes) && k in b.pending
    ensures Sound(MoveOut(b, k), maxPending, maxBytes)
  {
    var register :| Balanced(b, register) && |register| <= maxPending;
    MoveOutKeeps(b, register, k);
  }

  lemma ReleaseSound(b: Books, k: string, maxPending: int, maxBytes: int)
    requires Sound(b, maxPending, maxBytes) && k in b.taken
    ensures Sound(Release(b, k), maxPending, maxBytes)
  {
    var register :| Balanced(b, register) && |register| <= maxPending;
    ReleaseKeeps(b, register, k);
    WithoutFacts(register, k);
  }

  /** Nothing accepted before changes, and whatever is new came from the notification. */
  ghost predicate Merged(before: Books, after: Books, identities: seq<Identity>) {
    && after.taken == before.taken && (forall k :: k in before.accepted ==> k in after.accepted)
    && (forall k :: k in before.pending ==> k in after.pending && after.pending[k] == before.pending[k])
    && (forall k :: k in after.accepted && k !in before.accepted ==>
          k in after.pending && after.pending[k] in identities && after.pending[k].plugin)
  }

  lemma OfferMerged(before: Books, b: Books, i: Identity, maxPending: int, maxBytes: int, identities: seq<Identity>)
    requires Merged(before, b, identities) && i in identities && Partition(b)
    ensures Merged(before, Offer(b, i, maxPending, maxBytes), identities)
  {
  }

  lemma PendingAccepted(b: Books, maxPending: int, maxBytes: int)
    requires Sound(b, maxPending, maxBytes)
    ensures Partition(b)
  {
    var register :| Balanced(b, register);
  }

  /** A whole notification: its identities offered one after the other. */
  function OfferAll(b: Books, identities: seq<Identity>, maxPending: int, maxBytes: int): Books {
    if identities == [] then b
    else
      var n := |identities| - 1;
      Offer(OfferAll(b, identities[..n], maxPending, maxBytes), identities[n], maxPending, maxBytes)
  }

  /** How many identities of a notification found no room at their turn. */
  function RefusedCount(b: Books, identities: seq<Identity>, maxPending: int, maxBytes: int): (n: int)
    ensures n >= 0
  {
    if identities == [] then 0
    else
      var n := |identities| - 1;
      RefusedCount(b, identities[..n], maxPending, maxBytes)
      + if Refused(OfferAll(b, identities[..n], maxPending, maxBytes), identities[n], maxPending, maxBytes)
        then 1 else 0
  }

  /** A notification keeps the books, changes nothing accepted and adds only its own plugin identities. */
  lemma {:induction false} OfferAllMerges(b: Books, identities: seq<Identity>, maxPending: int, maxBytes: int,
                                          whole: seq<Identity>)
    requires Sound(b, maxPending, maxBytes) && forall j :: 0 <= j < |identities| ==> identities[j] in whole
    ensures var r := OfferAll(b, identities, maxPending, maxBytes);
            Sound(r, maxPending, maxBytes) && Merged(b, r, whole)
  {
    if identities == [] { return; }
    var n := |identities| - 1;
    OfferAllMerges(b, identities[..n], maxPending, maxBytes, whole);
    var r := OfferAll(b, identities[..n], maxPending, maxBytes);
    PendingAccepted(r, maxPending, maxBytes);
    OfferSound(r, identities[n], maxPending, maxBytes);
    OfferMerged(b, r, identities[n], maxPending, maxBytes, whole);
  }

  /** Every plugin identity of a notification is accepted in the end, unless there was no room at its turn. */
  lemma {:induction false} EveryOfferDecided(b: Books, identities: seq<Identity>, maxPending: int, maxBytes: int,
                                             j: int)
    requires 0 <= j < |identities| && identities[j].plugin
    ensures identities[j].key in OfferAll(b, identities, maxPending, maxBytes).accepted
         || Refused(OfferAll(b, identities[..j], maxPending, maxBytes), identities[j], maxPending, maxBytes)
  {
    var n := |identities| - 1;
    if j < n {
      EveryOfferDecided(b, identities[..n], maxPending, maxBytes, j);
      assert identities[..n][..j] == identities[..j];
    }
  }

  // ----- the loops -----

  /** One turn of the loop of NotifyPluginAPIKeys. */
  method OfferOne(b: Books, i: Identity, maxPending: int, maxBytes: int) returns (r: Books, refused: bool)
    ensures r == Offer(b, i, maxPending, maxBytes) && refused == Refused(b, i, maxPending, maxBytes)
  {
    if i.key in b.accepted { return b, false; }
    if !i.plugin { return b, false; }
    var size := Size(i);
    if |b.accepted| >= maxPending || size > maxBytes - b.bytes { return b, true; }
    return Books(b.pending[i.key := i], b.taken, b.accepted + {i.key}, b.bytes + size), false;
  }

  lemma OfferAllStep(b: Books, identities: seq<Identity>, n: int, maxPending: int, maxBytes: int, now: Books)
    requires 0 <= n < |identities| && now == OfferAll(b, identities[..n], maxPending, maxBytes)
    ensures OfferAll(b, identities[..n + 1], maxPending, maxBytes) == Offer(now, identities[n], maxPending, maxBytes)
    ensures RefusedCount(b, identities[..n + 1], maxPending, maxBytes)
         == RefusedCount(b, identities[..n], maxPending, maxBytes)
            + if Refused(now, identities[n], maxPending, maxBytes) then 1 else 0
  {
    assert identities[..n + 1][..n] == identities[..n];
  }

  /** The loop of NotifyPluginAPIKeys. */
  method MergeAll(start: Books, identities: seq<Identity>, maxPending: int, maxBytes: int)
    returns (b: Books, refused: int)
    ensures b == OfferAll(start, identities, maxPending, maxBytes)
    ensures refused == RefusedCount(start, identities, maxPending, maxBytes)
  {
    b, refused := start, 0;
    for n := 0 to |identities|
      invariant b == OfferAll(start, identities[..n], maxPending, maxBytes)
      invariant refused == RefusedCount(start, identities[..n], maxPending, maxBytes)
    {
      OfferAllStep(start, identities, n, maxPending, maxBytes, b);
      var noRoom;
      b, noRoom := OfferOne(b, identities[n], maxPending, maxBytes);
      if noRoom { refused := refused + 1; }
    }
    assert identities[..|identities|] == identities;
  }

  /** Taking keys out of pending until the batch is full or nothing waits. */
  method FillBatch(start: Books, ghost maxPending: int, ghost maxBytes: int) returns (b: Books, batch: set<string>)
    requires Sound(start, maxPending, maxBytes)
    ensures Sound(b, maxPending, maxBytes) && b.accepted == start.accepted && b.bytes == start.bytes
    ensures |batch| <= 1000 && (b.pending.Keys == {} || |batch| == 1000)
    ensures TakenOut(start, b, batch)
  {
    b, batch := start, {};
    var count := 0;
    while b.pending.Keys != {} && count < BATCH_SIZE
      invariant Sound(b, maxPending, maxBytes) && b.accepted == start.accepted && b.bytes == start.bytes
      invariant |batch| == count <= BATCH_SIZE && TakenOut(start, b, batch)
      decreases BATCH_SIZE - count
    {
      ghost var _ := Inhabited(b.pending.Keys);
      var key :| key in b.pending.Keys;
      PendingAccepted(b, maxPending, maxBytes);
      MoveOutSound(b, key, maxPending, maxBytes);
      TakenOutStep(start, b, batch, key);
      SizeAdd(batch, key);
      b := MoveOut(b, key);
      batch := batch + {key};
      count := count + 1;
    }
  }

  /** b is start after the keys of the batch went from pending to taken. */
  ghost predicate TakenOut(start: Books, b: Books, batch: set<string>) {
    && (forall k :: k in batch ==> k in start.pending && k in b.taken && b.taken[k] == start.pending[k])
    && (forall k :: k in b.pending <==> k in start.pending && k !in batch)
    && (forall k :: k in b.pending ==> b.pending[k] == start.pending[k])
    && (forall k :: k in b.taken <==> k in start.taken || k in batch)
  }

  lemma TakenOutStep(start: Books, b: Books, batch: set<string>, k: string)
    requires TakenOut(start, b, batch) && k in b.pending
    ensures k !in batch && TakenOut(start, MoveOut(b, k), batch + {k})
  {
  }

  lemma SizeAdd(s: set<string>, k: string)
    requires k !in s
    ensures |s + {k}| == |s| + 1
  {
  }

  /** After an attempt: what it no longer returns is released. */
  method ReleaseDone(start: Books, done: set<string>, ghost maxPending: int, ghost maxBytes: int) returns (b: Books)
    requires Sound(start, maxPending, maxBytes) && forall k :: k in done ==> k in start.taken
    ensures Sound(b, maxPending, maxBytes) && Released(start, b, done)
  {
    b := start;
    var left := done;
    while left != {}
      invariant left <= done && Sound(b, maxPending, maxBytes) && Released(start, b, done - left)
      decreases |left|
    {
      ghost var _ := Inhabited(left);
      var key :| key in left;
      ReleaseSound(b, key, maxPending, maxBytes);
      ReleasedStep(start, b, done, left, key);
      b := Release(b, key);
      left := left - {key};
    }
  }

  /** b is what start becomes when the keys in done have been released. */
  ghost predicate Released(start: Books, b: Books, done: set<string>) {
    && b.pending == start.pending
    && (forall k :: k in b.taken <==> k in start.taken && k !in done)
    && (forall k :: k in b.accepted <==> k in start.accepted && k !in done)
  }

  lemma ReleasedStep(start: Books, b: Books, all: set<string>, left: set<string>, k: string)
    requires (forall o :: o in all ==> o in start.taken) && left <= all && k in left && Released(start, b, all - left)
    ensures k in b.taken && Released(start, Release(b, k), all - (left - {k}))
  {
  }

  // ----- the account -----

  /** An attempt to register a batch, and the keys it returned as remaining. */
  datatype Try = Try(batch: set<string>, remaining: set<string>)

  /** How often registrations have finished with a key. */
  ghost function Settled(tries: seq<Try>, k: string): int {
    if tries == [] then 0
    else
      var t := tries[|tries| - 1];
      Settled(tries[..|tries| - 1], k) + if k in t.batch && k !in t.remaining then 1 else 0
  }

  /** Every admission of every key is either settled by a registration or still accepted. */
  ghost predicate Accounted(admitted: multiset<string>, tries: seq<Try>, accepted: set<string>) {
    forall k :: admitted[k] == Settled(tries, k) + if k in accepted then 1 else 0
  }

  /** One more admission of every key that is accepted now and was not before. */
  ghost function Admissions(admitted: multiset<string>, before: set<string>, after: set<string>): multiset<string> {
    admitted + multiset(after - before)
  }

  lemma AdmissionAccounted(admitted: multiset<string>, tries: seq<Try>, before: set<string>, after: set<string>)
    requires Accounted(admitted, tries, before) && forall k :: k in before ==> k in after
    ensures Accounted(Admissions(admitted, before, after), tries, after)
  {
  }

  lemma TryAccounted(admitted: multiset<string>, tries: seq<Try>, before: set<string>, after: set<string>, t: Try)
    requires Accounted(admitted, tries, before) && forall k :: k in t.batch ==> k in before
    requires forall k :: k in after <==> k in before && !(k in t.batch && k !in t.remaining)
    ensures Accounted(admitted, tries + [t], after)
  {
    assert (tries + [t])[..|tries|] == tries;
  }

  /** A key stays accepted from one state to a later one unless a registration in between finished with it. */
  lemma AcceptedUntilSettled(admitted: multiset<string>, tries: seq<Try>, accepted: set<string>,
                             laterAdmitted: multiset<string>, laterTries: seq<Try>, laterAccepted: set<string>,
                             k: string)
    requires Accounted(admitted, tries, accepted) && Accounted(laterAdmitted, laterTries, laterAccepted)
    requires admitted <= laterAdmitted && k in accepted && Settled(laterTries, k) == Settled(tries, k)
    ensures k in laterAccepted
  {
  }

  // ----- the runner -----

  /** What came in while a registration ran, the keys it could not finish, and whether the runner goes on. */
  datatype Answer = Answer(during: seq<Identity>, remaining: set<string>, goOn: bool)

  class PluginAPIKeyRunner {
    const maxPending: int
    const maxBytes: int
    var pending: Identities
    /** The identities of the loop's own batch, and of a batch that an ended loop has left behind. */
    var taken: Identities
    var accepted: set<string>
    var pendingBytes: int
    var windowOpen: bool
    var dropped: int
    /** Every admission of a key, and every attempt to register a batch, so far. */
    ghost var admitted: multiset<string>
    ghost var tries: seq<Try>

    function Value(): Books
      reads this
    {
      Books(pending, taken, accepted, pendingBytes)
    }

    ghost predicate Valid()
      reads this
    {
      && Sound(Value(), maxPending, maxBytes)
      && Accounted(admitted, tries, accepted)
      && 0 <= dropped && (pending.Keys != {} || dropped > 0 ==> windowOpen)
    }

    /** A batch of the running loop. */
    ghost predicate InFlight(batch: set<string>)
      reads this
    {
      |batch| <= BATCH_SIZE && forall k :: k in batch ==> k in taken
    }

    /** What has been taken is what an ended loop left behind and, apart from it, the running loop's batch. */
    ghost predicate TakenIs(stranded: set<string>, batch: set<string>)
      reads this
    {
      forall k :: (k in taken <==> k in stranded || k in batch) && !(k in stranded && k in batch)
    }

    /** Limits that are not positive are replaced by the defaults. */
    constructor (limit: int, byteLimit: int)
      ensures Valid() && accepted == {} && admitted == multiset{} && tries == []
      ensures maxPending == (if limit > 0 then limit else 10000)
      ensures maxBytes == (if byteLimit > 0 then byteLimit else 8 * 1024 * 1024)
    {
      maxPending := if limit > 0 then limit else PENDING_LIMIT;
      maxBytes := if byteLimit > 0 then byteLimit else BYTE_LIMIT;
      pending, taken, accepted, pendingBytes := map[], map[], {}, 0;
      windowOpen, dropped, admitted, tries := false, 0, multiset{}, [];
      assert Balanced(Books(map[], map[], {}, 0), []);
    }

    /** NotifyPluginAPIKeys: each identity is offered in turn, and the refusals are counted. */
    method NotifyPluginAPIKeys(identities: seq<Identity>)
      requires Valid()
      modifies this`pending, this`accepted, this`pendingBytes, this`dropped, this`windowOpen, this`admitted
      ensures Valid() && Value() == OfferAll(old(Value()), identities, maxPending, maxBytes)
      ensures dropped == old(dropped) + RefusedCount(old(Value()), identities, maxPending, maxBytes)
      ensures admitted == Admissions(old(admitted), old(accepted), accepted)
    {
      ghost var before := Value();
      EmptyNotice(before, admitted, maxPending, maxBytes);
      if |identities| == 0 {
        assert identities == [];
        return;
      }
      var b, refused := MergeAll(Value(), identities, maxPending, maxBytes);
      OfferAllMerges(before, identities, maxPending, maxBytes, identities);
      AdmissionAccounted(admitted, tries, accepted, b.accepted);
      Absorb(b, refused);
      assert Value() == b;
    }

    /** The books after a notification replace those before; the window opens when something waits or was refused. */
    method Absorb(b: Books, refused: int)
      modifies this`pending, this`accepted, this`pendingBytes, this`dropped, this`windowOpen, this`admitted
      ensures pending == b.pending && accepted == b.accepted && pendingBytes == b.bytes
      ensures dropped == old(dropped) + refused
      ensures windowOpen == (old(windowOpen) || pending.Keys != {} || dropped > 0)
      ensures admitted == Admissions(old(admitted), old(accepted), accepted)
    {
      admitted := Admissions(admitted, accepted, b.accepted);
      pending, accepted, pendingBytes, dropped := b.pending, b.accepted, b.bytes, dropped + refused;
      if !windowOpen && (pending.Keys != {} || dropped > 0) { windowOpen := true; }
    }

    /** The next batch is taken; the window closes only when nothing is left waiting. */
    method TakeBatch() returns (batch: set<string>)
      requires Valid()
      modifies this`pending, this`taken, this`dropped, this`windowOpen
      ensures Valid() && InFlight(batch) && TakenOut(old(Value()), Value(), batch) && dropped == 0
      ensures pending.Keys == {} || |batch| == BATCH_SIZE
      ensures windowOpen == (old(windowOpen) && pending.Keys != {})
    {
      var b;
      b, batch := FillBatch(Value(), maxPending, maxBytes);
      dropped := 0;
      pending, taken := b.pending, b.taken;
      if pending.Keys == {} { windowOpen := false; }
    }

    /** What the registration no longer returns is released; this is recorded as one attempt. */
    method Finish(batch: set<string>, remaining: set<string>)
      requires Valid() && InFlight(batch)
      modifies this`taken, this`accepted, this`pendingBytes, this`tries
      ensures Valid() && tries == old(tries) + [Try(batch, remaining)]
      ensures Released(old(Value()), Value(), batch - remaining)
    {
      PendingAccepted(Value(), maxPending, maxBytes);
      var b := ReleaseDone(Value(), batch - remaining, maxPending, maxBytes);
      TryAccounted(admitted, tries, accepted, b.accepted, Try(batch, remaining));
      tries := tries + [Try(batch, remaining)];
      taken, accepted, pendingBytes := b.taken, b.accepted, b.bytes;
    }

    /** The batch is offered to the registration while more notifications come in. */
    method Register(batch: set<string>, a: Answer) returns (left: set<string>)
      requires Valid() && InFlight(batch)
      modifies this`pending, this`taken, this`accepted, this`pendingBytes, this`dropped, this`windowOpen,
               this`admitted, this`tries
      ensures Valid() && InFlight(left) && left == batch * a.remaining
      ensures old(admitted) <= admitted && tries == old(tries) + [Try(batch, a.remaining)]
      ensures forall k :: k in taken <==> k in old(taken) && !(k in batch && k !in left)
      ensures ReleasedFrom(OfferAll(old(Value()), a.during, maxPending, maxBytes).accepted, accepted, batch,
              a.remaining)
    {
      NotifyPluginAPIKeys(a.during);
      Finish(batch, a.remaining);
      left := batch * a.remaining;
      SubsetSize(left, batch);
    }

    /** One turn of the loop: the batch in flight, or else the next one. */
    method Attempt(batch: set<string>, a: Answer) returns (left: set<string>, ghost tried: set<string>)
      requires Valid() && InFlight(batch)
      modifies this`pending, this`taken, this`accepted, this`pendingBytes, this`dropped, this`windowOpen,
               this`admitted, this`tries
      ensures Valid() && InFlight(left) && left == tried * a.remaining && |tried| <= BATCH_SIZE
      ensures old(admitted) <= admitted && tries == old(tries) + [Try(tried, a.remaining)]
      ensures if batch != {} then tried == batch else forall k :: k in tried ==> k in old(pending) && k !in old(taken)
      ensures batch == {} ==>
                (forall k :: k in tried ==> k in old(pending)) && (|tried| == 1000 || tried == old(pending).Keys)
      ensures ReleasedFrom(OfferAll(old(Value()), a.during, maxPending, maxBytes).accepted, accepted, tried,
              a.remaining)
      ensures forall k :: k in taken <==> k in left || (k in old(taken) && k !in batch)
    {
      PendingAccepted(Value(), maxPending, maxBytes);
      var next := batch;
      if batch == {} && (pending.Keys != {} || dropped > 0) { next := TakeBatch(); }
      tried := next;
      OffersAlike(old(Value()), Value(), a.during, maxPending, maxBytes);
      left := Register(next, a);
    }

    /** Notifications come in, then one attempt is made. */
    method Turn(batch: set<string>, a: Answer, notice: seq<Identity>, ghost stranded: set<string>)
      returns (left: set<string>, ghost tried: set<string>)
      requires Valid() && InFlight(batch) && TakenIs(stranded, batch)
      modifies this`pending, this`taken, this`accepted, this`pendingBytes, this`dropped, this`windowOpen,
               this`admitted, this`tries
      ensures Valid() && InFlight(left) && old(admitted) <= admitted && tries == old(tries) + [Try(tried, a.remaining)]
      ensures left == tried * a.remaining && |tried| <= BATCH_SIZE && (batch != {} ==> tried == batch)
      ensures Goes(old(Value()), notice, a, batch, tried, accepted, maxPending, maxBytes)
      ensures TakenIs(stranded, left)
    {
      OfferAllMerges(Value(), notice, maxPending, maxBytes, notice);
      NotifyPluginAPIKeys(notice);
      left, tried := Attempt(batch, a);
    }

    /**
      The registration loop, over any answers and with any notifications coming in between and during
      attempts. Each attempt returned what its answer says, so what leaves is what the answers finished.
     */
    method Run(answers: seq<Answer>, notices: seq<seq<Identity>>) returns (ghost stages: seq<Books>)
      requires Valid() && |notices| == |answers|
      modifies this
      ensures Staged(old(Value()), old(tries), stages, tries, answers, notices, maxPending, maxBytes)
      ensures stages[|stages| - 1] == Value()
      ensures Valid() && old(admitted) <= admitted && Answered(old(tries), tries, answers) && Retried(old(tries), tries)
      ensures forall k :: k in old(accepted) && Settled(tries, k) == Settled(old(tries), k) ==> k in accepted
      ensures TakenIs(old(taken).Keys, LastLeft(old(tries), tries))
    {
      ghost var p := Plan(Value(), tries, answers, notices, maxPending, maxBytes);
      var batch;
      stages, batch := RunLoop(answers, notices, p);
      ProgressGives(p, stages, tries, batch);
      forall k | k in old(accepted) && Settled(tries, k) == Settled(old(tries), k) ensures k in accepted {
        AcceptedUntilSettled(old(admitted), old(tries), old(accepted), admitted, tries, accepted, k);
      }
    }

    method RunLoop(answers: seq<Answer>, notices: seq<seq<Identity>>, ghost p: Plan)
      returns (ghost stages: seq<Books>, batch: set<string>)
      requires Valid() && |notices| == |answers|
      requires p == Plan(Value(), tries, answers, notices, maxPending, maxBytes)
      modifies this
      ensures Valid() && old(admitted) <= admitted && TakenIs(old(taken).Keys, batch)
      ensures Progress(p, stages, tries, batch) && stages != [] && stages[|stages| - 1] == Value()
      ensures EndedBy(answers, |stages| - 1)
    {
      batch := {};
      stages := [Value()];
      for n := 0 to |answers|
        invariant Valid() && InFlight(batch) && old(admitted) <= admitted
        invariant Progress(p, stages, tries, batch) && |stages| == n + 1 && stages[n] == Value()
        invariant TakenIs(old(taken).Keys, batch)
        invariant AllGoOn(answers, n)
      {
        ghost var before, held, tried := tries, batch, {};
        batch, tried := Turn(batch, answers[n], notices[n], old(taken).Keys);
        ProgressStep(p, stages, before, held, Try(tried, answers[n].remaining), Value());
        stages := stages + [Value()];
        GoesOn(answers, n);
        if !answers[n].goOn { return; }
      }
    }
  }

  /** The attempts after those of `before` returned what the answers say, one after the other. */
  ghost predicate Answered(before: seq<Try>, tries: seq<Try>, answers: seq<Answer>) {
    && |before| <= |tries| <= |before| + |answers| && before == tries[..|before|]
    && forall n :: |before| <= n < |tries| ==> tries[n].remaining == answers[n - |before|].remaining
  }

  /** after is before without the keys of the batch that did not remain. */
  ghost predicate ReleasedFrom(before: set<string>, after: set<string>, batch: set<string>, remaining: set<string>) {
    forall k :: k in after <==> k in before && !(k in batch && k !in remaining)
  }

  /**
    A turn from the books b: the notice is offered, the batch in flight or else as much as waits is tried, more
    keys come in meanwhile, and what the registration finished is released.
   */
  ghost predicate Goes(b: Books, notice: seq<Identity>, a: Answer, batch: set<string>, tried: set<string>,
                       after: set<string>, maxPending: int, maxBytes: int) {
    var offered := OfferAll(b, notice, maxPending, maxBytes);
    && (batch != {} ==> tried == batch)
    && (batch == {} ==> (forall k :: k in tried ==> k in offered.pending) &&
                        (|tried| == 1000 || tried == offered.pending.Keys))
    && ReleasedFrom(OfferAll(offered, a.during, maxPending, maxBytes).accepted, after, tried, a.remaining)
  }

  /** The books before and after every turn; the loop ends early only when an answer says so. */
  ghost predicate Staged(start: Books, before: seq<Try>, stages: seq<Books>, tries: seq<Try>, answers: seq<Answer>,
                         notices: seq<seq<Identity>>, maxPending: int, maxBytes: int) {
    && StagesSoFar(start, before, stages, tries, answers, notices, maxPending, maxBytes)
    && EndedBy(answers, |stages| - 1)
  }

  ghost predicate StagesSoFar(start: Books, before: seq<Try>, stages: seq<Books>, tries: seq<Try>, answers: seq<Answer>,
                              notices: seq<seq<Identity>>, maxPending: int, maxBytes: int) {
    && |stages| == |tries| - |before| + 1 && 1 <= |stages| <= |answers| + 1 && |notices| == |answers|
        && stages[0] == start
    && (forall n :: 0 <= n < |stages| - 1 ==>
          Goes(stages[n], notices[n], answers[n], LastLeft(before, tries[..|before| + n]), tries[|before| + n].batch,
               stages[n + 1].accepted, maxPending, maxBytes))
  }

  lemma StageStep(start: Books, before: seq<Try>, stages: seq<Books>, tries: seq<Try>, answers: seq<Answer>,
                  notices: seq<seq<Identity>>, maxPending: int, maxBytes: int, t: Try, b: Books, batch: set<string>)
    requires StagesSoFar(start, before, stages, tries, answers, notices, maxPending, maxBytes)
    requires |stages| <= |answers| && batch == LastLeft(before, tries)
    requires Goes(stages[|stages| - 1], notices[|stages| - 1], answers[|stages| - 1], batch, t.batch, b.accepted,
                  maxPending, maxBytes)
    ensures StagesSoFar(start, before, stages + [b], tries + [t], answers, notices, maxPending, maxBytes)
  {
    var m, more := |stages| - 1, tries + [t];
    assert more[..|before| + m] == tries;
    assert forall n {:trigger more[..|before| + n]} :: 0 <= n < m ==> more[..|before| + n] == tries[..|before| + n];
  }

  /** What an attempt left in flight. */
  function Left(t: Try): set<string> { t.batch * t.remaining }

  /** What the newest attempt since `before` left in flight. */
  function LastLeft(before: seq<Try>, tries: seq<Try>): set<string> {
    if |tries| > |before| then Left(tries[|tries| - 1]) else {}
  }

  /** A batch is never over-full, and what one attempt left is the whole of the next. */
  ghost predicate Retried(before: seq<Try>, tries: seq<Try>) {
    && |before| <= |tries|
    && (forall n :: |before| <= n < |tries| ==> |tries[n].batch| <= BATCH_SIZE)
    && (forall n :: |before| < n < |tries| && Left(tries[n - 1]) != {} ==> tries[n].batch == Left(tries[n - 1]))
  }

  /** Where a run begins, and what will come in. */
  datatype Plan = Plan(start: Books, before: seq<Try>, answers: seq<Answer>, notices: seq<seq<Identity>>,
                       maxPending: int, maxBytes: int)

  /** The attempts so far follow the answers, the books follow the turns, and the batch is what the newest one left. */
  ghost predicate Progress(p: Plan, stages: seq<Books>, tries: seq<Try>, batch: set<string>) {
    match p
    case Plan(start, before, answers, notices, maxPending, maxBytes) =>
      && Answered(before, tries, answers) && Retried(before, tries) && batch == LastLeft(before, tries)
      && StagesSoFar(start, before, stages, tries, answers, notices, maxPending, maxBytes)
  }

  /** The loop went through n turns: all of them, or up to the one that ended it. */
  predicate EndedBy(answers: seq<Answer>, n: int) {
    0 <= n <= |answers| && AllGoOn(answers, n - 1) && (n < |answers| ==> n > 0 && !answers[n - 1].goOn)
  }

  predicate AllGoOn(answers: seq<Answer>, n: int) { forall i :: 0 <= i < n && i < |answers| ==> answers[i].goOn }

  lemma GoesOn(answers: seq<Answer>, n: int)
    requires 0 <= n < |answers| && AllGoOn(answers, n)
    ensures if answers[n].goOn then AllGoOn(answers, n + 1) && AllGoOn(answers, n) else EndedBy(answers, n + 1)
  {
  }

  lemma ProgressGives(p: Plan, stages: seq<Books>, tries: seq<Try>, batch: set<string>)
    requires Progress(p, stages, tries, batch) && EndedBy(p.answers, |stages| - 1)
    ensures Answered(p.before, tries, p.answers) && Retried(p.before, tries) && batch == LastLeft(p.before, tries)
    ensures Staged(p.start, p.before, stages, tries, p.answers, p.notices, p.maxPending, p.maxBytes)
  {
  }

  lemma ProgressStep(p: Plan, stages: seq<Books>, tries: seq<Try>, batch: set<string>, t: Try, b: Books)
    requires Progress(p, stages, tries, batch) && |stages| <= |p.answers|
    requires t.remaining == p.answers[|stages| - 1].remaining
    requires |t.batch| <= BATCH_SIZE && (batch != {} ==> t.batch == batch)
    requires Goes(stages[|stages| - 1], p.notices[|stages| - 1], p.answers[|stages| - 1], batch, t.batch, b.accepted,
                  p.maxPending, p.maxBytes)
    ensures Progress(p, stages + [b], tries + [t], Left(t))
  {
    StageStep(p.start, p.before, stages, tries, p.answers, p.notices, p.maxPending, p.maxBytes, t, b, batch);
    AttemptStep(p.before, tries, p.answers, batch, t);
  }

  lemma AttemptStep(before: seq<Try>, tries: seq<Try>, answers: seq<Answer>, batch: set<string>, t: Try)
    requires Answered(before, tries, answers) && Retried(before, tries) && batch == LastLeft(before, tries)
    requires |tries| < |before| + |answers| && t.remaining == answers[|tries| - |before|].remaining
    requires |t.batch| <= BATCH_SIZE && (batch != {} ==> t.batch == batch)
    ensures Answered(before, tries + [t], answers) && Retried(before, tries + [t])
            && LastLeft(before, tries + [t]) == Left(t)
  {
  }

  lemma EmptyNotice(b: Books, admitted: multiset<string>, maxPending: int, maxBytes: int)
    ensures OfferAll(b, [], maxPending, maxBytes) == b && RefusedCount(b, [], maxPending, maxBytes) == 0
    ensures Admissions(admitted, b.accepted, b.accepted) == admitted
  {
  }

  lemma SubsetSize(a: set<string>, b: set<string>)
    requires forall k :: k in a ==> k in b
    ensures |a| <= |b|
  {
    assert b == a + (b - a);
  }
}
