/** Lock targets, the commands a request sends, and what they do in the database. */
module LockRequest {
  import opened Redis
  import opened Scripts
  import opened TtlText
  import opened ScriptServer
  import opened LockTable

  datatype LockTarget =
    | Single(key: Key)
    | Multiple(keys: seq<Key>)
    | SingleRead(key: Key)
    | SingleWrite(key: Key)
    | MultipleRead(keys: seq<Key>)
    | MultipleWrite(keys: seq<Key>)
  {
    function Keys(): seq<Key> {
      if Single? || SingleRead? || SingleWrite? then [key] else keys
    }

    function Mode(): Mode {
      match this
      case Single(_) | Multiple(_) => Mutex
      case SingleRead(_) | MultipleRead(_) => Read
      case SingleWrite(_) | MultipleWrite(_) => Write
    }
  }

  datatype Request = Request(target: LockTarget, token: Token) {
    function Owner(): Owner { Redis.Owner(target.Mode(), token) }
  }

  /** The effect of a command at the server; the acquisition of a single mutex is SET NX PX. */
  function Perform(db: Db, r: Request, op: Op, ttl: nat, now: int): (Reply, Db) {
    match op
    case Release => GiveUp(db, r.target.Keys(), r.Owner(), now)
    case Renew => Attempt(db, r.target.Keys(), op, r.Owner(), ttl, now)
    case Acquire =>
      if r.target.Single? then
        var (wasSet, after) := SetNxPx(db, r.target.key, r.token, ttl, now);
        (Done(wasSet), after)
      else
        Attempt(db, r.target.Keys(), op, r.Owner(), ttl, now)
  }

  // ----- what a request means, target by target -----

  /** The lock that is asked for covers this key. */
  predicate Names(t: LockTarget, k: Key) {
    match t
    case Single(key) => key == k
    case Multiple(keys) => k in keys
    case SingleRead(key) => key == k
    case SingleWrite(key) => key == k
    case MultipleRead(keys) => k in keys
    case MultipleWrite(keys) => k in keys
  }

  /** It is a shared lock. */
  predicate IsReader(t: LockTarget) {
    match t
    case SingleRead(_) | MultipleRead(_) => true
    case Single(_) | Multiple(_) | SingleWrite(_) | MultipleWrite(_) => false
  }

  /** What the lock looks like in Redis: a string for a mutex, a positive expiry for a reader, a negative one for a
      writer. */
  predicate Stores(t: LockTarget, token: Token, e: Option<Entry>, expiry: int) {
    e.Some? && match t
    case Single(_) | Multiple(_) => e.value == Entry(Str(token), Some(expiry))
    case SingleRead(_) | MultipleRead(_) =>
      && Redis.Owner(Read, token) in Scores(e) && Scores(e)[Redis.Owner(Read, token)] == expiry
      && e.value.deadline.Some? && e.value.deadline.value >= expiry
    case SingleWrite(_) | MultipleWrite(_) =>
      && Redis.Owner(Write, token) in Scores(e) && Scores(e)[Redis.Owner(Write, token)] == -expiry
      && e.value.deadline == Some(expiry)
  }

  /** Nothing of the lock is left. */
  predicate StoresNothing(t: LockTarget, token: Token, e: Option<Entry>) {
    match t
    case Single(_) | Multiple(_) => e.Some? ==> e.value.value != Str(token)
    case SingleRead(_) | MultipleRead(_) => Redis.Owner(Read, token) !in Scores(e)
    case SingleWrite(_) | MultipleWrite(_) => Redis.Owner(Write, token) !in Scores(e)
  }

  lemma GrantStores(db: Db, r: Request, op: Op, ttl: nat, now: int, k: Key)
    requires !op.Release? && Names(r.target, k) && Perform(db, r, op, ttl, now).0 == Done(true)
    ensures Stores(r.target, r.token, At(Perform(db, r, op, ttl, now).1, k), now + ttl)
  {
    if r.target.Single? && op.Acquire? {
      FastPath(db, r.target.key, r.token, ttl, now);
    }
    RewriteAt(db, r.target.Keys(), Claim(r.Owner(), ttl), now, k);
  }

  lemma ReleaseStoresNothing(db: Db, r: Request, now: int, k: Key)
    requires Names(r.target, k)
    ensures StoresNothing(r.target, r.token, Get(Perform(db, r, Release, 0, now).1, k, now))
  {
    ReleaseIsExact(db, r.target.Keys(), r.Owner(), now, k);
  }

  lemma GrantsStore(db: Db, r: Request, op: Op, ttl: nat, now: int)
    requires !op.Release?
    ensures Perform(db, r, op, ttl, now).0 == Done(true) ==>
              forall k :: Names(r.target, k) ==>
                Stores(r.target, r.token, At(Perform(db, r, op, ttl, now).1, k), now + ttl)
  {
    if Perform(db, r, op, ttl, now).0 == Done(true) {
      forall k | Names(r.target, k)
        ensures Stores(r.target, r.token, At(Perform(db, r, op, ttl, now).1, k), now + ttl)
      {
        GrantStores(db, r, op, ttl, now, k);
      }
    }
  }

  lemma ReleasesStoreNothing(db: Db, r: Request, now: int)
    ensures forall k :: Names(r.target, k) ==>
              StoresNothing(r.target, r.token, Get(Perform(db, r, Release, 0, now).1, k, now))
  {
    forall k | Names(r.target, k)
      ensures StoresNothing(r.target, r.token, Get(Perform(db, r, Release, 0, now).1, k, now))
    {
      ReleaseStoresNothing(db, r, now, k);
    }
  }

  // ----- the commands, sent to a server -----

  /** The TTL travels as decimal text. */
  method AcquireLock(server: Server, r: Request, ttl: nat) returns (reply: Reply)
    requires 1 <= ttl <= MAX_EXACT
    modifies server`db
    ensures (reply, server.db) == Perform(old(server.db), r, Acquire, ttl, server.Now())
    ensures reply == Done(true) ==>
              forall k :: Names(r.target, k) ==> Stores(r.target, r.token, At(server.db, k), server.Now() + ttl)
  {
    GrantsStore(server.db, r, Acquire, ttl, server.Now());
    TtlRoundTrip(ttl);
    if r.target.Single? {
      var (wasSet, after) := SetNxPx(server.db, r.target.key, r.token, ttl, server.Now());
      server.db := after;
      return Done(wasSet);
    }
    var raw := Some(Decimal(ttl));
    match r.target.Mode() {
      case Mutex => reply := server.AcquireMutex(r.target.Keys(), r.token, raw);
      case Read => reply := server.AcquireRead(r.target.Keys(), r.token, raw);
      case Write => reply := server.AcquireWrite(r.target.Keys(), r.token, raw);
    }
  }

  method RenewLock(server: Server, r: Request, ttl: nat) returns (reply: Reply)
    requires 1 <= ttl <= MAX_EXACT
    modifies server`db
    ensures (reply, server.db) == Perform(old(server.db), r, Renew, ttl, server.Now())
    ensures reply == Done(true) ==>
              forall k :: Names(r.target, k) ==> Stores(r.target, r.token, At(server.db, k), server.Now() + ttl)
  {
    GrantsStore(server.db, r, Renew, ttl, server.Now());
    TtlRoundTrip(ttl);
    var raw := Some(Decimal(ttl));
    match r.target.Mode() {
      case Mutex => reply := server.RenewMutex(r.target.Keys(), r.token, raw);
      case Read => reply := server.RenewRead(r.target.Keys(), r.token, raw);
      case Write => reply := server.RenewWrite(r.target.Keys(), r.token, raw);
    }
  }

  method ReleaseLock(server: Server, r: Request) returns (reply: Reply)
    modifies server`db
    ensures (reply, server.db) == Perform(old(server.db), r, Release, 0, server.Now())
    ensures forall k :: Names(r.target, k) ==> StoresNothing(r.target, r.token, Get(server.db, k, server.Now()))
  {
    ReleasesStoreNothing(server.db, r, server.Now());
    match r.target.Mode() {
      case Mutex => reply := server.ReleaseMutex(r.target.Keys(), r.token);
      case Read => reply := server.ReleaseRead(r.target.Keys(), r.token);
      case Write => reply := server.ReleaseWrite(r.target.Keys(), r.token);
    }
  }
}
