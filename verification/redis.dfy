/** The part of a Redis server that the lock scripts use: keys holding a string or a sorted set,
    key deadlines, and the commands the scripts call.  Time is Redis's millisecond clock.

    A key is gone as soon as its deadline lies in the past.  Reads only look through lapsed keys;
    a write replaces or deletes them.  Deleting a lapsed key at any other moment is `Evict`. */
module Redis {
  datatype Option<+T> = None | Some(value: T)

  type Key = string
  type Token = string

  datatype Mode = Mutex | Read | Write

  /** `Owner(Read, t)` is the sorted-set member "r:t", `Owner(Write, t)` the member "w:t". */
  datatype Owner = Owner(mode: Mode, token: Token)

  datatype Value = Str(token: Token) | ZSet(scores: map<Owner, int>)
  datatype Entry = Entry(value: Value, deadline: Option<int>)
  type Db = map<Key, Entry>

  datatype Kind = NoKey | StringKey | ZSetKey

  function Abs(x: int): nat { if x < 0 then -x else x }

  // ----- keys -----

  /** What is physically stored at a key, lapsed or not. */
  function At(db: Db, k: Key): Option<Entry> {
    if k in db then Some(db[k]) else None
  }

  predicate Lapsed(e: Entry, now: int) {
    e.deadline.Some? && now > e.deadline.value
  }

  function Visible(e: Option<Entry>, now: int): Option<Entry> {
    if e.Some? && !Lapsed(e.value, now) then e else None
  }

  /** What a command sees at a key. */
  function Get(db: Db, k: Key, now: int): Option<Entry> {
    Visible(At(db, k), now)
  }

  function Put(db: Db, k: Key, e: Option<Entry>): Db {
    if e.Some? then db[k := e.value] else db - {k}
  }

  /** The expiry cycle, or a lazy expiry, deletes a lapsed key. */
  function Evict(db: Db, k: Key, now: int): Db {
    Put(db, k, Get(db, k, now))
  }

  lemma SameEverywhere(a: Db, b: Db)
    requires forall k :: At(a, k) == At(b, k)
    ensures a == b
  {
    forall k ensures k in a <==> k in b {
      assert At(a, k) == At(b, k);
    }
    forall k | k in a ensures a[k] == b[k] {
      assert At(a, k) == At(b, k);
    }
  }

  // ----- commands -----

  function TypeOf(db: Db, k: Key, now: int): Kind {
    match Get(db, k, now)
    case None => NoKey
    case Some(Entry(Str(_), _)) => StringKey
    case Some(Entry(ZSet(_), _)) => ZSetKey
  }

  /** SET key token PX ttl */
  function SetPx(db: Db, k: Key, t: Token, ttl: int, now: int): Db {
    Put(db, k, Some(Entry(Str(t), Some(now + ttl))))
  }

  /** SET key token NX PX ttl: the flag says whether the key was set. */
  function SetNxPx(db: Db, k: Key, t: Token, ttl: int, now: int): (bool, Db) {
    if Get(db, k, now).Some? then (false, db) else (true, SetPx(db, k, t, ttl, now))
  }

  /** DEL key: the number of deleted keys. */
  function Del(db: Db, k: Key, now: int): (nat, Db) {
    (if Get(db, k, now).Some? then 1 else 0, db - {k})
  }

  function PTtl(db: Db, k: Key, now: int): int {
    match Get(db, k, now)
    case None => -2
    case Some(Entry(_, None)) => -1
    case Some(Entry(_, Some(d))) => d - now
  }

  function PExpire(db: Db, k: Key, ttl: int, now: int): Db {
    match Get(db, k, now)
    case None => db - {k}
    case Some(e) => Put(db, k, Some(e.(deadline := Some(now + ttl))))
  }

  /** The members of a sorted set; a missing key is the empty set. */
  function Scores(e: Option<Entry>): map<Owner, int> {
    if e.Some? && e.value.value.ZSet? then e.value.value.scores else map[]
  }

  /** A sorted set that becomes empty disappears together with its deadline. */
  function Stored(scores: map<Owner, int>, deadline: Option<int>): Option<Entry> {
    if scores == map[] then None else Some(Entry(ZSet(scores), deadline))
  }

  function DeadlineOf(e: Option<Entry>): Option<int> {
    if e.Some? then e.value.deadline else None
  }

  function Outside(scores: map<Owner, int>, lo: int, hi: int): map<Owner, int> {
    map o | o in scores && !(lo <= scores[o] <= hi) :: scores[o]
  }

  function ZRemRangeByScore(db: Db, k: Key, lo: int, hi: int, now: int): Db
    requires !TypeOf(db, k, now).StringKey?
  {
    var e := Get(db, k, now);
    Put(db, k, Stored(Outside(Scores(e), lo, hi), DeadlineOf(e)))
  }

  /** ZCOUNT key -inf (0 */
  function ZCountNegative(db: Db, k: Key, now: int): nat
    requires !TypeOf(db, k, now).StringKey?
  {
    var scores := Scores(Get(db, k, now));
    |set o | o in scores && scores[o] < 0|
  }

  function ZCard(db: Db, k: Key, now: int): nat
    requires !TypeOf(db, k, now).StringKey?
  {
    |Scores(Get(db, k, now))|
  }

  function ZScore(db: Db, k: Key, o: Owner, now: int): Option<int>
    requires !TypeOf(db, k, now).StringKey?
  {
    var scores := Scores(Get(db, k, now));
    if o in scores then Some(scores[o]) else None
  }

  /** ZADD sets no deadline on a key it creates, and keeps the deadline of one that exists. */
  function ZAdd(db: Db, k: Key, score: int, o: Owner, now: int): Db
    requires !TypeOf(db, k, now).StringKey?
  {
    var e := Get(db, k, now);
    Put(db, k, Some(Entry(ZSet(Scores(e)[o := score]), DeadlineOf(e))))
  }

  /** ZREM key member: the number of removed members. */
  function ZRem(db: Db, k: Key, o: Owner, now: int): (nat, Db)
    requires !TypeOf(db, k, now).StringKey?
  {
    var e := Get(db, k, now);
    if o in Scores(e) then (1, Put(db, k, Stored(Scores(e) - {o}, DeadlineOf(e)))) else (0, db)
  }
}
