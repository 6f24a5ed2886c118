/** What the nine lock scripts do to a database, as functions on one key at a time.
    `Server` runs the scripts themselves, command by command, against these functions. */
module Scripts {
  import opened Redis

  datatype Op = Acquire | Renew | Release
  datatype ScriptError = BadTtl | TtlRange | ExpiryRange | WrongType
  datatype Reply = Done(ok: bool) | Failed(error: ScriptError)

  /** The largest integer below which every integer is exact in Lua: 2^53 - 1. */
  const MAX_EXACT: int := 9007199254740991

  // ----- one key -----

  /** Cleanup: members whose expiry is not in the future go away. */
  function Swept(e: Option<Entry>, now: int): Option<Entry> {
    if e.Some? && e.value.value.ZSet?
    then Stored(Outside(e.value.value.scores, -now, now), e.value.deadline)
    else e
  }

  /** The first pass's test of one key, on what the pass sees there. */
  predicate Admits(op: Op, o: Owner, e: Option<Entry>, now: int) {
    match (op, o.mode)
    case (Acquire, Read) => forall m :: m in Scores(e) ==> Scores(e)[m] >= 0
    case (Acquire, Write) => Scores(e) == map[]
    case (Acquire, Mutex) => e.None?
    case (_, Read) => o in Scores(e) && Scores(e)[o] > now
    case (_, Write) => o in Scores(e) && Scores(e)[o] < -now
    case (_, Mutex) => e.Some? && e.value.value == Str(o.token)
  }

  /** The second pass's effect on one key: a reader only ever extends the key's deadline. */
  function Claimed(o: Owner, ttl: int, e: Option<Entry>, now: int): Entry {
    match o.mode
    case Mutex => Entry(Str(o.token), Some(now + ttl))
    case Read =>
      Entry(ZSet(Scores(e)[o := now + ttl]),
            if DeadlineOf(e).Some? && DeadlineOf(e).value - now >= ttl then DeadlineOf(e) else Some(now + ttl))
    case Write => Entry(ZSet(Scores(e)[o := -(now + ttl)]), Some(now + ttl))
  }

  /** A release script's effect on one key. */
  function Yielded(o: Owner, e: Option<Entry>): Option<Entry> {
    match e
    case None => None
    case Some(Entry(Str(t), _)) => if o == Owner(Mutex, t) then None else e
    case Some(Entry(ZSet(scores), d)) => if o.mode.Mutex? || o !in scores then e else Stored(scores - {o}, d)
  }

  predicate Owns(e: Option<Entry>, o: Owner) {
    e.Some? && match e.value.value
    case Str(t) => o == Owner(Mutex, t)
    case ZSet(scores) => !o.mode.Mutex? && o in scores
  }

  datatype Plan = Sweep | Claim(o: Owner, ttl: int) | Yield(o: Owner)

  function Planned(p: Plan, raw: Option<Entry>, now: int): Option<Entry> {
    match p
    case Sweep => Swept(Visible(raw, now), now)
    case Claim(o, ttl) => Some(Claimed(o, ttl, Swept(Visible(raw, now), now), now))
    case Yield(o) => if Visible(raw, now).Some? then Yielded(o, raw) else raw
  }

  // ----- many keys -----

  predicate Distinct(keys: seq<Key>) { forall i, j :: 0 <= i < j < |keys| ==> keys[i] != keys[j] }

  function NewAt(db: Db, k: Key, ks: seq<Key>, p: Plan, now: int): Option<Entry> {
    if k in ks then Planned(p, At(db, k), now) else At(db, k)
  }

  /** Every key of `ks` changes according to the plan, no other key changes. */
  function Rewrite(db: Db, ks: seq<Key>, p: Plan, now: int): Db {
    map k | k in db.Keys + (set x | x in ks) && NewAt(db, k, ks, p, now).Some? :: NewAt(db, k, ks, p, now).value
  }

  lemma RewriteAt(db: Db, ks: seq<Key>, p: Plan, now: int, k: Key)
    ensures At(Rewrite(db, ks, p, now), k) == NewAt(db, k, ks, p, now)
  {
  }

  /** What the first pass sees at a key: read-write scripts have just cleaned it. */
  function Seen(db: Db, k: Key, mode: Mode, now: int): Option<Entry> {
    if mode.Mutex? then Get(db, k, now) else Swept(Get(db, k, now), now)
  }

  /** The position of the first key that stops the first pass. */
  function FirstRefusal(db: Db, keys: seq<Key>, op: Op, o: Owner, now: int): (n: nat)
    ensures n <= |keys|
  {
    if keys == [] || !Admits(op, o, Seen(db, keys[0], o.mode, now), now) then 0
    else 1 + FirstRefusal(db, keys[1..], op, o, now)
  }

  /** Every key before the first refusal is admitted, and that one is not. */
  lemma {:induction false} RefusalAt(db: Db, keys: seq<Key>, op: Op, o: Owner, now: int, i: nat)
    requires i < |keys| && i <= FirstRefusal(db, keys, op, o, now)
    ensures Admits(op, o, Seen(db, keys[i], o.mode, now), now) <==> i < FirstRefusal(db, keys, op, o, now)
  {
    if i > 0 {
      RefusalAt(db, keys[1..], op, o, now, i - 1);
    }
  }

  function RwRefusal(db: Db, keys: seq<Key>, ttl: int, now: int): Option<ScriptError> {
    if now < 0 || now > MAX_EXACT || ttl > MAX_EXACT - now then Some(ExpiryRange)
    else if exists k :: k in keys && TypeOf(db, k, now).StringKey? then Some(WrongType)
    else None
  }

  /** The six acquire and renew scripts, after the TTL preflight. */
  function Attempt(db: Db, keys: seq<Key>, op: Op, o: Owner, ttl: int, now: int): (Reply, Db) {
    var refusal := if o.mode.Mutex? then None else RwRefusal(db, keys, ttl, now);
    var n := FirstRefusal(db, keys, op, o, now);
    if refusal.Some? then (Failed(refusal.value), db)
    else if n == |keys| then (Done(true), Rewrite(db, keys, Claim(o, ttl), now))
    else if !o.mode.Mutex? then (Done(false), Rewrite(db, keys[..n + 1], Sweep, now))
    else if op.Renew? && TypeOf(db, keys[n], now).ZSetKey? then (Failed(WrongType), db)
    else (Done(false), db)
  }

  /** The three release scripts: the count reaches #KEYS iff no key repeats and each is still owned. */
  function GiveUp(db: Db, keys: seq<Key>, o: Owner, now: int): (Reply, Db) {
    (Done(Distinct(keys) && forall k :: k in keys ==> Owns(Get(db, k, now), o)),
     Rewrite(db, keys, Yield(o), now))
  }

  // ----- how the passes compose -----

  lemma SweptTwice(e: Option<Entry>, now: int)
    ensures Swept(Swept(e, now), now) == Swept(e, now)
    ensures Visible(Swept(Visible(e, now), now), now) == Swept(Visible(e, now), now)
  {
    if e.Some? && e.value.value.ZSet? {
      var s := Outside(e.value.value.scores, -now, now);
      assert Outside(s, -now, now) == s;
    }
  }

  /** Nothing the script has just written is due for cleanup or expiry. */
  lemma ClaimStays(o: Owner, ttl: int, e: Option<Entry>, now: int)
    requires ttl > 0 && now >= 0 && Swept(e, now) == e
    ensures Swept(Visible(Some(Claimed(o, ttl, e, now)), now), now) == Some(Claimed(o, ttl, e, now))
  {
    if !o.mode.Mutex? {
      var s := Scores(Some(Claimed(o, ttl, e, now)));
      assert o in s;
      forall m | m in s ensures !(-now <= s[m] <= now) {
        assert m == o || m in Scores(e);
        assert e.Some? ==> Scores(e) == Outside(Scores(e), -now, now) || Scores(e) == map[];
      }
      assert Outside(s, -now, now) == s;
    }
  }

  lemma ClaimTwice(o: Owner, ttl: int, e: Option<Entry>, now: int)
    requires ttl > 0
    ensures Claimed(o, ttl, Some(Claimed(o, ttl, e, now)), now) == Claimed(o, ttl, e, now)
  {
    if !o.mode.Mutex? {
      var s := Scores(Some(Claimed(o, ttl, e, now)));
      assert s[o := s[o]] == s;
    }
  }

  lemma PlannedTwice(p: Plan, raw: Option<Entry>, now: int)
    requires p.Claim? ==> p.ttl > 0 && now >= 0
    ensures Planned(p, Planned(p, raw, now), now) == Planned(p, raw, now)
  {
    match p
    case Sweep => SweptTwice(raw, now);
    case Claim(o, ttl) =>
      var e := Swept(Visible(raw, now), now);
      SweptTwice(Visible(raw, now), now);
      SweptTwice(raw, now);
      ClaimStays(o, ttl, e, now);
      ClaimTwice(o, ttl, e, now);
    case Yield(o) => YieldTwice(o, raw);
  }

  lemma YieldTwice(o: Owner, e: Option<Entry>)
    ensures Yielded(o, Yielded(o, e)) == Yielded(o, e)
  {
    if e.Some? && e.value.value.ZSet? {
      assert e.value.value.scores - {o} - {o} == e.value.value.scores - {o};
    }
  }

  lemma RewriteMore(db: Db, keys: seq<Key>, i: nat, p: Plan, now: int)
    requires i < |keys|
    requires p.Claim? ==> p.ttl > 0 && now >= 0
    ensures var r := Rewrite(db, keys[..i], p, now);
            Put(r, keys[i], Planned(p, At(r, keys[i]), now)) == Rewrite(db, keys[..i + 1], p, now)
  {
    var k := keys[i];
    var r := Rewrite(db, keys[..i], p, now);
    var more := Put(r, k, Planned(p, At(r, k), now));
    PlannedTwice(p, At(db, k), now);
    assert keys[..i + 1] == keys[..i] + [k];
    forall x ensures At(more, x) == At(Rewrite(db, keys[..i + 1], p, now), x) {
      RewriteAt(db, keys[..i], p, now, x);
      RewriteAt(db, keys[..i + 1], p, now, x);
    }
    SameEverywhere(more, Rewrite(db, keys[..i + 1], p, now));
  }

  lemma RewriteNone(db: Db, p: Plan, now: int)
    ensures Rewrite(db, [], p, now) == db
  {
    SameEverywhere(Rewrite(db, [], p, now), db);
  }

  /** Cleaning every key first and claiming it afterwards is claiming it. */
  lemma SweepThenClaim(db: Db, ks: seq<Key>, o: Owner, ttl: int, now: int)
    ensures Rewrite(Rewrite(db, ks, Sweep, now), ks, Claim(o, ttl), now) == Rewrite(db, ks, Claim(o, ttl), now)
  {
    var swept := Rewrite(db, ks, Sweep, now);
    forall k ensures At(Rewrite(swept, ks, Claim(o, ttl), now), k) == At(Rewrite(db, ks, Claim(o, ttl), now), k) {
      SweptTwice(At(db, k), now);
      SweptTwice(Visible(At(db, k), now), now);
      RewriteAt(db, ks, Sweep, now, k);
    }
    SameEverywhere(Rewrite(swept, ks, Claim(o, ttl), now), Rewrite(db, ks, Claim(o, ttl), now));
  }
}
