/** Why the scripts implement locks: the invariant of the stored data, and the plain table of live
    holders that every script refines. */
module LockTable {
  import opened Redis
  import opened Scripts

  // ----- the representation invariant -----

  /** Readers are stored with a positive expiry, writers with a negative one,
      and the key outlives each of them. */
  predicate ScoreOk(o: Owner, score: int, deadline: int) {
    match o.mode
    case Mutex => false
    case Read => 0 < score <= deadline
    case Write => 0 < -score <= deadline
  }

  /** A sorted set holds readers only or one single writer, expired members included. */
  predicate EntryOk(e: Entry) {
    && e.deadline.Some?
    && match e.value
       case Str(_) => true
       case ZSet(scores) =>
         && scores != map[]
         && (forall o :: o in scores ==> ScoreOk(o, scores[o], e.deadline.value))
         && (forall o, p :: o in scores && p in scores && o.mode.Write? ==> p == o)
  }

  predicate SlotOk(e: Option<Entry>) {
    e.Some? ==> EntryOk(e.value)
  }

  ghost predicate Sound(db: Db) {
    forall k {:trigger SlotOk(At(db, k))} :: SlotOk(At(db, k))
  }

  lemma SweptOk(e: Option<Entry>, now: int)
    requires SlotOk(e)
    ensures SlotOk(Swept(e, now))
  {
  }

  /** A claim that the first pass admits keeps a key in shape. */
  lemma ClaimedOk(op: Op, o: Owner, ttl: int, e: Option<Entry>, now: int)
    requires SlotOk(e) && ttl > 0 && now >= 0
    requires !op.Release? && Admits(op, o, e, now)
    requires !o.mode.Mutex? && e.Some? ==> e.value.value.ZSet?
    ensures EntryOk(Claimed(o, ttl, e, now))
  {
    if !o.mode.Mutex? {
      var scores := Scores(e);
      var after := Scores(Some(Claimed(o, ttl, e, now)));
      assert o in after;
      if o.mode.Read? {
        forall m | m in scores ensures m.mode.Read? {
          if op.Renew? && m.mode.Write? {
            assert o == m;
          }
        }
      }
    }
  }

  lemma YieldedOk(o: Owner, e: Option<Entry>)
    requires SlotOk(e)
    ensures SlotOk(Yielded(o, e))
  {
  }

  /** What an acquire or renew script can do to one key. */
  datatype Effect = Kept | Cleaned | Granted

  /** The effect of `Attempt` on a key, together with what the first pass found there. */
  lemma EffectAt(db: Db, keys: seq<Key>, op: Op, o: Owner, ttl: int, now: int, k: Key) returns (effect: Effect)
    ensures var (r, after) := Attempt(db, keys, op, o, ttl, now);
            match effect
            case Kept => At(after, k) == At(db, k) && !(r == Done(true) && k in keys)
            case Cleaned => At(after, k) == Planned(Sweep, At(db, k), now) && !o.mode.Mutex? && r == Done(false)
            case Granted =>
              && r == Done(true) && k in keys
              && At(after, k) == Planned(Claim(o, ttl), At(db, k), now)
              && Admits(op, o, Seen(db, k, o.mode, now), now)
              && (!o.mode.Mutex? ==> !TypeOf(db, k, now).StringKey?)
  {
    var (r, after) := Attempt(db, keys, op, o, ttl, now);
    var n := FirstRefusal(db, keys, op, o, now);
    effect := Kept;
    if r == Done(true) {
      RewriteAt(db, keys, Claim(o, ttl), now, k);
      if k in keys {
        var i :| 0 <= i < |keys| && keys[i] == k;
        RefusalAt(db, keys, op, o, now, i);
        effect := Granted;
      }
    } else if r == Done(false) && !o.mode.Mutex? {
      RewriteAt(db, keys[..n + 1], Sweep, now, k);
      effect := if k in keys[..n + 1] then Cleaned else Kept;
    }
  }

  /** Every script keeps the invariant, from whatever clock value and on whatever keys. */
  lemma AttemptSound(db: Db, keys: seq<Key>, op: Op, o: Owner, ttl: int, now: int)
    requires Sound(db) && !op.Release? && ttl > 0 && now >= 0
    ensures Sound(Attempt(db, keys, op, o, ttl, now).1)
  {
    forall k ensures SlotOk(At(Attempt(db, keys, op, o, ttl, now).1, k)) {
      assert SlotOk(At(db, k));
      var effect := EffectAt(db, keys, op, o, ttl, now, k);
      var seen := Swept(Visible(At(db, k), now), now);
      SweptOk(Visible(At(db, k), now), now);
      if effect.Granted? {
        ClaimedOk(op, o, ttl, seen, now);
      }
    }
  }

  lemma GiveUpSound(db: Db, keys: seq<Key>, o: Owner, now: int)
    requires Sound(db)
    ensures Sound(GiveUp(db, keys, o, now).1)
  {
    forall k ensures SlotOk(At(GiveUp(db, keys, o, now).1, k)) {
      assert SlotOk(At(db, k));
      RewriteAt(db, keys, Yield(o), now, k);
      YieldedOk(o, At(db, k));
    }
  }

  // ----- holding a key until some instant -----

  /** `o` is stored at the key, and neither its own expiry nor the key's deadline comes before `until`. */
  predicate HoldsAt(e: Option<Entry>, o: Owner, until: int) {
    && Owns(e, o)
    && e.value.deadline.Some? && e.value.deadline.value >= until
    && (e.value.value.ZSet? ==> Abs(e.value.value.scores[o]) >= until)
  }

  predicate Holds(db: Db, k: Key, o: Owner, until: int) {
    HoldsAt(At(db, k), o, until)
  }

  /** Two owners of one key at one instant are two readers. */
  lemma SharedOnlyByReaders(e: Option<Entry>, o: Owner, p: Owner)
    requires SlotOk(e) && Owns(e, o) && Owns(e, p) && o != p
    ensures o.mode.Read? && p.mode.Read?
  {
  }

  lemma SweptHolds(e: Option<Entry>, h: Owner, until: int, now: int)
    requires HoldsAt(e, h, until) && until > now
    ensures HoldsAt(Visible(e, now), h, until) && HoldsAt(Swept(Visible(e, now), now), h, until)
  {
    if e.value.value.ZSet? {
      assert h in Outside(e.value.value.scores, -now, now);
    }
  }

  /** No acquire or renew script, whosoever it is, ends or shortens a lease that is not yet over:
      another owner's never, and the script's own owner gets a later expiry. */
  lemma AttemptKeeps(db: Db, keys: seq<Key>, op: Op, o: Owner, ttl: int, now: int, k: Key, h: Owner, until: int)
    requires Sound(db) && !op.Release? && ttl > 0 && now >= 0
    requires Holds(db, k, h, until) && now < until
    requires h == o ==> until <= now + ttl
    ensures Holds(Attempt(db, keys, op, o, ttl, now).1, k, h, until)
  {
    assert SlotOk(At(db, k));
    var effect := EffectAt(db, keys, op, o, ttl, now, k);
    SweptHolds(At(db, k), h, until, now);
    if effect.Granted? && h != o {
      var seen := Swept(Visible(At(db, k), now), now);
      SweptOk(Visible(At(db, k), now), now);
      assert h in Scores(seen);
      if op.Renew? {
        SharedOnlyByReaders(seen, o, h);
      }
    }
  }

  /** A granted script gives its owner the full TTL on every key. */
  lemma AttemptGrants(db: Db, keys: seq<Key>, op: Op, o: Owner, ttl: int, now: int, k: Key)
    requires ttl > 0 && now >= 0 && k in keys
    requires Attempt(db, keys, op, o, ttl, now).0 == Done(true)
    ensures Holds(Attempt(db, keys, op, o, ttl, now).1, k, o, now + ttl)
  {
    RewriteAt(db, keys, Claim(o, ttl), now, k);
  }

  /** A release script leaves every other owner exactly as stored, whatever the database looks like. */
  lemma GiveUpKeeps(db: Db, keys: seq<Key>, o: Owner, now: int, k: Key, h: Owner, until: int)
    requires h != o
    ensures Holds(db, k, h, until) <==> Holds(GiveUp(db, keys, o, now).1, k, h, until)
    ensures Owns(At(db, k), h) <==> Owns(At(GiveUp(db, keys, o, now).1, k), h)
  {
    RewriteAt(db, keys, Yield(o), now, k);
    var e := At(db, k);
    if e.Some? && e.value.value.ZSet? && h in e.value.value.scores {
      assert h in e.value.value.scores - {o};
    }
  }

  // ----- the table of live holders -----

  /** For each key, who holds it and until when. */
  type Table = map<Key, map<Owner, int>>

  /** A mutex lives through its deadline's millisecond, a read-write holder up to its expiry. */
  predicate Alive(o: Owner, expiry: int, now: int) {
    now < expiry || (o.mode.Mutex? && now == expiry)
  }

  function Live(e: Option<Entry>, now: int): map<Owner, int> {
    match Visible(e, now)
    case None => map[]
    case Some(Entry(Str(t), d)) => if d.Some? then map[Owner(Mutex, t) := d.value] else map[]
    case Some(Entry(ZSet(scores), _)) => LiveScores(scores, now)
  }

  function LiveScores(scores: map<Owner, int>, now: int): map<Owner, int> {
    map o | o in scores && Abs(scores[o]) > now :: Abs(scores[o])
  }

  function View(db: Db, now: int): Table {
    map k | k in db && Live(At(db, k), now) != map[] :: Live(At(db, k), now)
  }

  function Holders(t: Table, k: Key): map<Owner, int> {
    if k in t then t[k] else map[]
  }

  /** A table without empty rows is determined by its rows. */
  predicate Tidy(t: Table) { forall k :: k in t ==> t[k] != map[] }

  lemma SameRows(a: Table, b: Table)
    requires Tidy(a) && Tidy(b)
    requires forall k :: Holders(a, k) == Holders(b, k)
    ensures a == b
  {
    forall k ensures k in a <==> k in b {
      assert Holders(a, k) == Holders(b, k);
    }
    forall k | k in a ensures a[k] == b[k] {
      assert Holders(a, k) == Holders(b, k);
    }
  }

  // ----- the lock service on tables -----

  predicate Free(op: Op, o: Owner, holders: map<Owner, int>) {
    match op
    case Acquire => if o.mode.Read? then forall h :: h in holders ==> h.mode.Read? else holders == map[]
    case _ => o in holders
  }

  function GrantRows(t: Table, keys: seq<Key>, o: Owner, expiry: int): Table {
    map k | k in t.Keys + (set x | x in keys) ::
      if k in keys then Holders(t, k)[o := expiry] else t[k]
  }

  /** Acquire and renew: everything on every key, or nothing at all. */
  function TableAttempt(t: Table, keys: seq<Key>, op: Op, o: Owner, expiry: int): (bool, Table) {
    if forall k :: k in keys ==> Free(op, o, Holders(t, k))
    then (true, GrantRows(t, keys, o, expiry))
    else (false, t)
  }

  function TableGiveUp(t: Table, keys: seq<Key>, o: Owner): Table {
    map k | k in t && (k in keys ==> t[k] - {o} != map[]) :: if k in keys then t[k] - {o} else t[k]
  }

  /** The passing of time. */
  function Expired(t: Table, now: int): Table {
    map k | k in t && AliveRow(t[k], now) != map[] :: AliveRow(t[k], now)
  }

  function AliveRow(row: map<Owner, int>, now: int): map<Owner, int> {
    map o | o in row && Alive(o, row[o], now) :: row[o]
  }

  // ----- refinement -----

  /** No read-write script meets a string, and no mutex script a sorted set. */
  predicate RightKinds(db: Db, keys: seq<Key>, mode: Mode, now: int) {
    forall k :: k in keys ==> if mode.Mutex? then !TypeOf(db, k, now).ZSetKey? else !TypeOf(db, k, now).StringKey?
  }

  lemma SweptLive(e: Option<Entry>, now: int)
    requires now >= 0
    ensures Live(Swept(Visible(e, now), now), now) == Live(e, now)
  {
    if e.Some? && e.value.value.ZSet? {
      var scores := e.value.value.scores;
      assert LiveScores(Outside(scores, -now, now), now) == LiveScores(scores, now);
    }
  }

  /** The first pass's test on the stored data is the table's test on the live holders. */
  lemma AdmitsIsFree(op: Op, o: Owner, e: Option<Entry>, now: int)
    requires SlotOk(e) && now >= 0 && !op.Release?
    requires Visible(e, now).Some? ==> (e.value.value.Str? <==> o.mode.Mutex?)
    ensures var seen := if o.mode.Mutex? then Visible(e, now) else Swept(Visible(e, now), now);
            Admits(op, o, seen, now) <==> Free(op, o, Live(e, now))
  {
    if Visible(e, now).Some? {
      match e.value.value
      case Str(t) => assert Owner(Mutex, t) in Live(e, now);
      case ZSet(scores) => AdmitsLiveScores(op, o, scores, e.value.deadline.value, now);
    }
  }

  lemma AdmitsLiveScores(op: Op, o: Owner, scores: map<Owner, int>, deadline: int, now: int)
    requires now >= 0 && !op.Release? && !o.mode.Mutex?
    requires forall m :: m in scores ==> ScoreOk(m, scores[m], deadline)
    ensures Admits(op, o, Stored(Outside(scores, -now, now), Some(deadline)), now)
            <==> Free(op, o, LiveScores(scores, now))
  {
    var kept := Outside(scores, -now, now);
    assert Scores(Stored(kept, Some(deadline))) == kept;
    assert forall m :: m in kept <==> m in LiveScores(scores, now);
    assert kept == map[] <==> LiveScores(scores, now) == map[];
    assert forall m :: m in kept ==> (kept[m] >= 0 <==> m.mode.Read?);
  }

  lemma ClaimedLive(o: Owner, ttl: int, e: Option<Entry>, now: int)
    requires ttl > 0 && now >= 0
    requires o.mode.Mutex? ==> forall h :: h in Live(e, now) ==> h == o
    requires !o.mode.Mutex? && Visible(e, now).Some? ==> e.value.value.ZSet?
    ensures Live(Planned(Claim(o, ttl), e, now), now) == Live(e, now)[o := now + ttl]
  {
    if !o.mode.Mutex? {
      var kept := Swept(Visible(e, now), now);
      ClaimedScores(o, ttl, kept, now);
      KeptScores(e, now);
      ScoreAdded(Scores(kept), o, if o.mode.Read? then now + ttl else -(now + ttl), now);
    }
  }

  lemma KeptScores(e: Option<Entry>, now: int)
    requires now >= 0 && (Visible(e, now).Some? ==> e.value.value.ZSet?)
    ensures LiveScores(Scores(Swept(Visible(e, now), now)), now) == Live(e, now)
  {
    SweptLive(e, now);
    assert LiveScores(map[], now) == map[];
  }

  lemma ClaimedScores(o: Owner, ttl: int, e: Option<Entry>, now: int)
    requires ttl > 0 && !o.mode.Mutex?
    ensures Live(Some(Claimed(o, ttl, e, now)), now)
            == LiveScores(Scores(e)[o := if o.mode.Read? then now + ttl else -(now + ttl)], now)
  {
  }

  lemma ScoreAdded(scores: map<Owner, int>, o: Owner, score: int, now: int)
    requires Abs(score) > now
    ensures LiveScores(scores[o := score], now) == LiveScores(scores, now)[o := Abs(score)]
  {
  }

  lemma RowIsLive(db: Db, now: int, k: Key)
    ensures Holders(View(db, now), k) == Live(At(db, k), now)
  {
  }

  lemma SameView(a: Db, b: Db, now: int)
    requires forall k :: Live(At(a, k), now) == Live(At(b, k), now)
    ensures View(a, now) == View(b, now)
  {
    forall k ensures Holders(View(a, now), k) == Holders(View(b, now), k) {
      RowIsLive(a, now, k);
      RowIsLive(b, now, k);
      assert Live(At(a, k), now) == Live(At(b, k), now);
    }
    SameRows(View(a, now), View(b, now));
  }

  /** Deleting a lapsed key and cleaning up expired members are invisible. */
  lemma EvictStutters(db: Db, k: Key, now: int)
    ensures View(Evict(db, k, now), now) == View(db, now)
  {
    SameView(Evict(db, k, now), db, now);
  }

  lemma CleanupStutters(db: Db, ks: seq<Key>, now: int)
    requires now >= 0
    ensures View(Rewrite(db, ks, Sweep, now), now) == View(db, now)
  {
    forall k ensures Live(At(Rewrite(db, ks, Sweep, now), k), now) == Live(At(db, k), now) {
      RewriteAt(db, ks, Sweep, now, k);
      SweptLive(At(db, k), now);
    }
    SameView(Rewrite(db, ks, Sweep, now), db, now);
  }

  /** Lazy expiry, of members and of whole keys, is eager expiry of holders:
      a key never lapses while it has a live holder. */
  lemma TimeExpires(db: Db, now: int, later: int)
    requires Sound(db) && now <= later
    ensures View(db, later) == Expired(View(db, now), later)
  {
    forall k ensures Holders(View(db, later), k) == Holders(Expired(View(db, now), later), k) {
      RowIsLive(db, now, k);
      RowIsLive(db, later, k);
      assert SlotOk(At(db, k));
      RowExpires(At(db, k), now, later);
    }
    SameRows(View(db, later), Expired(View(db, now), later));
  }

  lemma RowExpires(e: Option<Entry>, now: int, later: int)
    requires SlotOk(e) && now <= later
    ensures Live(e, later) == AliveRow(Live(e, now), later)
  {
    if e.Some? && e.value.value.ZSet? {
      var scores := e.value.value.scores;
      assert LiveScores(scores, later) == AliveRow(LiveScores(scores, now), later);
    }
  }

  /** A refused attempt, by contention or by an error, has changed no live holder of any key. */
  lemma RefusalChangesNothing(db: Db, keys: seq<Key>, op: Op, o: Owner, ttl: int, now: int)
    requires now >= 0
    requires Attempt(db, keys, op, o, ttl, now).0 != Done(true)
    ensures View(Attempt(db, keys, op, o, ttl, now).1, now) == View(db, now)
    ensures Attempt(db, keys, op, o, ttl, now).0.Failed? ==> Attempt(db, keys, op, o, ttl, now).1 == db
  {
    var n := FirstRefusal(db, keys, op, o, now);
    var (r, after) := Attempt(db, keys, op, o, ttl, now);
    if r == Done(false) && !o.mode.Mutex? {
      CleanupStutters(db, keys[..n + 1], now);
    } else {
      assert after == db;
    }
  }

  /** A script succeeds exactly when every key is free for its purpose. */
  lemma SucceedsIffFree(db: Db, keys: seq<Key>, op: Op, o: Owner, ttl: int, now: int)
    requires Sound(db) && !op.Release? && ttl > 0 && now >= 0
    requires RightKinds(db, keys, o.mode, now)
    requires o.mode.Mutex? || now + ttl <= MAX_EXACT
    ensures Attempt(db, keys, op, o, ttl, now).0
            == Done(forall k :: k in keys ==> Free(op, o, Holders(View(db, now), k)))
  {
    var n := FirstRefusal(db, keys, op, o, now);
    forall i | 0 <= i < |keys|
      ensures Admits(op, o, Seen(db, keys[i], o.mode, now), now) <==> Free(op, o, Holders(View(db, now), keys[i]))
    {
      assert keys[i] in keys;
      assert SlotOk(At(db, keys[i]));
      RowIsLive(db, now, keys[i]);
      AdmitsIsFree(op, o, At(db, keys[i]), now);
    }
    if n < |keys| {
      RefusalAt(db, keys, op, o, now, n);
      assert !Free(op, o, Holders(View(db, now), keys[n]));
      assert keys[n] in keys;
    } else {
      forall k | k in keys ensures Free(op, o, Holders(View(db, now), k)) {
        var i :| 0 <= i < |keys| && keys[i] == k;
        RefusalAt(db, keys, op, o, now, i);
      }
    }
  }

  /** In plain words: a reader is granted iff no key has a live writer, a writer or mutex iff no key has a live
      holder at all, a renewal iff its owner is a live holder of every key. */
  lemma GrantedIff(db: Db, keys: seq<Key>, op: Op, o: Owner, ttl: int, now: int)
    requires Sound(db) && !op.Release? && ttl > 0 && now >= 0
    requires RightKinds(db, keys, o.mode, now)
    requires o.mode.Mutex? || now + ttl <= MAX_EXACT
    ensures var granted := Attempt(db, keys, op, o, ttl, now).0 == Done(true);
            var t := View(db, now);
            && (op.Acquire? && o.mode.Read? ==>
                  (granted <==> forall k, h :: k in keys && h in Holders(t, k) ==> !h.mode.Write?))
            && (op.Acquire? && !o.mode.Read? ==> (granted <==> forall k, h :: k in keys ==> h !in Holders(t, k)))
            && (op.Renew? ==> (granted <==> forall k :: k in keys ==> o in Holders(t, k)))
  {
    SucceedsIffFree(db, keys, op, o, ttl, now);
    forall k | k in keys
      ensures o.mode.Read? ==> forall h :: h in Holders(View(db, now), k) ==> (h.mode.Read? <==> !h.mode.Write?)
      ensures Holders(View(db, now), k) == map[] <==> forall h :: h !in Holders(View(db, now), k)
    {
      assert SlotOk(At(db, k));
      RowIsLive(db, now, k);
    }
  }

  /** Which error a script raises: for read-write locks an expiry out of range comes before a key of the wrong type;
      for mutexes only a renewal can fail, by meeting a sorted set after strings that are all its own. */
  lemma ErrorsExactly(db: Db, keys: seq<Key>, op: Op, o: Owner, ttl: int, now: int)
    requires !op.Release? && ttl > 0 && now >= 0
    ensures var reply := Attempt(db, keys, op, o, ttl, now).0;
            && (reply == Failed(ExpiryRange) <==> !o.mode.Mutex? && now + ttl > 9007199254740991)
            && (!o.mode.Mutex? ==>
                  (reply == Failed(WrongType) <==>
                     now + ttl <= 9007199254740991 && exists k :: k in keys && TypeOf(db, k, now).StringKey?))
            && (o.mode.Mutex? ==>
                  (reply == Failed(WrongType) <==>
                     op.Renew? && exists n :: 0 <= n < |keys| && TypeOf(db, keys[n], now).ZSetKey?
                                              && forall i :: 0 <= i < n ==> Owns(Get(db, keys[i], now), o)))
            && (reply.Done? || reply.error in {ExpiryRange, WrongType})
  {
    var n := FirstRefusal(db, keys, op, o, now);
    forall i | 0 <= i < |keys| && i <= n
      ensures Admits(op, o, Seen(db, keys[i], o.mode, now), now) <==> i < n
    {
      RefusalAt(db, keys, op, o, now, i);
    }
  }

  predicate Clean(e: Option<Entry>, now: int) {
    e.Some? ==> e.value.value != ZSet(map[]) && forall m :: m in Scores(e) ==> Abs(Scores(e)[m]) > now
  }

  /** A read-write script leaves no expired member, and no empty set, on any key that it has looked at: on all of them
      if it was granted, else up to the first one that refused it.  The others it has not touched. */
  lemma LooksClean(db: Db, keys: seq<Key>, op: Op, o: Owner, ttl: int, now: int, k: Key)
    requires !op.Release? && !o.mode.Mutex? && ttl > 0 && now >= 0
    requires Attempt(db, keys, op, o, ttl, now).0.Done?
    ensures var (r, after) := Attempt(db, keys, op, o, ttl, now);
            var n := FirstRefusal(db, keys, op, o, now);
            && (r.ok <==> n == |keys|)
            && (k in keys[..if r.ok then n else n + 1] ==> Clean(At(after, k), now))
            && (k !in keys[..if r.ok then n else n + 1] ==> At(after, k) == At(db, k))
  {
    var (r, after) := Attempt(db, keys, op, o, ttl, now);
    var n := FirstRefusal(db, keys, op, o, now);
    assert keys[..|keys|] == keys;
    RewriteAt(db, keys, Claim(o, ttl), now, k);
    RewriteAt(db, keys[..if r.ok then n else n + 1], Sweep, now, k);
    if k in keys && r.ok {
      var seen := Swept(Visible(At(db, k), now), now);
      SweptTwice(Visible(At(db, k), now), now);
      ClaimStays(o, ttl, seen, now);
      CleanWhenSwept(Some(Claimed(o, ttl, seen, now)), now);
    } else if k in keys {
      SweptTwice(Visible(At(db, k), now), now);
      CleanWhenSwept(Swept(Visible(At(db, k), now), now), now);
    }
  }

  lemma CleanWhenSwept(e: Option<Entry>, now: int)
    requires now >= 0 && Swept(e, now) == e
    ensures Clean(e, now)
  {
    if e.Some? && e.value.value.ZSet? {
      assert Scores(e) == Outside(Scores(e), -now, now);
    }
  }

  /** Each acquire and renew script is the atomic table operation, with the expiry `now + ttl`. */
  lemma AttemptRefines(db: Db, keys: seq<Key>, op: Op, o: Owner, ttl: int, now: int)
    requires Sound(db) && !op.Release? && ttl > 0 && now >= 0
    requires RightKinds(db, keys, o.mode, now)
    requires o.mode.Mutex? || now + ttl <= MAX_EXACT
    ensures var (r, after) := Attempt(db, keys, op, o, ttl, now);
            (r, View(after, now))
            == var (ok, t) := TableAttempt(View(db, now), keys, op, o, now + ttl); (Done(ok), t)
  {
    var (r, after) := Attempt(db, keys, op, o, ttl, now);
    var table := View(db, now);
    SucceedsIffFree(db, keys, op, o, ttl, now);
    if r == Done(true) {
      var granted := GrantRows(table, keys, o, now + ttl);
      forall k ensures Holders(View(after, now), k) == Holders(granted, k) {
        RowIsLive(db, now, k);
        RowIsLive(after, now, k);
        var effect := EffectAt(db, keys, op, o, ttl, now, k);
        if effect.Granted? {
          assert Free(op, o, Live(At(db, k), now));
          OnlyOwnMutex(db, k, op, o, now);
          ClaimedLive(o, ttl, At(db, k), now);
        }
      }
      assert Tidy(granted) by {
        forall k | k in granted ensures granted[k] != map[] {
          assert k in keys ==> o in granted[k];
        }
      }
      SameRows(View(after, now), granted);
    } else {
      RefusalChangesNothing(db, keys, op, o, ttl, now);
    }
  }

  lemma OnlyOwnMutex(db: Db, k: Key, op: Op, o: Owner, now: int)
    requires Free(op, o, Live(At(db, k), now)) && !op.Release?
    requires o.mode.Mutex? ==> !TypeOf(db, k, now).ZSetKey?
    ensures o.mode.Mutex? ==> forall h :: h in Live(At(db, k), now) ==> h == o
  {
  }

  /** A release script is the atomic removal of its owner from every key. */
  lemma GiveUpRefines(db: Db, keys: seq<Key>, o: Owner, now: int)
    requires Sound(db)
    ensures View(GiveUp(db, keys, o, now).1, now) == TableGiveUp(View(db, now), keys, o)
  {
    var after := GiveUp(db, keys, o, now).1;
    var table := View(db, now);
    forall k ensures Holders(View(after, now), k) == Holders(TableGiveUp(table, keys, o), k) {
      RowIsLive(db, now, k);
      RowIsLive(after, now, k);
      RewriteAt(db, keys, Yield(o), now, k);
      assert SlotOk(At(db, k));
      YieldedLive(o, At(db, k), now);
    }
    SameRows(View(after, now), TableGiveUp(table, keys, o));
  }

  lemma YieldedLive(o: Owner, e: Option<Entry>, now: int)
    requires SlotOk(e)
    ensures Live(Planned(Yield(o), e, now), now) == Live(e, now) - {o}
  {
    if Visible(e, now).Some? && e.value.value.ZSet? && o !in e.value.value.scores {
      assert o !in LiveScores(e.value.value.scores, now);
    } else if Visible(e, now).Some? && e.value.value.ZSet? {
      assert !o.mode.Mutex?;
      YieldedScores(o, e.value.value.scores, e.value.deadline, now);
    }
  }

  lemma YieldedScores(o: Owner, scores: map<Owner, int>, deadline: Option<int>, now: int)
    requires !Lapsed(Entry(ZSet(scores), deadline), now)
    ensures Live(Stored(scores - {o}, deadline), now) == LiveScores(scores, now) - {o}
  {
    MemberGone(scores, o, now);
    assert LiveScores(map[], now) == map[];
  }

  lemma MemberGone(scores: map<Owner, int>, o: Owner, now: int)
    ensures LiveScores(scores - {o}, now) == LiveScores(scores, now) - {o}
  {
  }

  // ----- release, crash recovery, the fast path -----

  /** Release removes its own entries and nothing else, from any database: on each of its keys another
      owner, that owner's score and the key's deadline stay; on any other key everything stays. */
  lemma ReleaseIsExact(db: Db, keys: seq<Key>, o: Owner, now: int, k: Key)
    ensures var after := GiveUp(db, keys, o, now).1;
            && (k in keys ==> !Owns(Get(after, k, now), o))
            && (forall h :: h != o ==> (Owns(At(after, k), h) <==> Owns(At(db, k), h)))
            && (k !in keys || !Owns(Get(db, k, now), o) ==> At(after, k) == At(db, k))
            && (At(after, k).Some? ==> At(db, k).Some? && At(after, k).value.deadline == At(db, k).value.deadline)
            && (forall h :: h != o && h in Scores(At(db, k)) && At(db, k).value.value.ZSet?
                  ==> h in Scores(At(after, k)) && Scores(At(after, k))[h] == Scores(At(db, k))[h])
  {
    RewriteAt(db, keys, Yield(o), now, k);
    forall h | h != o ensures Owns(At(GiveUp(db, keys, o, now).1, k), h) <==> Owns(At(db, k), h) {
      GiveUpKeeps(db, keys, o, now, k, h, 0);
    }
    var e := At(db, k);
    if e.Some? && e.value.value.ZSet? {
      var scores := e.value.value.scores;
      assert o !in scores ==> scores - {o} == scores;
      forall h | h != o && h in scores ensures h in scores - {o} {
      }
    }
  }

  /** The owner is a live holder of every key. */
  predicate HoldsAll(t: Table, keys: seq<Key>, o: Owner) {
    forall k :: k in keys ==> o in Holders(t, k)
  }

  /** The owner is still a member although its expiry has come. */
  predicate ExpiredMember(e: Option<Entry>, o: Owner, now: int) {
    o in Scores(e) && Abs(Scores(e)[o]) <= now
  }

  /** What a release over distinct keys tells its caller: 1 whenever the owner was a live holder of all of them,
      and for mutexes only then.  A read-write lease that has expired but was not yet cleaned up still counts:
      the reply differs from the table's answer exactly then. */
  lemma ReleaseReply(db: Db, keys: seq<Key>, o: Owner, now: int)
    requires Sound(db) && Distinct(keys)
    ensures var reply, live := GiveUp(db, keys, o, now).0, HoldsAll(View(db, now), keys, o);
            && (live ==> reply == Done(true))
            && (o.mode.Mutex? ==> reply == Done(live))
            && (reply != Done(live) <==>
                  && (forall k :: k in keys ==> Owns(Get(db, k, now), o))
                  && exists k :: k in keys && ExpiredMember(At(db, k), o, now))
  {
    forall k | k in keys
      ensures o in Holders(View(db, now), k) ==> Owns(Get(db, k, now), o)
      ensures Owns(Get(db, k, now), o) ==> (o !in Holders(View(db, now), k) <==> ExpiredMember(At(db, k), o, now))
      ensures o.mode.Mutex? && Owns(Get(db, k, now), o) ==> o !in Scores(At(db, k))
    {
      assert SlotOk(At(db, k));
      RowIsLive(db, now, k);
    }
  }

  /** It happens: a reader that expired at 10 is released at 11, while another keeps the key. */
  lemma ExpiredReaderIsReleased()
    ensures var o, other := Owner(Read, "a"), Owner(Read, "b");
            var db := map["k" := Entry(ZSet(map[o := 10, other := 20]), Some(20))];
            && Sound(db)
            && !HoldsAll(View(db, 11), ["k"], o)
            && GiveUp(db, ["k"], o, 11).0 == Done(true)
  {
    var o, other := Owner(Read, "a"), Owner(Read, "b");
    var db := map["k" := Entry(ZSet(map[o := 10, other := 20]), Some(20))];
    RowIsLive(db, 11, "k");
    assert At(db, "k").Some?;
    assert "k" in ["k"] && o !in Holders(View(db, 11), "k");
  }

  /** Acquiring and then releasing leaves the table as if neither had happened: only time has passed. */
  lemma AcquireThenRelease(db: Db, keys: seq<Key>, o: Owner, ttl: int, now: int, later: int)
    requires Sound(db) && ttl > 0 && 0 <= now <= later && RightKinds(db, keys, o.mode, now)
    requires o.mode.Mutex? || now + ttl <= MAX_EXACT
    requires forall k :: k in keys ==> o !in Holders(View(db, now), k)
    ensures var (r, held) := Attempt(db, keys, Acquire, o, ttl, now);
            View(GiveUp(held, keys, o, later).1, later) == Expired(View(db, now), later)
  {
    AcquiredRows(db, keys, o, ttl, now);
    ReleasedAgain(View(db, now), Attempt(db, keys, Acquire, o, ttl, now).1, keys, o, now + ttl, now, later);
  }

  lemma AcquiredRows(db: Db, keys: seq<Key>, o: Owner, ttl: int, now: int)
    requires Sound(db) && ttl > 0 && 0 <= now && RightKinds(db, keys, o.mode, now)
    requires o.mode.Mutex? || now + ttl <= MAX_EXACT
    ensures var held := Attempt(db, keys, Acquire, o, ttl, now).1;
            && Sound(held)
            && (View(held, now) == View(db, now) || View(held, now) == GrantRows(View(db, now), keys, o, now + ttl))
  {
    AttemptSound(db, keys, Acquire, o, ttl, now);
    AttemptRefines(db, keys, Acquire, o, ttl, now);
  }

  lemma ReleasedAgain(t: Table, held: Db, keys: seq<Key>, o: Owner, expiry: int, now: int, later: int)
    requires Sound(held) && now <= later
    requires View(held, now) == t || View(held, now) == GrantRows(t, keys, o, expiry)
    requires forall k :: k in keys ==> o !in Holders(t, k)
    ensures View(GiveUp(held, keys, o, later).1, later) == Expired(t, later)
  {
    TimeExpires(held, now, later);
    GiveUpRefines(held, keys, o, later);
    TableGivenBack(t, View(held, now), keys, o, expiry, later);
  }

  lemma ExpiredRow(t: Table, later: int, k: Key)
    ensures Holders(Expired(t, later), k) == AliveRow(Holders(t, k), later)
  {
  }

  lemma GivenUpRow(t: Table, keys: seq<Key>, o: Owner, k: Key)
    ensures Holders(TableGiveUp(t, keys, o), k) == if k in keys then Holders(t, k) - {o} else Holders(t, k)
  {
  }

  lemma TableGivenBack(t: Table, held: Table, keys: seq<Key>, o: Owner, expiry: int, later: int)
    requires held == t || held == GrantRows(t, keys, o, expiry)
    requires forall k :: k in keys ==> o !in Holders(t, k)
    ensures TableGiveUp(Expired(held, later), keys, o) == Expired(t, later)
  {
    var left := TableGiveUp(Expired(held, later), keys, o);
    forall k ensures Holders(left, k) == Holders(Expired(t, later), k) {
      GivenUpRow(Expired(held, later), keys, o, k);
      ExpiredRow(held, later, k);
      ExpiredRow(t, later, k);
      if k in keys {
        RowGivenBack(Holders(t, k), o, expiry, later);
      }
    }
    SameRows(left, Expired(t, later));
  }

  lemma RowGivenBack(row: map<Owner, int>, o: Owner, expiry: int, later: int)
    requires o !in row
    ensures AliveRow(row[o := expiry], later) - {o} == AliveRow(row, later) == AliveRow(row, later) - {o}
  {
  }

  /** The reply of that release, while the lease lasts. */
  lemma ReleaseAnswersAcquire(db: Db, keys: seq<Key>, o: Owner, ttl: int, now: int, later: int)
    requires ttl > 0 && 0 <= now <= later <= now + ttl
    requires Attempt(db, keys, Acquire, o, ttl, now).0 == Done(true)
    ensures GiveUp(Attempt(db, keys, Acquire, o, ttl, now).1, keys, o, later).0 == Done(Distinct(keys))
  {
    forall k | k in keys ensures Owns(Get(Attempt(db, keys, Acquire, o, ttl, now).1, k, later), o) {
      AttemptGrants(db, keys, Acquire, o, ttl, now, k);
    }
  }

  /** A second release finds nothing, says so, and changes nothing. */
  lemma ReleaseTwice(db: Db, keys: seq<Key>, o: Owner, now: int, later: int)
    requires keys != [] && now <= later
    ensures var once := GiveUp(db, keys, o, now).1;
            GiveUp(once, keys, o, later) == (Done(false), once)
  {
    var once := GiveUp(db, keys, o, now).1;
    var twice := GiveUp(once, keys, o, later).1;
    forall k ensures At(twice, k) == At(once, k) && (k in keys ==> !Owns(Get(once, k, later), o)) {
      ReleaseIsExact(db, keys, o, now, k);
      ReleaseIsExact(once, keys, o, later, k);
    }
    assert keys[0] in keys;
    SameEverywhere(twice, once);
  }

  /** Whatever is stored, an acquisition succeeds once every expiry on its keys has passed. */
  lemma FreeAfterExpiry(db: Db, keys: seq<Key>, o: Owner, ttl: int, now: int)
    requires now >= 0 && ttl > 0 && (o.mode.Mutex? || now + ttl <= MAX_EXACT)
    requires forall k :: k in keys && At(db, k).Some? ==> Lapsed(At(db, k).value, now)
    ensures Attempt(db, keys, Acquire, o, ttl, now).0 == Done(true)
  {
    var n := FirstRefusal(db, keys, Acquire, o, now);
    if n < |keys| {
      assert keys[n] in keys;
      RefusalAt(db, keys, Acquire, o, now, n);
    }
  }

  /** SET NX PX and the script on one key are the same operation. */
  lemma FastPath(db: Db, k: Key, t: Token, ttl: int, now: int)
    ensures var (wasSet, after) := SetNxPx(db, k, t, ttl, now);
            Attempt(db, [k], Acquire, Owner(Mutex, t), ttl, now) == (Done(wasSet), after)
  {
    var o := Owner(Mutex, t);
    RefusalAt(db, [k], Acquire, o, now, 0);
    if Get(db, k, now).None? {
      var after := SetPx(db, k, t, ttl, now);
      forall x ensures At(Rewrite(db, [k], Claim(o, ttl), now), x) == At(after, x) {
        RewriteAt(db, [k], Claim(o, ttl), now, x);
      }
      SameEverywhere(Rewrite(db, [k], Claim(o, ttl), now), after);
    }
  }

  /** Past the expiry preflight the stored score is exact in Lua, in both signs. */
  lemma ScoresAreExact(db: Db, keys: seq<Key>, op: Op, o: Owner, ttl: int, now: int, k: Key)
    requires !o.mode.Mutex? && ttl > 0 && k in keys
    requires Attempt(db, keys, op, o, ttl, now).0 == Done(true)
    ensures var scores := Scores(At(Attempt(db, keys, op, o, ttl, now).1, k));
            o in scores && Abs(scores[o]) == now + ttl <= MAX_EXACT
  {
    RewriteAt(db, keys, Claim(o, ttl), now, k);
  }
}
