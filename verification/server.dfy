/** The Lua scripts, command by command, over a database that they change in place.
    A script runs atomically; `TIME` and every key deadline use the same clock. */
module ScriptServer {
  import opened Redis
  import opened Scripts
  import opened TtlText

  class Server {
    var db: Db
    var clock: nat  // microseconds

    function Now(): int
      reads this
    {
      clock / 1000
    }

    constructor (db: Db, clock: nat)
      ensures this.db == db && this.clock == clock
    {
      this.db := db;
      this.clock := clock;
    }

    /** The three preflights of a read-write script: nothing is changed, whatever they find. */
    method RwPreflight(keys: seq<Key>, rawTtl: Option<string>)
      returns (refusal: Option<ScriptError>, ttl: nat, now: int)
      ensures now == Now()
      ensures match Preflight(rawTtl)
              case Invalid(e) => refusal == Some(e)
              case Valid(millis) => ttl == millis > 0 && refusal == RwRefusal(db, keys, ttl, now)
    {
      var parsed := Preflight(rawTtl);
      var seconds, micros := clock / 1000000, clock % 1000000;
      ttl, now := 0, seconds * 1000 + micros / 1000;
      if parsed.Invalid? {
        return Some(parsed.error), ttl, now;
      }
      PreflightPositive(rawTtl);
      ttl := parsed.millis;
      if now < 0 || now > MAX_EXACT || ttl > MAX_EXACT - now {
        return Some(ExpiryRange), ttl, now;
      }
      for i := 0 to |keys|
        invariant forall j :: 0 <= j < i ==> !TypeOf(db, keys[j], now).StringKey?
      {
        var kind := TypeOf(db, keys[i], now);
        if !kind.NoKey? && !kind.ZSetKey? {
          assert keys[i] in keys;
          return Some(WrongType), ttl, now;
        }
      }
      refusal := None;
    }

    method AcquireMutex(keys: seq<Key>, token: Token, rawTtl: Option<string>) returns (r: Reply)
      modifies this`db
      ensures (r, db) == Run(old(db), keys, Acquire, Owner(Mutex, token), rawTtl, Now())
    {
      var ttl := Preflight(rawTtl);
      if ttl.Invalid? {
        return Failed(ttl.error);
      }
      var now := Now();
      ghost var o := Owner(Mutex, token);
      ghost var n := FirstRefusal(db, keys, Acquire, o, now);
      PreflightPositive(rawTtl);
      for i := 0 to |keys|
        invariant db == old(db) && i <= n
      {
        RefusalAt(db, keys, Acquire, o, now, i);
        if Get(db, keys[i], now).Some? {
          return Done(false);
        }
      }
      ghost var before := db;
      RewriteNone(before, Claim(o, ttl.millis), now);
      for i := 0 to |keys|
        invariant db == Rewrite(before, keys[..i], Claim(o, ttl.millis), now)
      {
        RewriteMore(before, keys, i, Claim(o, ttl.millis), now);
        db := SetPx(db, keys[i], token, ttl.millis, now);
      }
      assert keys[..|keys|] == keys;
      r := Done(true);
    }

    method RenewMutex(keys: seq<Key>, token: Token, rawTtl: Option<string>) returns (r: Reply)
      modifies this`db
      ensures (r, db) == Run(old(db), keys, Renew, Owner(Mutex, token), rawTtl, Now())
    {
      var ttl := Preflight(rawTtl);
      if ttl.Invalid? {
        return Failed(ttl.error);
      }
      var now := Now();
      ghost var o := Owner(Mutex, token);
      ghost var n := FirstRefusal(db, keys, Renew, o, now);
      PreflightPositive(rawTtl);
      for i := 0 to |keys|
        invariant db == old(db) && i <= n
      {
        RefusalAt(db, keys, Renew, o, now, i);
        var found := Get(db, keys[i], now);
        if found.Some? && found.value.value.ZSet? {
          return Failed(WrongType);  // GET raises the error
        }
        if found.None? || found.value.value.token != token {
          return Done(false);
        }
      }
      ghost var before := db;
      RewriteNone(before, Claim(o, ttl.millis), now);
      for i := 0 to |keys|
        invariant db == Rewrite(before, keys[..i], Claim(o, ttl.millis), now)
      {
        RewriteMore(before, keys, i, Claim(o, ttl.millis), now);
        RewriteAt(before, keys[..i], Claim(o, ttl.millis), now, keys[i]);
        RefusalAt(before, keys, Renew, o, now, i);
        db := PExpire(db, keys[i], ttl.millis, now);
      }
      assert keys[..|keys|] == keys;
      r := Done(true);
    }

    method ReleaseMutex(keys: seq<Key>, token: Token) returns (r: Reply)
      modifies this`db
      ensures (r, db) == GiveUp(old(db), keys, Owner(Mutex, token), Now())
    {
      var now := Now();
      var count := 0;
      ghost var o := Owner(Mutex, token);
      RewriteNone(db, Yield(o), now);
      for i := 0 to |keys|
        invariant db == Rewrite(old(db), keys[..i], Yield(o), now)
        invariant CountSoFar(old(db), keys[..i], o, now, count)
      {
        RewriteMore(old(db), keys, i, Yield(o), now);
        CountOneMore(old(db), keys, i, o, now, count);
        var found := Get(db, keys[i], now);
        if found.Some? && found.value.value == Str(token) {
          var (deleted, rest) := Del(db, keys[i], now);
          count, db := count + deleted, rest;
        }
      }
      assert keys[..|keys|] == keys;
      r := Done(count == |keys|);
    }

    method AcquireRead(keys: seq<Key>, token: Token, rawTtl: Option<string>) returns (r: Reply)
      modifies this`db
      ensures (r, db) == Run(old(db), keys, Acquire, Owner(Read, token), rawTtl, Now())
    {
      var refusal, ttl, now := RwPreflight(keys, rawTtl);
      if refusal.Some? {
        return Failed(refusal.value);
      }
      var member := Owner(Read, token);
      var passed := NoWriter(keys, member, ttl, now);
      if !passed {
        return Done(false);
      }
      AddReader(keys, member, ttl, now, old(db));
      SweepThenClaim(old(db), keys, member, ttl, now);
      r := Done(true);
    }

    /** The first pass cleans one more key; what is left there decides whether it may go on. */
    method CleanKey(keys: seq<Key>, i: nat, op: Op, member: Owner, ttl: nat, now: int, ghost first: Db)
      requires i < |keys| && !member.mode.Mutex? && RwRefusal(first, keys, ttl, now).None?
      requires db == Rewrite(first, keys[..i], Sweep, now) && i <= FirstRefusal(first, keys, op, member, now)
      modifies this`db
      ensures db == Rewrite(first, keys[..i + 1], Sweep, now)
      ensures !TypeOf(db, keys[i], now).StringKey?
      ensures Admits(op, member, Get(db, keys[i], now), now) <==> i < FirstRefusal(first, keys, op, member, now)
    {
      CleanOneMore(first, keys, i, op, member, now);
      db := ZRemRangeByScore(db, keys[i], -now, now, now);
    }

    /** A turn of the first pass of `AcquireRead`, up to ZCOUNT key -inf (0. */
    method CountWriters(keys: seq<Key>, i: nat, member: Owner, ttl: nat, now: int, ghost first: Db) returns (n: nat)
      requires i < |keys| && member.mode.Read? && RwRefusal(first, keys, ttl, now).None?
      requires db == Rewrite(first, keys[..i], Sweep, now) && i <= FirstRefusal(first, keys, Acquire, member, now)
      modifies this`db
      ensures db == Rewrite(first, keys[..i + 1], Sweep, now)
      ensures n == 0 <==> i < FirstRefusal(first, keys, Acquire, member, now)
    {
      CleanKey(keys, i, Acquire, member, ttl, now, first);
      n := ZCountNegative(db, keys[i], now);
      NegativeCount(db, keys[i], now);
    }

    /** A turn of the first pass of `RenewRead`, up to the test of the score. */
    method FindReader(keys: seq<Key>, i: nat, member: Owner, ttl: nat, now: int, ghost first: Db) returns (live: bool)
      requires i < |keys| && member.mode.Read? && RwRefusal(first, keys, ttl, now).None?
      requires db == Rewrite(first, keys[..i], Sweep, now) && i <= FirstRefusal(first, keys, Renew, member, now)
      modifies this`db
      ensures db == Rewrite(first, keys[..i + 1], Sweep, now)
      ensures live <==> i < FirstRefusal(first, keys, Renew, member, now)
    {
      CleanKey(keys, i, Renew, member, ttl, now, first);
      RenewScore(db, keys[i], member, now);
      var score := ZScore(db, keys[i], member, now);
      live := !(score.None? || score.value <= now);
    }

    /** A turn of the first pass of `AcquireWrite`, up to ZCARD. */
    method CountHolders(keys: seq<Key>, i: nat, member: Owner, ttl: nat, now: int, ghost first: Db) returns (n: nat)
      requires i < |keys| && member.mode.Write? && RwRefusal(first, keys, ttl, now).None?
      requires db == Rewrite(first, keys[..i], Sweep, now) && i <= FirstRefusal(first, keys, Acquire, member, now)
      modifies this`db
      ensures db == Rewrite(first, keys[..i + 1], Sweep, now)
      ensures n == 0 <==> i < FirstRefusal(first, keys, Acquire, member, now)
    {
      CleanKey(keys, i, Acquire, member, ttl, now, first);
      n := ZCard(db, keys[i], now);
      HolderCount(db, keys[i], member, now);
    }

    /** A turn of the first pass of `RenewWrite`, up to the test of the score. */
    method FindWriter(keys: seq<Key>, i: nat, member: Owner, ttl: nat, now: int, ghost first: Db) returns (live: bool)
      requires i < |keys| && member.mode.Write? && RwRefusal(first, keys, ttl, now).None?
      requires db == Rewrite(first, keys[..i], Sweep, now) && i <= FirstRefusal(first, keys, Renew, member, now)
      modifies this`db
      ensures db == Rewrite(first, keys[..i + 1], Sweep, now)
      ensures live <==> i < FirstRefusal(first, keys, Renew, member, now)
    {
      CleanKey(keys, i, Renew, member, ttl, now, first);
      RenewScore(db, keys[i], member, now);
      var score := ZScore(db, keys[i], member, now);
      live := !(score.None? || score.value >= -now);
    }

    /** The first pass of `AcquireRead`. */
    method NoWriter(keys: seq<Key>, member: Owner, ttl: nat, now: int) returns (passed: bool)
      requires member.mode.Read? && RwRefusal(db, keys, ttl, now).None?
      modifies this`db
      ensures FirstPass(old(db), keys, Acquire, member, now, passed, db)
    {
      ghost var first := db;
      RewriteNone(first, Sweep, now);
      for i := 0 to |keys|
        invariant db == Rewrite(first, keys[..i], Sweep, now)
        invariant i <= FirstRefusal(first, keys, Acquire, member, now)
      {
        var writers := CountWriters(keys, i, member, ttl, now, first);
        if writers != 0 {
          return false;
        }
      }
      assert keys[..|keys|] == keys;
      passed := true;
    }

    method RenewRead(keys: seq<Key>, token: Token, rawTtl: Option<string>) returns (r: Reply)
      modifies this`db
      ensures (r, db) == Run(old(db), keys, Renew, Owner(Read, token), rawTtl, Now())
    {
      var refusal, ttl, now := RwPreflight(keys, rawTtl);
      if refusal.Some? {
        return Failed(refusal.value);
      }
      var member := Owner(Read, token);
      var passed := StillReader(keys, member, ttl, now);
      if !passed {
        return Done(false);
      }
      AddReader(keys, member, ttl, now, old(db));
      SweepThenClaim(old(db), keys, member, ttl, now);
      r := Done(true);
    }

    /** The first pass of `RenewRead`. */
    method StillReader(keys: seq<Key>, member: Owner, ttl: nat, now: int) returns (passed: bool)
      requires member.mode.Read? && RwRefusal(db, keys, ttl, now).None?
      modifies this`db
      ensures FirstPass(old(db), keys, Renew, member, now, passed, db)
    {
      ghost var first := db;
      RewriteNone(first, Sweep, now);
      for i := 0 to |keys|
        invariant db == Rewrite(first, keys[..i], Sweep, now)
        invariant i <= FirstRefusal(first, keys, Renew, member, now)
      {
        var live := FindReader(keys, i, member, ttl, now, first);
        if !live {
          return false;
        }
      }
      assert keys[..|keys|] == keys;
      passed := true;
    }

    method ReleaseRead(keys: seq<Key>, token: Token) returns (r: Reply)
      modifies this`db
      ensures (r, db) == GiveUp(old(db), keys, Owner(Read, token), Now())
    {
      r := ReleaseMember(keys, Owner(Read, token));
    }

    method AcquireWrite(keys: seq<Key>, token: Token, rawTtl: Option<string>) returns (r: Reply)
      modifies this`db
      ensures (r, db) == Run(old(db), keys, Acquire, Owner(Write, token), rawTtl, Now())
    {
      var refusal, ttl, now := RwPreflight(keys, rawTtl);
      if refusal.Some? {
        return Failed(refusal.value);
      }
      var member := Owner(Write, token);
      var passed := NoHolder(keys, member, ttl, now);
      if !passed {
        return Done(false);
      }
      AddWriter(keys, member, ttl, now, old(db));
      SweepThenClaim(old(db), keys, member, ttl, now);
      r := Done(true);
    }

    /** The first pass of `AcquireWrite`. */
    method NoHolder(keys: seq<Key>, member: Owner, ttl: nat, now: int) returns (passed: bool)
      requires member.mode.Write? && RwRefusal(db, keys, ttl, now).None?
      modifies this`db
      ensures FirstPass(old(db), keys, Acquire, member, now, passed, db)
    {
      ghost var first := db;
      RewriteNone(first, Sweep, now);
      for i := 0 to |keys|
        invariant db == Rewrite(first, keys[..i], Sweep, now)
        invariant i <= FirstRefusal(first, keys, Acquire, member, now)
      {
        var holders := CountHolders(keys, i, member, ttl, now, first);
        if holders != 0 {
          return false;
        }
      }
      assert keys[..|keys|] == keys;
      passed := true;
    }

    method RenewWrite(keys: seq<Key>, token: Token, rawTtl: Option<string>) returns (r: Reply)
      modifies this`db
      ensures (r, db) == Run(old(db), keys, Renew, Owner(Write, token), rawTtl, Now())
    {
      var refusal, ttl, now := RwPreflight(keys, rawTtl);
      if refusal.Some? {
        return Failed(refusal.value);
      }
      var member := Owner(Write, token);
      var passed := StillWriter(keys, member, ttl, now);
      if !passed {
        return Done(false);
      }
      AddWriter(keys, member, ttl, now, old(db));
      SweepThenClaim(old(db), keys, member, ttl, now);
      r := Done(true);
    }

    /** The first pass of `RenewWrite`. */
    method StillWriter(keys: seq<Key>, member: Owner, ttl: nat, now: int) returns (passed: bool)
      requires member.mode.Write? && RwRefusal(db, keys, ttl, now).None?
      modifies this`db
      ensures FirstPass(old(db), keys, Renew, member, now, passed, db)
    {
      ghost var first := db;
      RewriteNone(first, Sweep, now);
      for i := 0 to |keys|
        invariant db == Rewrite(first, keys[..i], Sweep, now)
        invariant i <= FirstRefusal(first, keys, Renew, member, now)
      {
        var live := FindWriter(keys, i, member, ttl, now, first);
        if !live {
          return false;
        }
      }
      assert keys[..|keys|] == keys;
      passed := true;
    }

    method ReleaseWrite(keys: seq<Key>, token: Token) returns (r: Reply)
      modifies this`db
      ensures (r, db) == GiveUp(old(db), keys, Owner(Write, token), Now())
    {
      r := ReleaseMember(keys, Owner(Write, token));
    }

    /** The second pass of the two reader scripts. */
    method AddReader(keys: seq<Key>, member: Owner, ttl: nat, now: int, ghost unswept: Db)
      requires member.mode.Read? && ttl > 0 && RwRefusal(unswept, keys, ttl, now).None?
      requires db == Rewrite(unswept, keys, Sweep, now)
      modifies this`db
      ensures db == Rewrite(old(db), keys, Claim(member, ttl), now)
    {
      RewriteNone(db, Claim(member, ttl), now);
      for i := 0 to |keys|
        invariant db == Rewrite(old(db), keys[..i], Claim(member, ttl), now)
      {
        ClaimOneMore(unswept, old(db), keys, i, member, ttl, now);
        db := ZAdd(db, keys[i], now + ttl, member, now);
        if PTtl(db, keys[i], now) < ttl {
          db := PExpire(db, keys[i], ttl, now);
        }
      }
      assert keys[..|keys|] == keys;
    }

    /** The second pass of the two writer scripts. */
    method AddWriter(keys: seq<Key>, member: Owner, ttl: nat, now: int, ghost unswept: Db)
      requires member.mode.Write? && ttl > 0 && RwRefusal(unswept, keys, ttl, now).None?
      requires db == Rewrite(unswept, keys, Sweep, now)
      modifies this`db
      ensures db == Rewrite(old(db), keys, Claim(member, ttl), now)
    {
      RewriteNone(db, Claim(member, ttl), now);
      for i := 0 to |keys|
        invariant db == Rewrite(old(db), keys[..i], Claim(member, ttl), now)
      {
        ClaimOneMore(unswept, old(db), keys, i, member, ttl, now);
        db := ZAdd(db, keys[i], -(now + ttl), member, now);
        db := PExpire(db, keys[i], ttl, now);
      }
      assert keys[..|keys|] == keys;
    }

    /** The loop that the two read-write release scripts share. */
    method ReleaseMember(keys: seq<Key>, member: Owner) returns (r: Reply)
      requires !member.mode.Mutex?
      modifies this`db
      ensures (r, db) == GiveUp(old(db), keys, member, Now())
    {
      var now := Now();
      var count := 0;
      RewriteNone(db, Yield(member), now);
      for i := 0 to |keys|
        invariant db == Rewrite(old(db), keys[..i], Yield(member), now)
        invariant CountSoFar(old(db), keys[..i], member, now, count)
      {
        RewriteMore(old(db), keys, i, Yield(member), now);
        CountOneMore(old(db), keys, i, member, now, count);
        if TypeOf(db, keys[i], now).ZSetKey? {
          var (removed, rest) := ZRem(db, keys[i], member, now);
          count, db := count + removed, rest;
        }
      }
      assert keys[..|keys|] == keys;
      r := Done(count == |keys|);
    }
  }

  /** An acquire or renew script from its raw arguments. */
  function Run(db: Db, keys: seq<Key>, op: Op, o: Owner, rawTtl: Option<string>, now: int): (Reply, Db) {
    match Preflight(rawTtl)
    case Invalid(e) => (Failed(e), db)
    case Valid(ttl) => Attempt(db, keys, op, o, ttl, now)
  }

  /** The first pass of a read-write script: it has cleaned the keys up to the one that stopped it. */
  ghost predicate FirstPass(before: Db, keys: seq<Key>, op: Op, o: Owner, now: int, passed: bool, after: Db) {
    var n := FirstRefusal(before, keys, op, o, now);
    if passed then n == |keys| && after == Rewrite(before, keys, Sweep, now)
    else n < |keys| && after == Rewrite(before, keys[..n + 1], Sweep, now)
  }

  // ----- proof steps of the loops -----

  lemma PreflightPositive(raw: Option<string>)
    ensures Preflight(raw).Valid? ==> 1 <= Preflight(raw).millis <= MAX_EXACT
  {
    if raw.Some? && Canonical(raw.value) {
      NumberPrintsBack(raw.value);
    }
  }

  /** The first pass cleans one more key, and finds there whether it may go on. */
  lemma CleanOneMore(db: Db, keys: seq<Key>, i: nat, op: Op, o: Owner, now: int)
    requires i < |keys| && !o.mode.Mutex?
    requires !TypeOf(db, keys[i], now).StringKey?
    requires i <= FirstRefusal(db, keys, op, o, now)
    ensures var before := Rewrite(db, keys[..i], Sweep, now);
            && !TypeOf(before, keys[i], now).StringKey?
            && var after := ZRemRangeByScore(before, keys[i], -now, now, now);
            && after == Rewrite(db, keys[..i + 1], Sweep, now)
            && !TypeOf(after, keys[i], now).StringKey?
            && (Admits(op, o, Get(after, keys[i], now), now) <==> i < FirstRefusal(db, keys, op, o, now))
  {
    var before := Rewrite(db, keys[..i], Sweep, now);
    RewriteAt(db, keys[..i], Sweep, now, keys[i]);
    SweptTwice(At(db, keys[i]), now);
    SweptTwice(Visible(At(db, keys[i]), now), now);
    RewriteMore(db, keys, i, Sweep, now);
    RefusalAt(db, keys, op, o, now, i);
  }

  lemma RenewScore(db: Db, k: Key, o: Owner, now: int)
    requires !o.mode.Mutex? && !TypeOf(db, k, now).StringKey?
    ensures var score := ZScore(db, k, o, now);
            Admits(Renew, o, Get(db, k, now), now)
            <==> score.Some? && if o.mode.Read? then score.value > now else score.value < -now
  {
  }

  lemma HolderCount(db: Db, k: Key, o: Owner, now: int)
    requires o.mode.Write? && !TypeOf(db, k, now).StringKey?
    ensures ZCard(db, k, now) == 0 <==> Admits(Acquire, o, Get(db, k, now), now)
  {
  }

  lemma NegativeCount(db: Db, k: Key, now: int)
    requires !TypeOf(db, k, now).StringKey?
    ensures ZCountNegative(db, k, now) == 0
       <==> forall m :: m in Scores(Get(db, k, now)) ==> Scores(Get(db, k, now))[m] >= 0
  {
    var scores := Scores(Get(db, k, now));
    var negative := set o | o in scores && scores[o] < 0;
    forall m | m in scores ensures scores[m] < 0 <==> m in negative {
    }
    if |negative| == 0 {
      assert negative == {};
    } else {
      var m :| m in negative;
    }
  }

  /** What the second pass of a read-write script does to one key. */
  function ClaimCommands(db: Db, k: Key, o: Owner, ttl: int, now: int): Db
    requires !TypeOf(db, k, now).StringKey? && !o.mode.Mutex?
  {
    if o.mode.Read? then
      var added := ZAdd(db, k, now + ttl, o, now);
      if PTtl(added, k, now) < ttl then PExpire(added, k, ttl, now) else added
    else
      PExpire(ZAdd(db, k, -(now + ttl), o, now), k, ttl, now)
  }

  lemma ClaimOneMore(db: Db, swept: Db, keys: seq<Key>, i: nat, o: Owner, ttl: int, now: int)
    requires i < |keys| && !o.mode.Mutex? && ttl > 0 && now >= 0
    requires !TypeOf(db, keys[i], now).StringKey?
    requires swept == Rewrite(db, keys, Sweep, now)
    ensures var before := Rewrite(swept, keys[..i], Claim(o, ttl), now);
            && !TypeOf(before, keys[i], now).StringKey?
            && ClaimCommands(before, keys[i], o, ttl, now)
               == Rewrite(swept, keys[..i + 1], Claim(o, ttl), now)
  {
    var k, p := keys[i], Claim(o, ttl);
    var before := Rewrite(swept, keys[..i], p, now);
    RewriteAt(swept, keys[..i], p, now, k);
    RewriteAt(db, keys, Sweep, now, k);
    SweptTwice(At(db, k), now);
    SweptTwice(Visible(At(db, k), now), now);
    ClaimStays(o, ttl, Swept(Visible(At(swept, k), now), now), now);
    RewriteMore(swept, keys, i, p, now);
    CommandsClaim(before, k, o, ttl, now);
  }

  /** On a key that needs no cleanup, the commands make the claim. */
  lemma CommandsClaim(db: Db, k: Key, o: Owner, ttl: int, now: int)
    requires !o.mode.Mutex? && ttl > 0 && now >= 0
    requires !TypeOf(db, k, now).StringKey? && Swept(Get(db, k, now), now) == Get(db, k, now)
    ensures ClaimCommands(db, k, o, ttl, now) == Put(db, k, Planned(Claim(o, ttl), At(db, k), now))
  {
    var after := ClaimCommands(db, k, o, ttl, now);
    var goal := Put(db, k, Planned(Claim(o, ttl), At(db, k), now));
    forall x ensures At(after, x) == At(goal, x) {
    }
    SameEverywhere(after, goal);
  }

  /** `count` has reached the number of keys passed iff no key repeated and all were owned. */
  predicate CountSoFar(db: Db, passed: seq<Key>, o: Owner, now: int, count: int) {
    && 0 <= count <= |passed|
    && (count == |passed| <==> Distinct(passed) && forall k :: k in passed ==> Owns(Get(db, k, now), o))
  }

  lemma CountOneMore(db: Db, keys: seq<Key>, i: nat, o: Owner, now: int, count: int)
    requires i < |keys| && CountSoFar(db, keys[..i], o, now, count)
    ensures var before := Rewrite(db, keys[..i], Yield(o), now);
            var found := Get(before, keys[i], now);
            && (found.Some? ==> At(before, keys[i]) == found)
            && CountSoFar(db, keys[..i + 1], o, now, count + if Owns(found, o) then 1 else 0)
  {
    var k := keys[i];
    var before := Rewrite(db, keys[..i], Yield(o), now);
    var found := Get(before, k, now);
    RewriteAt(db, keys[..i], Yield(o), now, k);
    assert keys[..i + 1] == keys[..i] + [k];
    if k in keys[..i] {
      assert !Owns(found, o);
      var j :| 0 <= j < i && keys[..i][j] == k;
      assert keys[..i + 1][j] == keys[..i + 1][i];
      assert !Distinct(keys[..i + 1]);
    } else {
      assert found == Get(db, k, now);
      assert Distinct(keys[..i + 1]) <==> Distinct(keys[..i]) by {
        assert forall x :: 0 <= x < i ==> keys[..i + 1][x] == keys[..i][x];
        if Distinct(keys[..i + 1]) {
          forall x, y | 0 <= x < y < i ensures keys[..i][x] != keys[..i][y] {
            assert keys[..i + 1][x] != keys[..i + 1][y];
          }
        }
      }
      assert forall x :: x in keys[..i + 1] <==> x in keys[..i] || x == k;
    }
  }
}
