/** Orphans and stragglers: what an abandoned acquisition can still block, and for how long. */
module Recovery {
  import opened Redis
  import opened Scripts
  import opened LockTable
  import opened LockRequest
  import opened Protocol

  /** When the stored owner's own lease ends. */
  function ExpiryOf(e: Option<Entry>, o: Owner): int
    requires Owns(e, o) && e.value.deadline.Some?
  {
    match e.value.value
    case Str(_) => e.value.deadline.value
    case ZSet(scores) => Abs(scores[o])
  }

  /** Every owner after an attempt was there before with the same expiry, or is the one that was granted. */
  lemma AttemptOwners(db: Db, keys: seq<Key>, op: Op, o: Owner, ttl: int, now: int, k: Key, h: Owner)
    requires Sound(db) && !op.Release? && ttl > 0 && now >= 0
    requires Owns(At(Attempt(db, keys, op, o, ttl, now).1, k), h)
    ensures var (r, after) := Attempt(db, keys, op, o, ttl, now);
            && At(after, k).value.deadline.Some?
            && if h == o && r == Done(true) && k in keys then ExpiryOf(At(after, k), h) == now + ttl
               else Owns(At(db, k), h) && At(db, k).value.deadline.Some?
                    && ExpiryOf(At(after, k), h) == ExpiryOf(At(db, k), h)
  {
    assert SlotOk(At(db, k));
    var effect := EffectAt(db, keys, op, o, ttl, now, k);
  }

  lemma GiveUpOwners(db: Db, keys: seq<Key>, o: Owner, now: int, k: Key, h: Owner)
    requires Sound(db)
    requires Owns(At(GiveUp(db, keys, o, now).1, k), h)
    ensures var after := GiveUp(db, keys, o, now).1;
            && At(after, k).value.deadline.Some?
            && Owns(At(db, k), h) && At(db, k).value.deadline.Some?
            && ExpiryOf(At(after, k), h) == ExpiryOf(At(db, k), h)
  {
    assert SlotOk(At(db, k));
    RewriteAt(db, keys, Yield(o), now, k);
  }

  /** The last acquire or renew that was executed for a stored owner gave it its expiry. */
  ghost predicate Justified(w: World, k: Key, o: Owner, expiry: int) {
    exists r :: r in w.receipts && Positive(r) && r.command.request.Owner() == o
             && k in r.command.request.target.Keys() && r.at + r.command.ttl == expiry
  }

  ghost predicate AllJustified(w: World) {
    forall k, o :: Owns(At(w.db, k), o) ==>
      At(w.db, k).value.deadline.Some? && Justified(w, k, o, ExpiryOf(At(w.db, k), o))
  }

  lemma JustifiedGrows(w: World, after: World, k: Key, o: Owner, expiry: int)
    requires Justified(w, k, o, expiry) && w.receipts <= after.receipts
    ensures Justified(after, k, o, expiry)
  {
    var r :| r in w.receipts && Positive(r) && r.command.request.Owner() == o
             && k in r.command.request.target.Keys() && r.at + r.command.ttl == expiry;
    assert r in after.receipts;
  }

  lemma ExecuteJustified(w: World, c: Command)
    requires Sound(w.db) && w.now >= 0 && AllJustified(w) && (c.op.Release? || c.ttl > 0)
    ensures AllJustified(AfterExecute(w, c))
  {
    var after := AfterExecute(w, c);
    var keys, me := c.request.target.Keys(), c.request.Owner();
    PerformIsScript(w.db, c.request, c.op, c.ttl, w.now);
    forall k, o | Owns(At(after.db, k), o)
      ensures At(after.db, k).value.deadline.Some? && Justified(after, k, o, ExpiryOf(At(after.db, k), o))
    {
      if c.op.Release? {
        GiveUpOwners(w.db, keys, me, w.now, k, o);
        JustifiedGrows(w, after, k, o, ExpiryOf(At(w.db, k), o));
      } else {
        AttemptOwners(w.db, keys, c.op, me, c.ttl, w.now, k, o);
        var reply := Attempt(w.db, keys, c.op, me, c.ttl, w.now).0;
        if o == me && reply == Done(true) && k in keys {
          var r := Receipt(c, w.now, reply);
          assert r in after.receipts && Positive(r) && r.command.request.Owner() == o;
        } else {
          JustifiedGrows(w, after, k, o, ExpiryOf(At(w.db, k), o));
        }
      }
    }
  }

  lemma SmallerDbJustified(w: World, after: World)
    requires AllJustified(w) && after.receipts == w.receipts
    requires forall k :: At(after.db, k).Some? ==> At(after.db, k) == At(w.db, k)
    ensures AllJustified(after)
  {
    forall k, o | Owns(At(after.db, k), o)
      ensures At(after.db, k).value.deadline.Some? && Justified(after, k, o, ExpiryOf(At(after.db, k), o))
    {
      assert At(after.db, k) == At(w.db, k);
      JustifiedGrows(w, after, k, o, ExpiryOf(At(w.db, k), o));
    }
  }

  lemma StepKeepsJustified(w: World, l: Label)
    requires Inv(w) && Enabled(w, l) && AllJustified(w)
    ensures AllJustified(After(w, l))
  {
    match l
    case Tick(_) => SmallerDbJustified(w, After(w, l));
    case EvictKey(_) => SmallerDbJustified(w, After(w, l));
    case Execute(c) =>
      CommandTtl(w, c);
      ExecuteJustified(w, c);
    case _ =>
      ClientsLeaveServerAlone(w, l);
      SmallerDbJustified(w, After(w, l));
  }

  lemma {:induction false} RunKeepsJustified(w: World, run: seq<Label>)
    requires Inv(w) && AllJustified(w) && Legal(w, run)
    ensures Inv(End(w, run)) && AllJustified(End(w, run))
    decreases |run|
  {
    if run != [] {
      StepKeepsInv(w, run[0]);
      StepKeepsJustified(w, run[0]);
      RunKeepsJustified(After(w, run[0]), run[1..]);
    }
  }

  /** A stored owner of the key whose last executed acquire or renew is at most one TTL old. */
  ghost predicate RecentOwner(w: World, k: Key) {
    exists r :: r in w.receipts && Positive(r) && k in r.command.request.target.Keys()
             && Owns(At(w.db, k), r.command.request.Owner()) && w.now <= r.at + r.command.ttl
  }

  /** Crash recovery: whatever clients have crashed, a refused acquisition is refused because of an owner
      that executed an acquire or renew within the last TTL.  An orphan blocks nobody longer than that. */
  lemma BlockedOnlyWithinTtl(start: nat, run: seq<Label>, keys: seq<Key>, o: Owner, ttl: int)
    requires Legal(Initial(start), run) && ttl > 0
    requires var w := End(Initial(start), run);
             && RightKinds(w.db, keys, o.mode, w.now)
             && (o.mode.Mutex? || w.now + ttl <= MAX_EXACT)
             && Attempt(w.db, keys, Acquire, o, ttl, w.now).0 != Done(true)
    ensures exists k :: k in keys && RecentOwner(End(Initial(start), run), k)
  {
    var w := End(Initial(start), run);
    InitialInv(start);
    RunKeepsJustified(Initial(start), run);
    SucceedsIffFree(w.db, keys, Acquire, o, ttl, w.now);
    var k :| k in keys && !Free(Acquire, o, Holders(View(w.db, w.now), k));
    RowIsLive(w.db, w.now, k);
    var h :| h in Live(At(w.db, k), w.now);
    LiveOwnerIsRecent(w, k, h);
  }

  lemma LiveOwnerIsRecent(w: World, k: Key, h: Owner)
    requires AllJustified(w) && Sound(w.db) && h in Live(At(w.db, k), w.now)
    ensures RecentOwner(w, k)
  {
    assert SlotOk(At(w.db, k));
    assert Owns(At(w.db, k), h);
    assert Justified(w, k, h, ExpiryOf(At(w.db, k), h));
  }

  /** Every stored lock key has a finite deadline. */
  lemma EveryKeyExpires(start: nat, run: seq<Label>, k: Key)
    requires Legal(Initial(start), run) && k in End(Initial(start), run).db
    ensures End(Initial(start), run).db[k].deadline.Some?
  {
    var w := End(Initial(start), run);
    RunsAreSound(start, run);
    assert SlotOk(At(w.db, k));
  }

  /** The run executes no acquisition of the token. */
  predicate NoAcquire(run: seq<Label>, u: Token) {
    forall i :: 0 <= i < |run| && run[i].Execute? && run[i].command.request.token == u
      ==> !run[i].command.op.Acquire?
  }

  lemma ExecuteAddsNobody(db: Db, c: Command, now: int, k: Key, h: Owner)
    requires !Owns(Get(db, k, now), h) && (c.op.Acquire? ==> c.request.token != h.token)
    ensures !Owns(Get(Perform(db, c.request, c.op, c.ttl, now).1, k, now), h)
  {
    PerformIsScript(db, c.request, c.op, c.ttl, now);
    var keys, o := c.request.target.Keys(), c.request.Owner();
    if c.op.Release? {
      RewriteAt(db, keys, Yield(o), now, k);
    } else {
      var effect := EffectAt(db, keys, c.op, o, c.ttl, now, k);
    }
  }

  /** No resurrection: an owner that does not hold a key, and whose acquire commands have all been executed,
      never holds it again, however many delayed or repeated renewals and releases are still executed. */
  lemma {:induction false} NoResurrection(w: World, run: seq<Label>, k: Key, h: Owner)
    requires Legal(w, run) && !Owns(Get(w.db, k, w.now), h) && NoAcquire(run, h.token)
    ensures !Owns(Get(End(w, run).db, k, End(w, run).now), h)
    decreases |run|
  {
    if run != [] {
      var l := run[0];
      if l.Execute? {
        ExecuteAddsNobody(w.db, l.command, w.now, k, h);
      }
      assert NoAcquire(run[1..], h.token) by {
        assert forall i :: 0 <= i < |run[1..]| ==> run[1..][i] == run[i + 1];
      }
      NoResurrection(After(w, l), run[1..], k, h);
    }
  }

  /** In particular from the moment its release has been executed. */
  lemma ReleasedForGood(w: World, run: seq<Label>, c: Command, k: Key)
    requires c in w.sent && c.op.Release? && k in c.request.target.Keys()
    requires Legal(AfterExecute(w, c), run) && NoAcquire(run, c.request.token)
    ensures var end := End(AfterExecute(w, c), run); !Owns(Get(end.db, k, end.now), c.request.Owner())
  {
    ReleaseIsExact(w.db, c.request.target.Keys(), c.request.Owner(), w.now, k);
    NoResurrection(AfterExecute(w, c), run, k, c.request.Owner());
  }
}
