/** What the six kinds of lock are to each other, in terms of the requests alone: every target reaches the scripts
    that make it shared or exclusive, on every key that it names. */
module Dispatch {
  import opened Redis
  import opened Scripts
  import opened LockTable
  import opened LockRequest
  import opened Protocol

  /** The keys that a target names are the keys that its commands carry. */
  lemma NamedAreKeys(t: LockTarget, k: Key)
    ensures Names(t, k) <==> k in t.Keys()
  {
  }

  lemma GrantHolds(db: Db, r: Request, ttl: nat, now: int, k: Key)
    requires Sound(db) && ttl > 0 && now >= 0
    requires Names(r.target, k) && Perform(db, r, Acquire, ttl, now).0 == Done(true)
    ensures var after := Perform(db, r, Acquire, ttl, now).1;
            Sound(after) && Holds(after, k, r.Owner(), now + ttl)
  {
    NamedAreKeys(r.target, k);
    PerformIsScript(db, r, Acquire, ttl, now);
    AttemptSound(db, r.target.Keys(), Acquire, r.Owner(), ttl, now);
    AttemptGrants(db, r.target.Keys(), Acquire, r.Owner(), ttl, now, k);
  }

  /** Once a lock is granted, no other token's request that names one of its keys is granted before the expiry, unless
      both are for shared locks. */
  lemma Excludes(db: Db, r: Request, q: Request, ttl: nat, other: nat, now: int, later: int, k: Key)
    requires Sound(db) && ttl > 0 && other > 0 && 0 <= now <= later < now + ttl
    requires r.token != q.token && Names(r.target, k) && Names(q.target, k)
    requires !(IsReader(r.target) && IsReader(q.target))
    requires Perform(db, r, Acquire, ttl, now).0 == Done(true)
    ensures Perform(Perform(db, r, Acquire, ttl, now).1, q, Acquire, other, later).0 != Done(true)
  {
    var held := Perform(db, r, Acquire, ttl, now).1;
    GrantHolds(db, r, ttl, now, k);
    NotGranted(held, r, q, other, now + ttl, later, k);
  }

  lemma NotGranted(held: Db, r: Request, q: Request, other: nat, until: int, later: int, k: Key)
    requires Sound(held) && Holds(held, k, r.Owner(), until) && 0 <= later < until && other > 0
    requires r.token != q.token && Names(q.target, k) && !(IsReader(r.target) && IsReader(q.target))
    ensures Perform(held, q, Acquire, other, later).0 != Done(true)
  {
    if Perform(held, q, Acquire, other, later).0 == Done(true) {
      var after := Perform(held, q, Acquire, other, later).1;
      GrantHolds(held, q, other, later, k);
      PerformKeeps(held, q, Acquire, other, later, k, r.Owner(), until);
      assert SlotOk(At(after, k));
      SharedOnlyByReaders(At(after, k), r.Owner(), q.Owner());
      assert false;
    }
  }

  /** Shared locks do not exclude each other: a reader whose keys are all held by another reader is granted. */
  lemma ReadersShare(db: Db, r: Request, q: Request, ttl: nat, other: nat, now: int, later: int)
    requires Sound(db) && ttl > 0 && other > 0 && 0 <= now <= later < now + ttl && later + other <= MAX_EXACT
    requires IsReader(r.target) && IsReader(q.target) && forall k :: Names(q.target, k) ==> Names(r.target, k)
    requires Perform(db, r, Acquire, ttl, now).0 == Done(true)
    ensures Perform(Perform(db, r, Acquire, ttl, now).1, q, Acquire, other, later).0 == Done(true)
  {
    var held := Perform(db, r, Acquire, ttl, now).1;
    PerformIsScript(db, r, Acquire, ttl, now);
    AttemptSound(db, r.target.Keys(), Acquire, r.Owner(), ttl, now);
    forall k | k in q.target.Keys() ensures Holds(held, k, r.Owner(), now + ttl) {
      NamedAreKeys(q.target, k);
      GrantHolds(db, r, ttl, now, k);
    }
    ReaderJoins(held, q.target.Keys(), r.Owner(), q.Owner(), other, now + ttl, later);
    PerformIsScript(held, q, Acquire, other, later);
  }

  lemma ReaderJoins(held: Db, keys: seq<Key>, first: Owner, o: Owner, ttl: int, until: int, now: int)
    requires Sound(held) && ttl > 0 && 0 <= now < until && now + ttl <= MAX_EXACT
    requires first.mode.Read? && o.mode.Read? && forall k :: k in keys ==> Holds(held, k, first, until)
    ensures Attempt(held, keys, Acquire, o, ttl, now).0 == Done(true)
  {
    forall k | k in keys
      ensures !TypeOf(held, k, now).StringKey?
      ensures forall h :: h in Holders(View(held, now), k) ==> !h.mode.Write?
    {
      assert Holds(held, k, first, until);
      assert SlotOk(At(held, k));
      RowIsLive(held, now, k);
      forall h | h in Holders(View(held, now), k) && h != first ensures h.mode.Read? {
        SharedOnlyByReaders(At(held, k), first, h);
      }
    }
    GrantedIff(held, keys, Acquire, o, ttl, now);
  }
}
