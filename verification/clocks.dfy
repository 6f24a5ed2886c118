/** The one place where clocks finer than a millisecond show: the scripts cut the server's time down to whole
    milliseconds, a client's Instant does not.  All times here are microseconds of one clock. */
module Clocks {
  import opened Redis
  import opened Scripts
  import opened LockTable

  /** The server's `now` in milliseconds. */
  function ServerMillis(micros: nat): nat { micros / 1000 }

  /** The lease that was asked for at `start` is active on the client. */
  predicate ActiveOnClient(start: nat, ttlMillis: nat, t: nat) {
    t < start + 1000 * ttlMillis
  }

  /** A read-write holder granted at `granted` is dead for the scripts. */
  predicate DeadOnServer(granted: nat, ttlMillis: nat, t: nat) {
    ServerMillis(t) >= ServerMillis(granted) + ttlMillis
  }

  /** A read-write lease can look active on the client after its expiry at the server, but only in the
      last millisecond before the client's own deadline. */
  lemma SlackBelowOneMillisecond(start: nat, granted: nat, ttlMillis: nat, t: nat)
    requires start <= granted <= t
    requires ActiveOnClient(start, ttlMillis, t) && DeadOnServer(granted, ttlMillis, t)
    ensures start + 1000 * ttlMillis - t < 1000
    ensures forall x :: granted <= x <= t && x + 1000 <= t ==> !DeadOnServer(granted, ttlMillis, x)
  {
    assert t >= 1000 * (granted / 1000 + ttlMillis);
  }

  /** The slack is real. */
  lemma SlackIsNotZero()
    ensures ActiveOnClient(999, 1, 1000) && DeadOnServer(999, 1, 1000)
  {
  }

  /** There is none exactly when the command was on its way for at least the fraction of a millisecond that
      the server cut off its grant, or for the whole TTL. */
  lemma NoSlackIff(start: nat, granted: nat, ttlMillis: nat)
    requires start <= granted
    ensures (forall t :: granted <= t && ActiveOnClient(start, ttlMillis, t) ==> !DeadOnServer(granted, ttlMillis, t))
       <==> start + granted % 1000 <= granted || start + 1000 * ttlMillis <= granted
  {
    var dead := 1000 * (granted / 1000 + ttlMillis);
    assert forall t: nat :: DeadOnServer(granted, ttlMillis, t) <==> t >= dead;
    if start + granted % 1000 > granted && start + 1000 * ttlMillis > granted {
      var t := if dead > granted then dead else granted;
      assert granted <= t && ActiveOnClient(start, ttlMillis, t) && DeadOnServer(granted, ttlMillis, t);
    }
  }

  // ----- clocks inside a script -----

  /** A claim in which PTTL is answered at `read` and the deadline is set at `put`, milliseconds that may be
      later than the script's own `now`. */
  function ClaimedLate(o: Owner, ttl: int, e: Option<Entry>, now: int, read: int, put: int): Entry {
    match o.mode
    case Mutex => Entry(Str(o.token), Some(put + ttl))
    case Read =>
      Entry(ZSet(Scores(e)[o := now + ttl]),
            if DeadlineOf(e).Some? && DeadlineOf(e).value - read >= ttl then DeadlineOf(e) else Some(put + ttl))
    case Write => Entry(ZSet(Scores(e)[o := -(now + ttl)]), Some(put + ttl))
  }

  /** Commands that read a later clock do no harm: the key keeps its shape and outlives its members, the owner
      has its full TTL, nobody else's lease is shortened; on one clock it is the claim of the scripts. */
  lemma LateClocksDoNoHarm(op: Op, o: Owner, ttl: int, e: Option<Entry>, now: int, read: int, put: int,
                           h: Owner, until: int)
    requires SlotOk(e) && ttl > 0 && 0 <= now <= read <= put
    requires !op.Release? && Admits(op, o, e, now)
    requires !o.mode.Mutex? && e.Some? ==> e.value.value.ZSet?
    ensures var after := ClaimedLate(o, ttl, e, now, read, put);
            && EntryOk(after)
            && HoldsAt(Some(after), o, now + ttl)
            && (h != o && HoldsAt(e, h, until) ==> HoldsAt(Some(after), h, until))
            && ClaimedLate(o, ttl, e, now, now, now) == Claimed(o, ttl, e, now)
  {
    var after := ClaimedLate(o, ttl, e, now, read, put);
    ClaimedOk(op, o, ttl, e, now);
    assert EntryOk(Claimed(o, ttl, e, now));
    if !o.mode.Mutex? {
      assert Scores(Some(after)) == Scores(Some(Claimed(o, ttl, e, now)));
      assert o in Scores(Some(after));
    }
    if h != o && HoldsAt(e, h, until) {
      if op.Renew? {
        SharedOnlyByReaders(e, o, h);
      }
    }
  }
}
