/** Acquisition options.  A Duration is a number of nanoseconds. */
module Options {
  import opened Redis
  import opened Scripts
  import opened TtlText

  type Duration = nat

  const MILLISECOND: nat := 1000000

  datatype AcquireOptions = AcquireOptions(
    retryInterval: Duration,
    lockTimeout: Option<Duration>,
    ttl: Duration,
    renewInterval: Option<Option<Duration>>)  // None: disabled, Some(None): half of the TTL

  datatype BuildError =
    TtlTooShort | TtlTooLong | RetryIntervalIsZero | RenewIntervalTooShort | RenewIntervalNotLessThanTtl

  datatype Built = Accepted(options: AcquireOptions) | Rejected(error: BuildError)

  function AsMillis(d: Duration): nat { d / MILLISECOND }

  /** The TTL cut down to whole milliseconds. */
  function EffectiveTtl(o: AcquireOptions): Duration {
    AsMillis(o.ttl) * MILLISECOND
  }

  function EffectiveRenewInterval(o: AcquireOptions): Option<Duration> {
    match o.renewInterval
    case None => None
    case Some(None) => Some(EffectiveTtl(o) / 2)
    case Some(Some(interval)) => Some(interval)
  }

  function Build(o: AcquireOptions): Built {
    if AsMillis(o.ttl) == 0 then Rejected(TtlTooShort)
    else if AsMillis(o.ttl) > MAX_EXACT then Rejected(TtlTooLong)
    else if o.retryInterval == 0 then Rejected(RetryIntervalIsZero)
    else match EffectiveRenewInterval(o)
      case None => Accepted(o)
      case Some(interval) =>
        if AsMillis(interval) == 0 then Rejected(RenewIntervalTooShort)
        else if interval >= EffectiveTtl(o) then Rejected(RenewIntervalNotLessThanTtl)
        else Accepted(o)
  }

  /** Which options are accepted, in terms of the caller's own numbers. */
  lemma AcceptedExactly(o: AcquireOptions)
    ensures Build(o).Accepted?
       <==> && MILLISECOND <= o.ttl < (MAX_EXACT + 1) * MILLISECOND
            && o.retryInterval > 0
            && match o.renewInterval
               case None => true
               case Some(None) => o.ttl >= 2 * MILLISECOND
               case Some(Some(i)) => MILLISECOND <= i < o.ttl - o.ttl % MILLISECOND
  {
    assert EffectiveTtl(o) == o.ttl - o.ttl % MILLISECOND;
    if o.renewInterval == Some(None) {
      assert EffectiveTtl(o) / 2 >= MILLISECOND <==> EffectiveTtl(o) >= 2 * MILLISECOND;
    }
  }

  /** Why options are rejected: the first that applies of a TTL that is too short, one that is too long, no pause
      between attempts, an interval that is too short, one that is too long. */
  lemma RejectedExactly(o: AcquireOptions)
    ensures var b := Build(o);
            && (b == Rejected(TtlTooShort) <==> o.ttl < MILLISECOND)
            && (b == Rejected(TtlTooLong) <==> o.ttl >= 9007199254740992 * MILLISECOND)
            && (b == Rejected(RetryIntervalIsZero) <==> TtlFits(o) && o.retryInterval == 0)
            && (b == Rejected(RenewIntervalTooShort) <==>
                  TtlFits(o) && o.retryInterval > 0 &&
                  ((o.renewInterval == Some(None) && o.ttl < 2 * MILLISECOND)
                   || (exists i :: o.renewInterval == Some(Some(i)) && i < MILLISECOND)))
            && (b == Rejected(RenewIntervalNotLessThanTtl) <==>
                  TtlFits(o) && o.retryInterval > 0 &&
                  exists i :: o.renewInterval == Some(Some(i)) && i >= MILLISECOND && i >= o.ttl - o.ttl % MILLISECOND)
            && (b.Accepted? ==> b.options == o)
  {
    assert EffectiveTtl(o) == o.ttl - o.ttl % MILLISECOND;
    assert o.ttl >= MILLISECOND ==> EffectiveTtl(o) >= MILLISECOND;
    if o.renewInterval == Some(None) {
      assert EffectiveTtl(o) / 2 >= MILLISECOND <==> EffectiveTtl(o) >= 2 * MILLISECOND;
    }
  }

  predicate TtlFits(o: AcquireOptions) {
    MILLISECOND <= o.ttl < 9007199254740992 * MILLISECOND
  }

  /** Automatic renewal is due after half of the whole milliseconds of the TTL. */
  lemma RenewalIsDue(o: AcquireOptions)
    ensures o.renewInterval.None? <==> EffectiveRenewInterval(o).None?
    ensures forall i :: o.renewInterval == Some(Some(i)) ==> EffectiveRenewInterval(o) == Some(i)
    ensures o.renewInterval == Some(None) ==>
              EffectiveRenewInterval(o).Some? && 2 * EffectiveRenewInterval(o).value == o.ttl - o.ttl % MILLISECOND
  {
    assert EffectiveTtl(o) == AsMillis(o.ttl) * 2 * 500000;
  }

  /** For accepted options the number the lease counts with, the text sent to Redis and the number the
      script computes with are one and the same, and renewal has a positive margin before the deadline. */
  lemma AcceptedTtlIsExact(o: AcquireOptions)
    requires Build(o).Accepted?
    ensures var millis := AsMillis(EffectiveTtl(o));
            && EffectiveTtl(o) == millis * MILLISECOND <= o.ttl < EffectiveTtl(o) + MILLISECOND
            && Preflight(Some(Decimal(millis))) == Valid(millis)
            && 1 <= millis <= 9007199254740991
    ensures EffectiveRenewInterval(o).Some? ==> 0 < EffectiveRenewInterval(o).value < EffectiveTtl(o)
  {
    TtlRoundTrip(AsMillis(o.ttl));
  }
}
