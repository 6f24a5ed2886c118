/** The local state of a lock lease.  Clock readings are arguments: a method that reads the clock twice
    takes two readings. */
module Leases {
  datatype LeaseState = Active | Lost | Released

  datatype LeaseData = LeaseData(state: LeaseState, start: int, ttl: nat)

  /** Instant::elapsed saturates at zero. */
  function Elapsed(start: int, now: int): nat {
    if now > start then now - start else 0
  }

  function Refreshed(d: LeaseData, now: int): LeaseData {
    if d.state.Active? && Elapsed(d.start, now) >= d.ttl then d.(state := Lost) else d
  }

  /** What a caller of `lease_state` sees. */
  predicate ActiveAt(d: LeaseData, now: int) {
    Refreshed(d, now).state.Active?
  }

  function Lose(d: LeaseData): LeaseData {
    if d.state.Active? then d.(state := Lost) else d
  }

  function Release(d: LeaseData): LeaseData {
    d.(state := Released)
  }

  /** A successful reply to a renewal sent at `start`: the old lease is checked at one instant, the new one
      at the next. */
  function Renew(d: LeaseData, start: int, ttl: nat, now: int, later: int): LeaseData {
    var refreshed := Refreshed(d, now);
    if !refreshed.state.Active? then refreshed
    else if Elapsed(start, later) >= ttl then refreshed.(state := Lost)
    else LeaseData(Active, start, ttl)
  }

  /** The time left on the second of two clock readings, zero for an inactive lease. */
  function Left(d: LeaseData, now: int, later: int): nat {
    if Refreshed(d, now).state.Active? && Elapsed(d.start, later) < d.ttl then d.ttl - Elapsed(d.start, later) else 0
  }

  /** It is the time until the lease stops being active. */
  lemma LeftIsUntilExpiry(d: LeaseData, now: int, later: int, t: int)
    requires d.start <= now <= later <= t
    ensures ActiveAt(d, t) <==> t < later + Left(d, now, later)
  {
  }

  /** An inactive lease stays inactive, and an active one moves its deadline only by a renewal. */
  lemma InactiveForever(d: LeaseData, start: int, ttl: nat, now: int, later: int)
    requires !ActiveAt(d, now)
    ensures !Renew(d, start, ttl, now, later).state.Active?
    ensures now <= later ==> !ActiveAt(d, later)
    ensures !Refreshed(d, now).state.Active? && !Lose(d).state.Active? && !Release(d).state.Active?
  {
  }

  /** From a reply on, a lease is active at an instant exactly if it was still active when the reply was looked
      at, and the instant is less than a TTL after the renewal was sent, however late the reply came. */
  lemma RenewedUntil(d: LeaseData, start: int, ttl: nat, now: int, later: int, t: int)
    requires start <= later <= t
    ensures ActiveAt(Renew(d, start, ttl, now, later), t) <==> ActiveAt(d, now) && t < start + ttl
  {
  }

  /** A lease whose deadline passes between the two readings is renewed all the same. */
  lemma DeadlineBetweenReadings()
    ensures var d := LeaseData(Active, 0, 10);
            && !ActiveAt(d, 12)
            && ActiveAt(Renew(d, 5, 10, 9, 12), 12)
  {
  }

  // ----- waiting for the end -----

  /** Timers are set for a day at most. */
  const LONGEST_TIMER: nat := 86400000

  /** What `wait_until_inactive` finds in one turn, others having renewed or ended the lease meanwhile, and
      its three clock readings. */
  datatype Look = Look(found: LeaseData, now: int, again: int, later: int)

  /** The timer that it sets when it finds the lease active. */
  function Timer(l: Look): nat {
    var left := Left(Refreshed(l.found, l.now), l.again, l.later);
    if left < LONGEST_TIMER then left else LONGEST_TIMER
  }

  /** The timer never lets the waiter sleep past the deadline; and when it rings for a lease with less than
      a day left that nobody has renewed, the lease has ended. */
  lemma TimersRingInTime(l: Look, next: Look)
    requires l.found.start <= l.now <= l.again <= l.later && ActiveAt(l.found, l.now)
    ensures l.later + Timer(l) <= l.found.start + l.found.ttl || Timer(l) == 0
    ensures (next.found == Refreshed(Refreshed(l.found, l.now), l.again) && next.now >= l.later + Timer(l)
             && l.found.start + l.found.ttl - l.later < LONGEST_TIMER)
            ==> !ActiveAt(next.found, next.now)
  {
    LeftIsUntilExpiry(l.found, l.again, l.later, if next.now > l.later then next.now else l.later);
  }

  class Lease {
    var data: LeaseData
    ghost var notified: nat  // notifications sent on the watch channel

    constructor (start: int, ttl: nat)
      ensures data == LeaseData(Active, start, ttl) && notified == 0
    {
      data := LeaseData(Active, start, ttl);
      notified := 0;
    }

    method Notify()
      modifies this`notified
      ensures notified == old(notified) + 1
    {
      notified := notified + 1;
    }

    /** Every method that makes the lease inactive, or moves its deadline, notifies the waiters. */
    twostate predicate Announced()
      reads this
    {
      notified >= old(notified) && (data != old(data) ==> notified > old(notified))
    }

    /** The rest of the lease is as it was. */
    twostate predicate OnlyState()
      reads this
    {
      data.start == old(data).start && data.ttl == old(data).ttl
    }

    method Refresh(now: int)
      modifies this
      ensures data == Refreshed(old(data), now) && Announced() && OnlyState()
      ensures data.state == if old(data).state.Active? && Elapsed(data.start, now) >= data.ttl then Lost
                            else old(data).state
    {
      if data.state.Active? && Elapsed(data.start, now) >= data.ttl {
        data := data.(state := Lost);
        Notify();
      }
    }

    method State(now: int) returns (state: LeaseState)
      modifies this
      ensures data == Refreshed(old(data), now) && state == data.state && Announced()
    {
      Refresh(now);
      state := data.state;
    }

    /** The second reading may already be past the deadline that the first one was not. */
    method Remaining(now: int, later: int) returns (left: nat)
      modifies this
      ensures data == Refreshed(old(data), now) && left == Left(old(data), now, later) && Announced()
    {
      Refresh(now);
      if data.state.Active? {
        var elapsed := Elapsed(data.start, later);
        left := if data.ttl > elapsed then data.ttl - elapsed else 0;
      } else {
        left := 0;
      }
    }

    method RenewWith(start: int, ttl: nat, now: int, later: int) returns (renewed: bool)
      modifies this
      ensures data == Renew(old(data), start, ttl, now, later) && Announced()
      ensures renewed <==> ActiveAt(old(data), now) && Elapsed(start, later) < ttl
      ensures renewed ==> data == LeaseData(Active, start, ttl)
      ensures !renewed ==> OnlyState() && data.state == if old(data).state.Active? then Lost else old(data).state
    {
      Refresh(now);
      if !data.state.Active? {
        return false;
      }
      if Elapsed(start, later) >= ttl {
        data := data.(state := Lost);
        Notify();
        return false;
      }
      data := LeaseData(Active, start, ttl);
      Notify();
      renewed := true;
    }

    method Forfeit()
      modifies this
      ensures data == Lose(old(data)) && Announced() && OnlyState()
      ensures data.state == if old(data).state.Active? then Lost else old(data).state
    {
      if data.state.Active? {
        data := data.(state := Lost);
        Notify();
      }
    }

    method Finish()
      modifies this
      ensures data == Release(old(data)) && Announced() && OnlyState() && data.state == Released
    {
      data := data.(state := Released);
      Notify();
    }

    /** Returns at the first look that finds the lease inactive, and not before.  Between two looks the
        lease belongs to the others. */
    method WaitUntilInactive(looks: seq<Look>) returns (state: LeaseState, timers: seq<nat>)
      modifies this
      ensures |timers| <= |looks|
      ensures forall i :: 0 <= i < |timers| ==> ActiveAt(looks[i].found, looks[i].now) && timers[i] == Timer(looks[i])
      ensures |timers| < |looks| ==>
                && !ActiveAt(looks[|timers|].found, looks[|timers|].now)
                && state != Active && state == data.state
                && data == Refreshed(looks[|timers|].found, looks[|timers|].now)
      ensures |timers| == |looks| ==> state == Active
    {
      timers := [];
      for i := 0 to |looks|
        invariant |timers| == i
        invariant forall j :: 0 <= j < i ==> ActiveAt(looks[j].found, looks[j].now) && timers[j] == Timer(looks[j])
      {
        data := looks[i].found;
        state := State(looks[i].now);
        if state != Active {
          return;
        }
        var left := Remaining(looks[i].again, looks[i].later);
        timers := timers + [if left < LONGEST_TIMER then left else LONGEST_TIMER];
      }
      state := Active;
    }
  }
}
