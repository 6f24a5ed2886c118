/** The renewal loop: when it wakes up, what it sends, and what becomes of the lease.
    A round is what the outside world does to one turn of the loop; the loop itself is `RunRenewal`. */
module Renewal {
  import opened Leases
  import S = Sessions
  import opened SessionPlays

  datatype Answer = Renewed | Refused | Error

  /** `stopped`: the stop signal came first.  Otherwise the wait ended at `wake`, the command was sent at
      `start`, its answer was heard at `heard`, and the lease read the clock at `again` and `later`. */
  datatype Round = Round(stopped: bool, wake: int, start: int, answer: Answer, heard: int, again: int, later: int)

  datatype Settings = Settings(interval: nat, ttl: nat, retry: nat)

  datatype State = State(lease: LeaseData, running: bool, waitStart: int, wait: nat, sent: nat)

  function Min(a: nat, b: nat): nat { if a < b then a else b }

  /** When the next attempt is due. */
  function Due(s: State): int { s.waitStart + s.wait }

  function Turn(s: State, r: Round, c: Settings): State {
    var seen := Refreshed(s.lease, r.wake);
    if !s.running then s
    else if r.stopped then s.(running := false)
    else if !seen.state.Active? then s.(lease := seen, running := false)
    else match r.answer
      case Renewed =>
        var lease := Renew(seen, r.start, c.ttl, r.again, r.later);
        if lease.state.Active? then State(lease, true, r.start, c.interval, s.sent + 1)
        else s.(lease := lease, running := false, sent := s.sent + 1)
      case Refused => s.(lease := Lose(seen), running := false, sent := s.sent + 1)
      case Error =>
        State(Refreshed(seen, r.again), true, r.heard, Min(c.retry, Left(seen, r.again, r.later) / 2), s.sent + 1)
  }

  function Begin(lease: LeaseData, first: int, c: Settings): State {
    State(lease, true, first, c.interval, 0)
  }

  function Turns(s: State, rounds: seq<Round>, c: Settings): State {
    if rounds == [] then s else Turn(Turns(s, rounds[..|rounds| - 1], c), rounds[|rounds| - 1], c)
  }

  // ----- the loop -----

  /** An attempt went out in a round that found the lease `before`, was not told to stop and saw it active: what its
      answer made of the lease, and when the next attempt is due if there is one. */
  predicate WentOut(r: Round, before: LeaseData, due: int, after: LeaseData, next: int, c: Settings) {
    && !r.stopped && ActiveAt(before, r.wake)
    && match r.answer
       case Refused => after == before.(state := Lost) && next == due
       case Renewed =>
         if ActiveAt(before, r.again) && Elapsed(r.start, r.later) < c.ttl
         then after == LeaseData(Active, r.start, c.ttl) && next == r.start + c.interval
         else after == before.(state := Lost) && next == due
       case Error =>
         && after == before.(state := if ActiveAt(before, r.again) then Active else Lost)
         && next == r.heard + Min(c.retry, Left(before, r.again, r.later) / 2)
  }

  /** The loop ends with an answer that ends the lease; after an error it goes round once more. */
  predicate GoesOn(r: Round, after: LeaseData) {
    r.answer.Error? || (r.answer.Renewed? && after.state.Active?)
  }

  /** What the attempts of a loop did, one after the other: `found` is the lease as each of them found it and as the
      last one left it, `dues` when each of them was due and when the next one would be. */
  predicate Chain(rounds: seq<Round>, sent: seq<int>, dues: seq<int>, found: seq<LeaseData>, c: Settings) {
    && |found| == |dues| == |sent| + 1 && |sent| <= |rounds|
    && (forall i :: 0 <= i < |sent| ==>
          sent[i] == rounds[i].start && WentOut(rounds[i], found[i], dues[i], found[i + 1], dues[i + 1], c))
    && (forall i :: 0 < i < |sent| ==> GoesOn(rounds[i - 1], found[i]))
  }

  /** Whether the loop is still there after `n` attempts that left the lease `last`. */
  predicate Runs(rounds: seq<Round>, n: nat, last: LeaseData)
    requires n <= |rounds|
  {
    n == 0 || GoesOn(rounds[n - 1], last)
  }

  /** How the loop ended, if it did: with its last answer; or it was told to stop or found the lease inactive. */
  predicate Finished(rounds: seq<Round>, n: nat, last: LeaseData, lease: LeaseData)
    requires n <= |rounds|
  {
    if n == |rounds| || !Runs(rounds, n, last) then lease == last
    else if rounds[n].stopped then lease == last
    else !ActiveAt(last, rounds[n].wake) && lease == Refreshed(last, rounds[n].wake)
  }

  lemma ChainGrows(rounds: seq<Round>, sent: seq<int>, dues: seq<int>, found: seq<LeaseData>, c: Settings,
                   lease: LeaseData, next: int)
    requires Chain(rounds, sent, dues, found, c) && |sent| < |rounds| && Runs(rounds, |sent|, found[|sent|])
    requires WentOut(rounds[|sent|], found[|sent|], dues[|sent|], lease, next, c)
    ensures Chain(rounds, sent + [rounds[|sent|].start], dues + [next], found + [lease], c)
  {
  }

  /** The session's guard has this lease. */
  ghost predicate Shown(s: S.Session, events: seq<Event>, lease: LeaseData, ttl: nat) {
    && Plays(s, events)
    && s.guard.Guard? && Played(s, events).guard == s.guard.(lease := lease) && Played(s, events).ttl == ttl
  }

  lemma PlayLook(s: S.Session, events: seq<Event>, lease: LeaseData, ttl: nat, at: int)
    returns (more: seq<Event>)
    requires Shown(s, events, lease, ttl)
    ensures Shown(s, more, Refreshed(lease, at), ttl)
  {
    more := Play(s, events, S.Observe, at);
  }

  lemma PlayAnswer(s: S.Session, events: seq<Event>, lease: LeaseData, ttl: nat, r: Round)
    returns (more: seq<Event>)
    requires Shown(s, events, lease, ttl) && !r.answer.Error?
    ensures Shown(s, more, if r.answer.Renewed? then Renew(lease, r.start, ttl, r.again, r.later) else Lose(lease), ttl)
  {
    more := Play(s, events, S.SendRenewal, r.start);
    more := Play(s, more, S.HearRenewal(r.start, r.answer.Renewed?, r.again), r.later);
  }

  lemma PlayError(s: S.Session, events: seq<Event>, lease: LeaseData, ttl: nat, r: Round)
    returns (more: seq<Event>)
    requires Shown(s, events, lease, ttl)
    ensures Shown(s, more, Refreshed(lease, r.again), ttl)
  {
    more := Play(s, events, S.SendRenewal, r.start);
    more := Play(s, more, S.Observe, r.again);
  }

  /** The attempt of one turn and its answer. */
  method Attempt(lease: Lease, r: Round, c: Settings, waitStart: int, wait: nat, ghost s: S.Session,
                 ghost events: seq<Event>)
    returns (goesOn: bool, nextStart: int, nextWait: nat, ghost more: seq<Event>)
    requires !r.stopped && ActiveAt(lease.data, r.wake) && Shown(s, events, lease.data, c.ttl)
    modifies lease
    ensures WentOut(r, old(lease.data), waitStart + wait, lease.data, nextStart + nextWait, c)
    ensures goesOn <==> GoesOn(r, lease.data)
    ensures Shown(s, more, lease.data, c.ttl)
  {
    goesOn, nextStart, nextWait := true, waitStart, wait;
    match r.answer {
      case Renewed =>
        more := PlayAnswer(s, events, lease.data, c.ttl, r);
        var renewed := lease.RenewWith(r.start, c.ttl, r.again, r.later);
        if renewed {
          nextStart, nextWait := r.start, c.interval;
        } else {
          lease.Forfeit();
          goesOn := false;
        }
      case Refused =>
        more := PlayAnswer(s, events, lease.data, c.ttl, r);
        lease.Forfeit();
        goesOn := false;
      case Error =>
        more := PlayError(s, events, lease.data, c.ttl, r);
        var left := lease.Remaining(r.again, r.later);
        nextStart, nextWait := r.heard, Min(c.retry, left / 2);
    }
  }

  /** One turn of the loop: the wait, and the attempt unless the task was told to stop or finds the lease inactive. */
  method TakeTurn(lease: Lease, r: Round, c: Settings, waitStart: int, wait: nat, ghost s: S.Session,
                  ghost events: seq<Event>)
    returns (went: bool, goesOn: bool, nextStart: int, nextWait: nat, ghost more: seq<Event>)
    requires Shown(s, events, lease.data, c.ttl)
    modifies lease
    ensures went <==> !r.stopped && ActiveAt(old(lease.data), r.wake)
    ensures went ==>
              && WentOut(r, old(lease.data), waitStart + wait, lease.data, nextStart + nextWait, c)
              && (goesOn <==> GoesOn(r, lease.data))
    ensures !went ==>
              && !goesOn && nextStart == waitStart && nextWait == wait
              && lease.data == if r.stopped then old(lease.data) else Refreshed(old(lease.data), r.wake)
    ensures Shown(s, more, lease.data, c.ttl)
  {
    went, goesOn, nextStart, nextWait, more := false, false, waitStart, wait, events;
    if r.stopped {
      return;
    }
    more := PlayLook(s, events, lease.data, c.ttl, r.wake);
    var seen := lease.State(r.wake);
    if !seen.Active? {
      return;
    }
    went := true;
    goesOn, nextStart, nextWait, more := Attempt(lease, r, c, waitStart, wait, s, more);
  }

  /** The task's loop, on the shared lease.  It stops for good when it is told to, when it finds the lease inactive,
      or with an answer that ends the lease. */
  method RunLoop(lease: Lease, attemptStart: int, c: Settings, rounds: seq<Round>, ghost s: S.Session)
    returns (sent: seq<int>, dues: seq<int>, ghost found: seq<LeaseData>, ghost events: seq<Event>)
    requires Shown(s, [], lease.data, c.ttl)
    modifies lease
    ensures Chain(rounds, sent, dues, found, c)
    ensures found[0] == old(lease.data) && dues[0] == attemptStart + c.interval
    ensures Finished(rounds, |sent|, found[|sent|], lease.data)
    ensures Shown(s, events, lease.data, c.ttl)
  {
    var waitStart: int, wait: nat := attemptStart, c.interval;
    ghost var first := lease.data;
    sent, dues, found, events := [], [waitStart + wait], [lease.data], [];
    var running := true;
    while running && |sent| < |rounds|
      invariant Chain(rounds, sent, dues, found, c) && Shown(s, events, lease.data, c.ttl)
      invariant found[0] == first && dues[0] == attemptStart + c.interval && dues[|sent|] == waitStart + wait
      invariant running ==> Runs(rounds, |sent|, found[|sent|]) && lease.data == found[|sent|]
      invariant !running ==> Finished(rounds, |sent|, found[|sent|], lease.data)
      decreases |rounds| - |sent|, running
    {
      var went;
      went, running, waitStart, wait, events := TakeTurn(lease, rounds[|sent|], c, waitStart, wait, s, events);
      if went {
        ChainGrows(rounds, sent, dues, found, c, lease.data, waitStart + wait);
        sent, dues, found := sent + [rounds[|sent|].start], dues + [waitStart + wait], found + [lease.data];
      }
    }
  }

  /** While the chain lasts, the turns are its attempts. */
  lemma {:induction false} ChainIsTurns(rounds: seq<Round>, sent: seq<int>, dues: seq<int>, found: seq<LeaseData>,
                                        c: Settings, s: State, n: nat)
    requires Chain(rounds, sent, dues, found, c) && n <= |sent|
    requires s.running && s.sent == 0 && s.lease == found[0] && Due(s) == dues[0]
    ensures var end := Turns(s, rounds[..n], c);
            && end.lease == found[n] && end.sent == n && Due(end) == dues[n]
            && (end.running <==> Runs(rounds, n, found[n]))
  {
    if n > 0 {
      ChainIsTurns(rounds, sent, dues, found, c, s, n - 1);
      assert rounds[..n][..n - 1] == rounds[..n - 1];
      assert WentOut(rounds[n - 1], found[n - 1], dues[n - 1], found[n], dues[n], c);
    }
  }

  /** A loop that has ended stays ended. */
  lemma {:induction false} TurnsRest(s: State, rounds: seq<Round>, n: nat, c: Settings)
    requires n <= |rounds| && !Turns(s, rounds[..n], c).running
    ensures Turns(s, rounds, c) == Turns(s, rounds[..n], c)
  {
    if n == |rounds| {
      assert rounds[..n] == rounds;
    } else {
      var front := rounds[..|rounds| - 1];
      assert front[..n] == rounds[..n];
      TurnsRest(s, front, n, c);
    }
  }

  /** The chain of a loop that has ended is all its turns. */
  lemma TurnsOf(rounds: seq<Round>, sent: seq<int>, dues: seq<int>, found: seq<LeaseData>, c: Settings,
                s: State, lease: LeaseData) returns (end: State)
    requires Chain(rounds, sent, dues, found, c) && Finished(rounds, |sent|, found[|sent|], lease)
    requires s.running && s.sent == 0 && s.lease == found[0] && Due(s) == dues[0]
    ensures end == Turns(s, rounds, c)
    ensures lease == end.lease && dues[|sent|] == Due(end) && |sent| == end.sent
  {
    end := Turns(s, rounds, c);
    var n := |sent|;
    ChainIsTurns(rounds, sent, dues, found, c, s, n);
    if n == |rounds| {
      assert rounds[..n] == rounds;
    } else if !Runs(rounds, n, found[n]) {
      TurnsRest(s, rounds, n, c);
    } else {
      assert rounds[..n + 1][..n] == rounds[..n];
      TurnsRest(s, rounds, n + 1, c);
    }
  }

  /** The renewal task: what its loop does is the chain of its attempts, and these are the turns. */
  method RunRenewal(lease: Lease, attemptStart: int, c: Settings, rounds: seq<Round>, ghost s: S.Session)
    returns (sent: seq<int>, dues: seq<int>, ghost end: State, ghost found: seq<LeaseData>, ghost events: seq<Event>)
    requires Shown(s, [], lease.data, c.ttl)
    modifies lease
    ensures Chain(rounds, sent, dues, found, c)
    ensures found[0] == old(lease.data) && dues[0] == attemptStart + c.interval
    ensures Finished(rounds, |sent|, found[|sent|], lease.data)
    ensures |sent| > 0 && rounds[|sent| - 1].answer.Refused? ==> lease.data.state.Lost?
    ensures Shown(s, events, lease.data, c.ttl)
    ensures end == Turns(Begin(old(lease.data), attemptStart, c), rounds, c)
    ensures lease.data == end.lease && dues[|sent|] == Due(end) && |sent| == end.sent
  {
    ghost var first := lease.data;
    sent, dues, found, events := RunLoop(lease, attemptStart, c, rounds, s);
    end := TurnsOf(rounds, sent, dues, found, c, Begin(first, attemptStart, c), lease.data);
  }

  // ----- renewal keeps a lease alive -----

  /** The round that follows a success at `last` is on time: its wake-up delay and its round trip
      together stay below the margin between the interval and the TTL. */
  predicate Timely(last: int, r: Round, c: Settings) {
    && last + c.interval <= r.wake <= r.start <= r.heard <= r.again <= r.later
    && (r.wake - (last + c.interval)) + (r.later - r.wake) < c.ttl - c.interval
  }

  function LastStart(first: int, rounds: seq<Round>): int {
    if rounds == [] then first else rounds[|rounds| - 1].start
  }

  predicate AllTimely(first: int, rounds: seq<Round>, c: Settings) {
    forall i :: 0 <= i < |rounds| ==> Timely(LastStart(first, rounds[..i]), rounds[i], c)
  }

  /** The guard was not released and the server granted the renewal, as it does while the lease is active
      (`Exclusion.RenewalIsGranted`). */
  predicate AllGranted(rounds: seq<Round>) {
    forall i :: 0 <= i < |rounds| ==> !rounds[i].stopped && rounds[i].answer.Renewed?
  }

  /** Any number of timely renewals keeps the lease active: after them it counts from the last one, and at
      every instant up to the end of each round the lease in force was active. */
  lemma {:induction false} RenewalKeepsAlive(first: int, rounds: seq<Round>, c: Settings)
    requires c.interval < c.ttl && AllTimely(first, rounds, c) && AllGranted(rounds)
    ensures Turns(Begin(LeaseData(Active, first, c.ttl), first, c), rounds, c)
            == var last := LastStart(first, rounds);
               State(LeaseData(Active, last, c.ttl), true, last, c.interval, |rounds|)
    ensures forall i, t :: 0 <= i < |rounds| && t <= rounds[i].later
              ==> ActiveAt(LeaseData(Active, LastStart(first, rounds[..i]), c.ttl), t)
  {
    if rounds != [] {
      var n := |rounds| - 1;
      var before := rounds[..n];
      forall i | 0 <= i < n ensures before[..i] == rounds[..i] && before[i] == rounds[i] {
      }
      RenewalKeepsAlive(first, before, c);
      assert Timely(LastStart(first, before), rounds[n], c);
      forall i, t | 0 <= i < |rounds| && t <= rounds[i].later
        ensures ActiveAt(LeaseData(Active, LastStart(first, rounds[..i]), c.ttl), t)
      {
        assert Timely(LastStart(first, rounds[..i]), rounds[i], c);
      }
    }
  }

  // ----- retries after errors -----

  /** After a Redis error with time left, the next attempt is due strictly before the lease's deadline. */
  lemma RetryBeforeDeadline(s: State, r: Round, c: Settings)
    requires s.running && !r.stopped && r.answer.Error?
    requires r.wake <= r.heard <= r.again <= r.later && Left(s.lease, r.again, r.later) > 0
    requires s.lease.start <= r.heard
    ensures var next := Turn(s, r, c);
            && next.running && next.lease == s.lease
            && r.heard <= Due(next) < s.lease.start + s.lease.ttl
            && (next.wait == c.retry || next.wait == (s.lease.start + s.lease.ttl - r.later) / 2)
            && next.wait <= c.retry && 2 * next.wait <= s.lease.start + s.lease.ttl - r.later
  {
  }

  /** An attempt that is sent when due and fails at once. */
  predicate FailsAtOnce(s: State, r: Round) {
    !r.stopped && r.answer.Error? && r.wake == r.start == r.heard == r.again == r.later == Due(s)
  }

  predicate AllFailAtOnce(s: State, rounds: seq<Round>, c: Settings) {
    forall i :: 0 <= i < |rounds| ==> FailsAtOnce(Turns(s, rounds[..i], c), rounds[i])
  }

  function Pow2(k: nat): nat { if k == 0 then 1 else 2 * Pow2(k - 1) }

  /** The time between the moment the next attempt is due and the deadline. */
  function Budget(s: State): int { s.lease.start + s.lease.ttl - Due(s) }

  /** Failing attempts at most halve what is left, each of them: after k errors at least 1/2^k of it remains,
      the lease is still active when the next attempt is due, and that attempt will be made. */
  lemma {:induction false} RetriesHalve(s: State, rounds: seq<Round>, c: Settings)
    requires s.running && s.lease.state.Active? && Budget(s) > 0 && s.lease.start <= Due(s)
    requires AllFailAtOnce(s, rounds, c)
    ensures var end := Turns(s, rounds, c);
            && end.running && end.lease == s.lease && ActiveAt(end.lease, Due(end)) && Due(s) <= Due(end)
            && Budget(end) * Pow2(|rounds|) >= Budget(s)
            && end.sent == s.sent + |rounds|
  {
    if rounds != [] {
      var n := |rounds| - 1;
      var before := rounds[..n];
      forall i | 0 <= i < n ensures before[..i] == rounds[..i] && before[i] == rounds[i] {
      }
      RetriesHalve(s, before, c);
      var middle, end := Turns(s, before, c), Turns(s, rounds, c);
      assert FailsAtOnce(middle, rounds[n]);
      assert Budget(middle) > 0;
      assert 2 * Budget(end) >= Budget(middle);
      Scale(Budget(end), Budget(middle), n);
    }
  }

  lemma Scale(less: int, more: int, n: nat)
    requires 2 * less >= more
    ensures less * Pow2(n + 1) >= more * Pow2(n)
  {
    assert Pow2(n + 1) == 2 * Pow2(n);
    assert (2 * less - more) * Pow2(n) >= 0;
  }
}
