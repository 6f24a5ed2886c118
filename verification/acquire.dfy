/** The two acquisition loops as they are written, each turn of a loop being told what happens to it from
    outside.  What a loop does is a play of moves of its session, so everything proved about sessions
    holds of it. */
module Acquire {
  import L = Leases
  import S = Sessions
  import opened SessionPlays

  datatype Answer = Granted | Contended | Failure(io: bool)

  datatype AcquireError = Shutdown | LockTimeout | LeaseExpired | RedisError | WorkerError

  datatype Outcome =
    | Walked                    // nobody waits for the result any more
    | Err(error: AcquireError)
    | NotAcquired               // Ok(None)
    | Guarded(lease: L.LeaseData)
    | StillTrying

  /** The circumstances of one turn. */
  datatype Turn = Turn(
    abandoned: bool, shutDown: bool, timedOut: bool,       // before the attempt
    connected: bool,                                       // sync: a connection could be checked out
    start: int, answer: Answer,                            // the attempt
    sealedNow: bool, late: bool, decided: int,             // after a grant: shutdown, timeout, time of the lease check
    spawned: bool,                                         // sync: the renewal thread could be spawned
    queued: bool,                                          // sync: the queue takes a cleanup
    shutDownAfter: bool, timedOutAfter: bool)              // after a refusal, or during the pause that follows

  // ----- what the loops do, as plays -----

  /** Where a loop stands at the top of a turn. */
  predicate AtTop(s: S.Session) {
    && s.supervisor.Top? && s.guard.NoGuard? && !s.confirmed && s.cleanups == 0
    && s.caller.Waiting? && s.slot.Nothing? && s.acceptance.Unused?
  }

  /** What a session has come to when a loop returns. */
  ghost predicate Concluded(s: S.Session, outcome: Outcome) {
    match outcome
    case StillTrying => true
    case Guarded(lease) =>
      s.supervisor.Offering? && s.guard == S.Guard(lease, S.WithSupervisor, false, false) && s.cleanups == 0
    case NotAcquired => s.supervisor.Ended? && s.guard.NoGuard? && !s.confirmed && s.cleanups == 0
    case _ =>
      // an acquisition that Redis confirmed is released by the loop, or by its guard's drop
      && s.supervisor.Ended?
      && (s.confirmed ==> s.cleanups == 1 || S.At(s, S.Dropping))
  }

  /** One turn of a loop, as its session sees it. */
  ghost predicate TurnPlayed(s: S.Session, events: seq<Event>, more: seq<Event>, attempts: nat) {
    Plays(s, events) && Plays(s, more) && Attempts(more) == Attempts(events) + attempts
  }

  lemma PlayStop(s: S.Session, events: seq<Event>, at: int, outcome: Outcome) returns (more: seq<Event>)
    requires Plays(s, events) && AtTop(Played(s, events)) && (outcome.Err? || outcome.Walked?)
    ensures TurnPlayed(s, events, more, 0) && Concluded(Played(s, more), outcome)
  {
    more := Play(s, events, S.Stop, at);
  }

  lemma PlayFailure(s: S.Session, events: seq<Event>, t: Turn, io: bool) returns (more: seq<Event>)
    requires Plays(s, events) && AtTop(Played(s, events)) && t.answer == Failure(io)
    ensures MovesOf(more) == MovesOf(events) + FailureMoves(Played(s, events).backend, t)
    ensures TurnPlayed(s, events, more, 1) && Concluded(Played(s, more), Err(RedisError))
  {
    more := Play(s, events, S.SendAttempt, t.start);
    more := Play(s, more, S.HearAttemptError(io), t.start);
    if Played(s, more).backend.Async? {
      more := Play(s, more, S.CleanUp, t.start);
    } else if io {
      more := Play(s, more, S.QueueCleanup(t.queued), t.start);
    }
  }

  lemma PlayGrant(s: S.Session, events: seq<Event>, t: Turn) returns (more: seq<Event>)
    requires Plays(s, events) && AtTop(Played(s, events))
    ensures TurnPlayed(s, events, more, 1)
    ensures var next := Played(s, more);
            && next == Played(s, events).(supervisor := S.Deciding(t.start), confirmed := true, confirmedAt := t.start)
  {
    more := Play(s, events, S.SendAttempt, t.start);
    more := Play(s, more, S.HearAttempt(t.start, true, false), t.start);
  }

  lemma PlayReject(s: S.Session, events: seq<Event>, t: Turn, outcome: Outcome) returns (more: seq<Event>)
    requires Plays(s, events) && AtTop(Played(s, events)) && outcome.Err?
    ensures TurnPlayed(s, events, more, 1) && Concluded(Played(s, more), outcome)
  {
    more := PlayGrant(s, events, t);
    more := Play(s, more, S.RejectGrant, t.decided);
    more := Play(s, more, S.CleanUp, t.decided);
  }

  lemma PlayGuard(s: S.Session, events: seq<Event>, t: Turn, lease: L.LeaseData) returns (more: seq<Event>)
    requires Plays(s, events) && AtTop(Played(s, events))
    requires lease == L.LeaseData(L.Active, t.start, Played(s, events).ttl) && L.ActiveAt(lease, t.decided)
    ensures TurnPlayed(s, events, more, 1) && Concluded(Played(s, more), Guarded(lease))
    ensures Played(s, more).backend == Played(s, events).backend
  {
    more := PlayGrant(s, events, t);
    more := Play(s, more, S.MakeGuard, t.decided);
  }

  lemma PlaySpawnFailure(s: S.Session, events: seq<Event>, t: Turn, lease: L.LeaseData)
    returns (more: seq<Event>)
    requires Plays(s, events) && AtTop(Played(s, events)) && !Played(s, events).backend.Async?
    requires lease == L.LeaseData(L.Active, t.start, Played(s, events).ttl) && L.ActiveAt(lease, t.decided)
    ensures TurnPlayed(s, events, more, 1) && Concluded(Played(s, more), Err(WorkerError))
  {
    more := PlayGuard(s, events, t, lease);
    more := Play(s, more, S.SpawnFails, t.decided);
  }

  lemma PlayRefusal(s: S.Session, events: seq<Event>, t: Turn, outcome: Outcome) returns (more: seq<Event>)
    requires Plays(s, events) && AtTop(Played(s, events)) && (outcome.Err? || outcome.NotAcquired?)
    ensures TurnPlayed(s, events, more, 1) && Concluded(Played(s, more), outcome)
  {
    more := Play(s, events, S.SendAttempt, t.start);
    more := Play(s, more, S.HearAttempt(t.start, false, true), t.start);
  }

  /** After a refusal the loop pauses; the pause ends in another turn or in a verdict. */
  lemma PlayPause(s: S.Session, events: seq<Event>, t: Turn, outcome: Outcome) returns (more: seq<Event>)
    requires Plays(s, events) && AtTop(Played(s, events)) && (outcome.Err? || outcome.StillTrying?)
    ensures TurnPlayed(s, events, more, 1)
    ensures if outcome.StillTrying? then Played(s, more) == Played(s, events) else Concluded(Played(s, more), outcome)
  {
    more := Play(s, events, S.SendAttempt, t.start);
    more := Play(s, more, S.HearAttempt(t.start, false, false), t.start);
    more := Play(s, more, if outcome.StillTrying? then S.Resume else S.Stop, t.start);
  }

  // ----- what decides an acquisition -----

  /** The turn in which a guard can be made: the grant was on time and its lease is checked to be active. */
  predicate Granting(t: Turn, lease: L.LeaseData, ttl: nat) {
    && t.answer.Granted? && !t.sealedNow && !t.late
    && lease == L.LeaseData(L.Active, t.start, ttl) && L.ActiveAt(lease, t.decided)
  }

  /** The turn gets as far as sending its command. */
  predicate GetsToSend(backend: S.Backend, t: Turn) {
    !t.abandoned && !t.shutDown && !t.timedOut && (backend.Async? || t.connected)
  }

  /** The turn ends in another attempt. */
  predicate GoesOn(backend: S.Backend, t: Turn, once: bool) {
    GetsToSend(backend, t) && t.answer.Contended? && !once && !t.shutDownAfter && !t.timedOutAfter
  }

  /** What has to have happened in a turn for an outcome.  Abandonment is first for the async supervisor,
      which then has nobody to tell; the sync loop reports it as a timeout, and a timeout before shutdown. */
  predicate Justifies(backend: S.Backend, t: Turn, once: bool, ttl: nat, outcome: Outcome) {
    var sent := GetsToSend(backend, t);
    var granted, refused := sent && t.answer.Granted?, sent && t.answer.Contended? && !(backend.Async? && once);
    match outcome
    case Guarded(lease) => granted && Granting(t, lease, ttl) && (backend.Async? || t.spawned)
    case Walked => backend.Async? && t.abandoned
    case NotAcquired =>
      sent && t.answer.Contended? && once && (backend.Async? || (!t.shutDownAfter && !t.timedOutAfter))
    case StillTrying => false
    case Err(Shutdown) =>
      || (t.shutDown && !t.abandoned && (backend.Async? || !t.timedOut))
      || (granted && t.sealedNow)
      || (refused && t.shutDownAfter)
    case Err(LockTimeout) =>
      || (if backend.Async? then t.timedOut && !t.abandoned && !t.shutDown else t.timedOut || t.abandoned)
      || (granted && t.late && !t.sealedNow)
      || (refused && t.timedOutAfter && !t.shutDownAfter)
    case Err(LeaseExpired) =>
      granted && !t.sealedNow && !t.late && !L.ActiveAt(L.LeaseData(L.Active, t.start, ttl), t.decided)
    case Err(RedisError) =>
      !t.abandoned && !t.shutDown && !t.timedOut && if sent then t.answer.Failure? else true
    case Err(WorkerError) =>
      !backend.Async? && granted && !t.spawned && Granting(t, L.LeaseData(L.Active, t.start, ttl), ttl)
  }

  /** A turn goes on, or has exactly one outcome. */
  lemma OneOutcome(backend: S.Backend, t: Turn, once: bool, ttl: nat, a: Outcome, b: Outcome)
    requires Justifies(backend, t, once, ttl, a)
    ensures !GoesOn(backend, t, once)
    ensures Justifies(backend, t, once, ttl, b) ==> a == b
  {
  }

  /** The same from the circumstances: what comes first in a turn decides.  For the async supervisor that is
      abandonment, then shutdown, then the timeout; for the sync loop abandonment and the timeout, then shutdown,
      then a missing connection.  After a grant it is shutdown, the timeout, the lease; after a refusal, shutdown
      and the timeout, except that an async `try` is over with the refusal. */
  lemma WhatComesFirst(backend: S.Backend, t: Turn, once: bool, ttl: nat, outcome: Outcome)
    requires Justifies(backend, t, once, ttl, outcome)
    ensures backend.Async? && t.abandoned ==> outcome == Walked
    ensures backend.Async? && !t.abandoned && t.shutDown ==> outcome == Err(Shutdown)
    ensures backend.Async? && !t.abandoned && !t.shutDown && t.timedOut ==> outcome == Err(LockTimeout)
    ensures !backend.Async? && (t.abandoned || t.timedOut) ==> outcome == Err(LockTimeout)
    ensures !backend.Async? && !t.abandoned && !t.timedOut && t.shutDown ==> outcome == Err(Shutdown)
    ensures !t.abandoned && !t.timedOut && !t.shutDown && !backend.Async? && !t.connected ==> outcome == Err(RedisError)
    ensures !t.abandoned && !t.timedOut && !t.shutDown && (backend.Async? || t.connected) ==>
              match t.answer
              case Failure(_) => outcome == Err(RedisError)
              case Granted =>
                var lease := L.LeaseData(L.Active, t.start, ttl);
                outcome == if t.sealedNow then Err(Shutdown)
                           else if t.late then Err(LockTimeout)
                           else if L.Elapsed(t.start, t.decided) >= ttl then Err(LeaseExpired)
                           else if !backend.Async? && !t.spawned then Err(WorkerError)
                           else Guarded(lease)
              case Contended =>
                outcome == if backend.Async? && once then NotAcquired
                           else if t.shutDownAfter then Err(Shutdown)
                           else if t.timedOutAfter then Err(LockTimeout)
                           else NotAcquired
  {
  }

  /** The first turn that does not go on has decided. */
  predicate Decided(backend: S.Backend, turns: seq<Turn>, once: bool, ttl: nat, i: nat, outcome: Outcome) {
    && i <= |turns|
    && (forall j :: 0 <= j < i ==> GoesOn(backend, turns[j], once))
    && if i == |turns| then outcome.StillTrying? else Justifies(backend, turns[i], once, ttl, outcome)
  }

  /** So the turns determine the outcome. */
  lemma OneDecision(backend: S.Backend, turns: seq<Turn>, once: bool, ttl: nat, i: nat, a: Outcome, j: nat, b: Outcome)
    requires Decided(backend, turns, once, ttl, i, a) && Decided(backend, turns, once, ttl, j, b)
    ensures i == j && a == b
  {
    if i < |turns| {
      OneOutcome(backend, turns[i], once, ttl, a, b);
    }
    if j < |turns| {
      OneOutcome(backend, turns[j], once, ttl, b, a);
    }
  }

  /** How many acquire commands were sent when turn `i` decided. */
  function SentBy(backend: S.Backend, turns: seq<Turn>, i: nat): nat
    requires i <= |turns|
  {
    if i < |turns| && GetsToSend(backend, turns[i]) then i + 1 else i
  }

  /** The moves of a turn whose command failed: the async supervisor releases what may have been acquired, the sync
      loop queues a release after an I/O error, which is the only one that leaves that open. */
  function FailureMoves(backend: S.Backend, t: Turn): seq<S.Move> {
    if !t.answer.Failure? then []
    else if backend.Async? then [S.SendAttempt, S.HearAttemptError(t.answer.io), S.CleanUp]
    else if t.answer.io then [S.SendAttempt, S.HearAttemptError(true), S.QueueCleanup(t.queued)]
    else [S.SendAttempt, S.HearAttemptError(false)]
  }

  predicate EndsWith(moves: seq<S.Move>, last: seq<S.Move>) {
    |last| <= |moves| && moves[|moves| - |last|..] == last
  }

  /** A command that failed in the deciding turn, and its cleanup, are the last that the loop did. */
  predicate FailureIsCleanedUp(backend: S.Backend, turns: seq<Turn>, last: nat, events: seq<Event>) {
    last < |turns| && GetsToSend(backend, turns[last]) && turns[last].answer.Failure? ==>
      EndsWith(MovesOf(events), FailureMoves(backend, turns[last]))
  }

  // ----- the loops -----

  /** What the loop makes of a grant: a guard, or a verdict after which the grant is released again. */
  method Decide(backend: S.Backend, t: Turn, ttl: nat, ghost s: S.Session, ghost events: seq<Event>)
    returns (outcome: Outcome, ghost more: seq<Event>)
    requires Plays(s, events) && AtTop(Played(s, events))
    requires Played(s, events).backend == backend && Played(s, events).ttl == ttl
    requires GetsToSend(backend, t) && t.answer.Granted?
    ensures Justifies(backend, t, false, ttl, outcome) && Justifies(backend, t, true, ttl, outcome)
    ensures TurnPlayed(s, events, more, 1) && Concluded(Played(s, more), outcome)
  {
    var lease := L.LeaseData(L.Active, t.start, ttl);
    if t.sealedNow || t.late || !L.ActiveAt(lease, t.decided) {
      outcome := Err(if t.sealedNow then Shutdown else if t.late then LockTimeout else LeaseExpired);
      more := PlayReject(s, events, t, outcome);
    } else if !backend.Async? && !t.spawned {
      outcome := Err(WorkerError);
      more := PlaySpawnFailure(s, events, t, lease);
    } else {
      outcome := Guarded(lease);
      more := PlayGuard(s, events, t, lease);
    }
  }

  /** A turn has come to its outcome, or the loop goes on. */
  predicate TurnDone(backend: S.Backend, t: Turn, once: bool, ttl: nat, outcome: Outcome) {
    if outcome.StillTrying? then GoesOn(backend, t, once) else Justifies(backend, t, once, ttl, outcome)
  }

  /** So has its session, or it is where it was before. */
  ghost predicate TurnSeen(backend: S.Backend, t: Turn, outcome: Outcome,
                           s: S.Session, events: seq<Event>, more: seq<Event>) {
    && TurnPlayed(s, events, more, if GetsToSend(backend, t) then 1 else 0)
    && (GetsToSend(backend, t) && t.answer.Failure? ==> MovesOf(more) == MovesOf(events) + FailureMoves(backend, t))
    && if outcome.StillTrying? then Played(s, more) == Played(s, events) else Concluded(Played(s, more), outcome)
  }

  /** One turn of `supervise_acquisition`. */
  method SupervisorTurn(t: Turn, ttl: nat, once: bool, ghost s: S.Session, ghost events: seq<Event>)
    returns (outcome: Outcome, ghost more: seq<Event>)
    requires Plays(s, events) && AtTop(Played(s, events))
    requires Played(s, events).backend.Async? && Played(s, events).ttl == ttl
    ensures TurnDone(S.Async, t, once, ttl, outcome)
    ensures TurnSeen(S.Async, t, outcome, s, events, more)
  {
    if t.abandoned || t.shutDown || t.timedOut {
      outcome := if t.abandoned then Walked else Err(if t.shutDown then Shutdown else LockTimeout);
      more := PlayStop(s, events, t.start, outcome);
      return;
    }
    match t.answer {
      case Failure(io) =>
        outcome := Err(RedisError);
        more := PlayFailure(s, events, t, io);
      case Granted =>
        outcome, more := Decide(S.Async, t, ttl, s, events);
      case Contended =>
        if once {
          outcome := NotAcquired;
          more := PlayRefusal(s, events, t, outcome);
        } else {
          outcome := if t.shutDownAfter then Err(Shutdown)
                     else if t.timedOutAfter then Err(LockTimeout) else StillTrying;
          more := PlayPause(s, events, t, outcome);
        }
    }
  }

  /** One turn of `acquire_loop`. */
  method LoopTurn(backend: S.Backend, t: Turn, ttl: nat, once: bool, ghost s: S.Session, ghost events: seq<Event>)
    returns (outcome: Outcome, ghost more: seq<Event>)
    requires !backend.Async? && Plays(s, events) && AtTop(Played(s, events))
    requires Played(s, events).backend == backend && Played(s, events).ttl == ttl
    ensures TurnDone(backend, t, once, ttl, outcome)
    ensures TurnSeen(backend, t, outcome, s, events, more)
  {
    if t.abandoned || t.timedOut || t.shutDown || !t.connected {
      outcome := Err(if t.abandoned || t.timedOut then LockTimeout else if t.shutDown then Shutdown else RedisError);
      more := PlayStop(s, events, t.start, outcome);
      return;
    }
    match t.answer {
      case Failure(io) =>
        outcome := Err(RedisError);
        more := PlayFailure(s, events, t, io);
      case Granted =>
        outcome, more := Decide(backend, t, ttl, s, events);
      case Contended =>
        outcome := if t.shutDownAfter then Err(Shutdown)
                   else if t.timedOutAfter then Err(LockTimeout)
                   else if once then NotAcquired else StillTrying;
        if outcome.StillTrying? {
          more := PlayPause(s, events, t, outcome);
        } else {
          more := PlayRefusal(s, events, t, outcome);
        }
    }
  }

  /** `supervise_acquisition`, up to the point where a guard is handed over.  The session is one that begins,
      or one that is back at the top of the loop. */
  method Supervise(ttl: nat, once: bool, turns: seq<Turn>, ghost s: S.Session)
    returns (outcome: Outcome, last: nat, ghost events: seq<Event>)
    requires AtTop(s) && s.backend == S.Async && s.ttl == ttl
    ensures Decided(S.Async, turns, once, ttl, last, outcome)
    ensures Plays(s, events) && Concluded(Played(s, events), outcome)
    ensures Attempts(events) == SentBy(S.Async, turns, last)
    ensures FailureIsCleanedUp(S.Async, turns, last, events)
  {
    events, last := [], 0;
    while last < |turns|
      invariant last <= |turns| && Plays(s, events) && Played(s, events) == s
      invariant Attempts(events) == last
      invariant forall j :: 0 <= j < last ==> GoesOn(S.Async, turns[j], once)
    {
      outcome, events := SupervisorTurn(turns[last], ttl, once, s, events);
      if !outcome.StillTrying? {
        return;
      }
      last := last + 1;
    }
    outcome := StillTrying;
  }

  /** `acquire_loop`, with or without the thread of its own that a timeout gives it. */
  method AcquireLoop(backend: S.Backend, ttl: nat, once: bool, turns: seq<Turn>, ghost s: S.Session)
    returns (outcome: Outcome, last: nat, ghost events: seq<Event>)
    requires AtTop(s) && s.backend == backend && s.ttl == ttl && !backend.Async?
    ensures Decided(backend, turns, once, ttl, last, outcome)
    ensures Plays(s, events) && Concluded(Played(s, events), outcome)
    ensures Attempts(events) == SentBy(backend, turns, last)
    ensures FailureIsCleanedUp(backend, turns, last, events)
  {
    events, last := [], 0;
    while last < |turns|
      invariant last <= |turns| && Plays(s, events) && Played(s, events) == s
      invariant Attempts(events) == last
      invariant forall j :: 0 <= j < last ==> GoesOn(backend, turns[j], once)
    {
      outcome, events := LoopTurn(backend, turns[last], ttl, once, s, events);
      if !outcome.StillTrying? {
        return;
      }
      last := last + 1;
    }
    outcome := StillTrying;
  }

  // ----- the caller -----

  /** What the caller gets to see of the result: nothing in time, an error or Ok(None), or a guard. */
  datatype Received = Missed(error: AcquireError) | Answered(outcome: Outcome) | Delivered(lease: L.LeaseData)

  /** The circumstances: is the timeout over, has shutdown begun, and when is the lease looked at?
      A sync caller with a timeout looks at it again after accepting the guard. */
  datatype Reception = Reception(late: bool, closed: bool, checked: int, again: int)

  /** The session can be in a state where the caller receives this. */
  predicate Carries(s: S.Session, r: Received) {
    && S.Inv(s) && s.caller.Waiting?
    && match r
       case Missed(e) => !s.backend.SyncInline? && (e.LockTimeout? || (e.Shutdown? && s.backend.Async?))
       case Answered(o) => s.slot.Verdict? && (o.Err? || o.NotAcquired?)
       case Delivered(lease) => S.At(s, S.InSlot) && s.guard.lease == lease
  }

  /** The checks by which a delivered guard, or any other answer, is still taken. */
  predicate StillWanted(backend: S.Backend, c: Reception) {
    backend.SyncInline? || (!c.late && !c.closed)
  }

  /** The caller has looked at the lease as often as it does, and found it active. */
  predicate FoundActive(backend: S.Backend, lease: L.LeaseData, c: Reception) {
    L.ActiveAt(lease, c.checked) && (backend.SyncTimed? ==> L.ActiveAt(lease, c.again))
  }

  /** The session is past the caller's wait, and a guard it has been sent is where it should be. */
  ghost predicate CallerDone(s: S.Session, events: seq<Event>, place: S.Place) {
    && Plays(s, events)
    && var end := Played(s, events);
       && !end.caller.Waiting? && end.slot.Nothing?
       && (s.slot.Parcel? && s.guard.Guard? ==> S.At(end, place) && end.guard == s.guard.(place := place))
  }

  lemma PlayAbandon(s: S.Session, at: int) returns (events: seq<Event>)
    requires S.Inv(s) && s.caller.Waiting? && !s.backend.SyncInline?
    ensures CallerDone(s, events, S.Dropping)
  {
    events := Play(s, [], S.Abandon, at);
  }

  lemma PlayAnswer(s: S.Session, at: int) returns (events: seq<Event>)
    requires S.Inv(s) && s.caller.Waiting? && s.slot.Verdict?
    ensures CallerDone(s, events, S.Dropping)
  {
    events := Play(s, [], S.Take, at);
  }

  lemma PlayTurnDown(s: S.Session, at: int) returns (events: seq<Event>)
    requires S.Inv(s) && s.caller.Waiting? && s.slot.Parcel?
    ensures CallerDone(s, events, S.Dropping)
  {
    events := Play(s, [], S.Take, at);
    events := Play(s, events, S.Refuse, at);
  }

  lemma AcceptMoves(s: S.Session, at: int)
    requires S.Inv(s) && s.caller.Waiting? && s.slot.Parcel? && L.ActiveAt(s.guard.lease, at)
    ensures var taken := S.Next(s, S.Take, at);
            && S.Enabled(taken, S.Clear, at, true)
            && var cleared := S.Next(taken, S.Clear, at);
            && S.Enabled(cleared, S.Claim, at, true)
            && var end := S.Next(cleared, S.Claim, at);
            && end.caller.Claimed? && end.slot.Nothing?
            && S.At(end, S.WithUser) && end.guard == s.guard.(place := S.WithUser)
  {
  }

  lemma PlayAccept(s: S.Session, at: int) returns (events: seq<Event>)
    requires S.Inv(s) && s.caller.Waiting? && s.slot.Parcel? && L.ActiveAt(s.guard.lease, at)
    ensures CallerDone(s, events, S.WithUser)
  {
    AcceptMoves(s, at);
    events := Play(s, [], S.Take, at);
    events := Play(s, events, S.Clear, at);
    events := Play(s, events, S.Claim, at);
  }

  lemma PlayDrop(s: S.Session, before: seq<Event>, at: int) returns (events: seq<Event>)
    requires CallerDone(s, before, S.WithUser) && s.slot.Parcel? && S.At(s, S.InSlot)
    requires S.Inv(s) && s.guard.lease.state.Active?
    ensures CallerDone(s, events, S.Dropping)
  {
    events := Play(s, before, S.BeginDrop, at);
  }

  /** The end of `acquire_internal`.  A guard that was delivered is returned exactly if it is still wanted
      and found active; every other guard that had been sent is on its way to be dropped. */
  method Receive(backend: S.Backend, r: Received, c: Reception, ghost s: S.Session)
    returns (outcome: Outcome, ghost events: seq<Event>)
    requires s.backend == backend && Carries(s, r)
    ensures CallerDone(s, events, if outcome.Guarded? then S.WithUser else S.Dropping)
    ensures outcome.Guarded? <==> r.Delivered? && StillWanted(backend, c) && FoundActive(backend, r.lease, c)
    ensures outcome.Guarded? ==> outcome.lease == r.lease
    ensures outcome == Err(LeaseExpired) && r.Delivered? ==>
              StillWanted(backend, c) && !FoundActive(backend, r.lease, c)
    ensures r.Delivered? && StillWanted(backend, c) && !outcome.Guarded? ==> outcome == Err(LeaseExpired)
    ensures r.Delivered? && !backend.SyncInline? && c.late ==> outcome == Err(LockTimeout)
    ensures r.Delivered? && !backend.SyncInline? && c.closed && !c.late ==> outcome == Err(Shutdown)
    ensures r.Answered? && (StillWanted(backend, c) || (backend.Async? && r.outcome.Err?)) ==> outcome == r.outcome
    ensures r.Answered? && !StillWanted(backend, c) && !(backend.Async? && r.outcome.Err?) ==>
              outcome == Err(if c.late then LockTimeout else Shutdown)
    ensures r.Answered? && outcome != r.outcome ==> !StillWanted(backend, c)
    ensures r.Answered? && r.outcome.Err? && backend.Async? ==> outcome == r.outcome
    ensures r.Missed? ==> outcome == Err(r.error)
  {
    match r {
      case Missed(error) =>
        events := PlayAbandon(s, c.checked);
        outcome := Err(error);
      case Answered(answer) =>
        events := PlayAnswer(s, c.checked);
        outcome := if (backend.Async? && answer.Err?) || StillWanted(backend, c) then answer
                   else if c.late then Err(LockTimeout) else Err(Shutdown);
      case Delivered(lease) =>
        if !StillWanted(backend, c) || !L.ActiveAt(lease, c.checked) {
          events := PlayTurnDown(s, c.checked);
          outcome := if StillWanted(backend, c) then Err(LeaseExpired)
                     else if c.late then Err(LockTimeout) else Err(Shutdown);
          return;
        }
        events := PlayAccept(s, c.checked);
        if backend.SyncTimed? && !L.ActiveAt(lease, c.again) {
          events := PlayDrop(s, events, c.again);
          return Err(LeaseExpired), events;
        }
        outcome := Guarded(lease);
    }
  }

  // ----- handing the guard over -----

  /** The guard goes into the result channel, or nobody waits for it any more: then the async supervisor is left with
      it, and the sync thread drops it at once. */
  method HandOver(backend: S.Backend, waiting: bool, ghost s: S.Session, ghost at: int)
    returns (delivered: bool, ghost events: seq<Event>)
    requires S.Inv(s) && s.backend == backend && s.supervisor.Offering? && waiting == s.caller.Waiting?
    ensures delivered == waiting
    ensures Plays(s, events) && MovesOf(events) == [S.HandOver]
    ensures var end := Played(s, events);
            && end.guard == s.guard.(place := if delivered then S.InSlot
                                              else if backend.Async? then S.WithSupervisor else S.Dropping)
            && (delivered <==> end.slot.Parcel?)
            && end.supervisor == if delivered then (if backend.SyncInline? then S.Ended else S.AwaitingAcceptance)
                                 else if backend.Async? then S.Disposing else S.Cleaning
  {
    delivered := waiting;
    events := Play(s, [], S.HandOver, at);
  }

  /** The wait for the caller's acceptance: if it is lost, the supervisor releases the lock itself. */
  method AwaitAcceptance(accepted: bool, ghost s: S.Session, ghost at: int)
    returns (cleaned: bool, ghost events: seq<Event>)
    requires S.Inv(s) && s.supervisor.AwaitingAcceptance?
    requires s.acceptance == if accepted then S.Signalled else S.Acceptance.Lost
    ensures cleaned == !accepted
    ensures Plays(s, events)
    ensures MovesOf(events) == if accepted then [S.HearAccepted] else [S.HearUnclaimed, S.CleanUp]
    ensures var end := Played(s, events); end.supervisor.Ended? && end.cleanups == if cleaned then 1 else 0
  {
    cleaned := !accepted;
    if accepted {
      events := Play(s, [], S.HearAccepted, at);
    } else {
      events := Play(s, [], S.HearUnclaimed, at);
      events := Play(s, events, S.CleanUp, at);
    }
  }
}
