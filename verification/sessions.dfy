/** One acquisition and the guard it may produce: the supervisor (or worker thread), the waiting caller,
    the result channel between them, the guard, its renewal task and its release.  Every interleaving of
    their steps is a sequence of moves. */
module Sessions {
  import opened Redis
  import opened Scripts
  import opened LockRequest
  import opened Leases

  /** `SyncInline` runs `acquire_loop` in the caller's thread, as sync acquisition without a timeout does. */
  datatype Backend = Async | SyncTimed | SyncInline

  datatype Supervisor =
    | Top                    // about to check for abandonment, shutdown and the deadline
    | Awaiting(start: int)   // an acquire command is in flight
    | Pausing                // waiting before the next attempt
    | Deciding(start: int)   // Redis has confirmed the acquisition
    | Offering               // the guard exists and is about to be sent
    | AwaitingAcceptance
    | Cleaning               // about to run the release script
    | QueuingCleanup         // sync only: about to queue a release after an I/O error
    | Disposing              // async only: releasing a guard that could not be sent
    | Ended

  datatype Caller = Waiting | Checking | Cleared | Claimed | Gone
  datatype Slot = Nothing | Verdict | Parcel           // the result channel: an error or Ok(None), or a guard
  datatype Acceptance = Unused | Pending | Signalled | Lost
  datatype Place = WithSupervisor | InSlot | WithCaller | WithUser | Dropping | Queuing | Discarded

  datatype Guard =
    | NoGuard
    | Guard(lease: LeaseData, place: Place, releasing: bool, isReleased: bool)

  datatype Session = Session(
    backend: Backend,
    request: Request,
    ttl: nat,
    supervisor: Supervisor,
    caller: Caller,
    slot: Slot,
    acceptance: Acceptance,
    guard: Guard,
    confirmed: bool,   // history: the supervisor has seen an acquisition confirmed
    confirmedAt: int,  // history: when
    cleanups: nat,     // history: release scripts the supervisor has sent
    failedAt: Option<int>,  // history: when an acquire command failed so that it may have been applied
    handed: bool,           // history: the guard was sent to the caller
    offer: Option<bool>)    // history: a release was offered to the queue, which took it or not

  function Begin(backend: Backend, request: Request, ttl: nat): Session {
    Session(backend, request, ttl, Top, Waiting, Nothing, Unused, NoGuard, false, 0, 0, None, false, None)
  }

  datatype Move =
    // the supervisor
    | Stop                                                // abandoned, shut down or timed out
    | SendAttempt
    | HearAttempt(start: int, granted: bool, last: bool)  // `last`: no further attempt follows a refusal
    | HearAttemptError(io: bool)
    | Resume
    | QueueCleanup(queued: bool)
    | RejectGrant                                         // shutdown, timeout or expiry after confirmation
    | MakeGuard
    | SpawnFails
    | HandOver
    | HearAccepted
    | HearUnclaimed
    | CleanUp
    | BeginDisposal
    | SendDisposal
    | HearDisposed(start: int, complete: bool)            // the reply of its release script
    | DisposalFails
    // the caller
    | Abandon                                             // timeout, shutdown or cancellation
    | Take
    | Refuse
    | Clear                                               // the lease is observed active
    | Claim
    | LoseToken
    // the guard and its renewal task
    | BeginRelease
    | SendGuardRelease
    | FinishRelease(start: int, complete: bool)           // on the reply of its release script
    | BeginDrop
    | MarkReleased
    | QueueRelease(queued: bool)
    | SendRenewal
    | HearRenewal(start: int, granted: bool, checked: int)
    | Observe

  /** How a move shows outside the session. */
  datatype Action =
    | Silent
    | Sends(op: Op)
    | Hears(op: Op, start: int, granted: bool)
    | Queues(queued: bool)

  function ActionOf(m: Move): Action {
    match m
    case SendAttempt => Sends(Acquire)
    case HearAttempt(start, granted, _) => Hears(Acquire, start, granted)
    case QueueCleanup(queued) => Queues(queued)
    case CleanUp => Sends(Release)
    case SendDisposal => Sends(Release)
    case SendGuardRelease => Sends(Release)
    case QueueRelease(queued) => Queues(queued)
    case FinishRelease(start, complete) => Hears(Release, start, complete)
    case HearDisposed(start, complete) => Hears(Release, start, complete)
    case SendRenewal => Sends(Renew)
    case HearRenewal(start, granted, _) => Hears(Renew, start, granted)
    case _ => Silent
  }

  predicate At(s: Session, p: Place) { s.guard.Guard? && s.guard.place == p }

  /** Whether a move is possible.  `open` says that the manager has not begun to shut down; the async
      supervisor makes a guard only while it holds the admission lock and sees it open. */
  predicate Enabled(s: Session, m: Move, now: int, open: bool) {
    match m
    case Stop => s.supervisor.Top? || s.supervisor.Pausing?
    case SendAttempt => s.supervisor.Top?
    case HearAttempt(start, _, _) => s.supervisor == Awaiting(start)
    case HearAttemptError(_) => s.supervisor.Awaiting?
    case Resume => s.supervisor.Pausing?
    case QueueCleanup(_) => s.supervisor.QueuingCleanup?
    case RejectGrant => s.supervisor.Deciding?
    case MakeGuard =>
      && s.supervisor.Deciding?
      && ActiveAt(LeaseData(Active, s.supervisor.start, s.ttl), now)
      && (s.backend.Async? ==> open)
    case SpawnFails => s.supervisor.Offering? && s.guard.Guard? && !s.backend.Async?
    case HandOver => s.supervisor.Offering? && s.guard.Guard?
    case HearAccepted => s.supervisor.AwaitingAcceptance? && s.acceptance.Signalled?
    case HearUnclaimed => s.supervisor.AwaitingAcceptance? && s.acceptance.Lost?
    case CleanUp => s.supervisor.Cleaning? && (s.guard.NoGuard? || At(s, Discarded))
    case BeginDisposal => s.supervisor.Disposing? && s.guard.Guard? && !s.guard.releasing
    case SendDisposal => s.supervisor.Disposing? && s.guard.Guard? && s.guard.releasing
    case HearDisposed(_, _) => s.supervisor.Disposing? && s.guard.Guard? && s.cleanups > 0
    case DisposalFails => s.supervisor.Disposing? && s.guard.Guard? && s.cleanups > 0
    case Abandon => s.caller.Waiting? && !s.backend.SyncInline?
    case Take => s.caller.Waiting? && !s.slot.Nothing?
    case Refuse => s.caller.Checking? && s.guard.Guard?
    case Clear => s.caller.Checking? && s.guard.Guard? && ActiveAt(s.guard.lease, now)
    case Claim => s.caller.Cleared? && s.guard.Guard?
    case LoseToken => s.caller.Gone? && s.acceptance.Pending? && At(s, Discarded)
    case BeginRelease => At(s, WithUser) && !s.guard.isReleased
    case SendGuardRelease => s.caller.Claimed? && s.guard.Guard? && s.guard.releasing
    case FinishRelease(_, _) => At(s, WithUser) && s.guard.releasing
    case BeginDrop => At(s, WithUser)
    case MarkReleased => At(s, Dropping)
    case QueueRelease(_) => At(s, Queuing)
    case SendRenewal => s.guard.Guard?
    case HearRenewal(_, _, _) => s.guard.Guard?
    case Observe => s.guard.Guard?
  }

  /** An error or Ok(None) reaches the caller, if it still waits. */
  function Told(s: Session): Session {
    if s.caller.Waiting? && s.slot.Nothing? then s.(slot := Verdict) else s
  }

  function Placed(s: Session, p: Place): Session
    requires s.guard.Guard?
  {
    s.(guard := s.guard.(place := p))
  }

  function Leased(s: Session, lease: LeaseData): Session
    requires s.guard.Guard?
  {
    s.(guard := s.guard.(lease := lease))
  }

  function Next(s: Session, m: Move, now: int): Session
    requires Enabled(s, m, now, true)
  {
    match m
    case Stop => Told(s.(supervisor := Ended))
    case SendAttempt => s.(supervisor := Awaiting(now))
    case HearAttempt(start, granted, last) =>
      if granted then s.(supervisor := Deciding(start), confirmed := true, confirmedAt := now)
      else if last then Told(s.(supervisor := Ended))
      else s.(supervisor := Pausing)
    case HearAttemptError(io) =>
      if s.backend.Async? then Told(s.(supervisor := Cleaning, failedAt := Some(now)))
      else if io then s.(supervisor := QueuingCleanup, failedAt := Some(now))
      else Told(s.(supervisor := Ended))
    case Resume => s.(supervisor := Top)
    case QueueCleanup(queued) => Told(s.(supervisor := Ended, offer := Some(queued)))
    case RejectGrant => if s.backend.Async? then Told(s.(supervisor := Cleaning)) else s.(supervisor := Cleaning)
    case MakeGuard =>
      s.(supervisor := Offering,
         guard := Guard(LeaseData(Active, s.supervisor.start, s.ttl), WithSupervisor, false, false))
    case SpawnFails => Told(Placed(s.(supervisor := Ended), Dropping))
    case HandOver =>
      if s.caller.Waiting? then
        Placed(s.(slot := Parcel,
                  handed := true,
                  supervisor := if s.backend.SyncInline? then Ended else AwaitingAcceptance,
                  acceptance := if s.backend.SyncInline? then Unused else Pending), InSlot)
      else if s.backend.Async? then s.(supervisor := Disposing, handed := true)
      else Placed(s.(supervisor := Cleaning, handed := true), Dropping)
    case HearAccepted => s.(supervisor := Ended)
    case HearUnclaimed => s.(supervisor := Cleaning)
    case CleanUp => Told(s.(supervisor := Ended, cleanups := s.cleanups + 1))
    case BeginDisposal => Leased(s.(guard := s.guard.(releasing := true)), Lose(s.guard.lease))
    case SendDisposal => s.(cleanups := s.cleanups + 1)
    case HearDisposed(_, _) =>
      Leased(Placed(s.(supervisor := Ended, guard := s.guard.(isReleased := true)), Discarded),
             Leases.Release(s.guard.lease))
    case DisposalFails => Placed(s.(supervisor := Ended), Dropping)
    case Abandon =>
      if s.slot.Parcel? && s.guard.Guard? then Placed(s.(caller := Gone, slot := Nothing), Dropping)
      else s.(caller := Gone, slot := Nothing)
    case Take =>
      if s.slot.Parcel? && s.guard.Guard? then Placed(s.(caller := Checking, slot := Nothing), WithCaller)
      else s.(caller := Gone, slot := Nothing)
    case Refuse => Placed(s.(caller := Gone), Dropping)
    case Clear => s.(caller := Cleared)
    case Claim =>
      Placed(s.(caller := Claimed, acceptance := if s.acceptance.Pending? then Signalled else s.acceptance), WithUser)
    case LoseToken => s.(acceptance := Acceptance.Lost)
    case BeginRelease => Leased(s.(guard := s.guard.(releasing := true)), Lose(s.guard.lease))
    case SendGuardRelease => s
    case FinishRelease(_, _) => Leased(s.(guard := s.guard.(isReleased := true)), Leases.Release(s.guard.lease))
    case BeginDrop =>
      if s.guard.isReleased then Placed(s, Discarded) else Placed(s, Dropping)
    case MarkReleased => Leased(Placed(s, Queuing), Leases.Release(s.guard.lease))
    case QueueRelease(queued) => Placed(s.(offer := Some(queued)), Discarded)
    case SendRenewal => s
    case HearRenewal(start, granted, checked) =>
      Leased(s, if granted then Leases.Renew(s.guard.lease, start, s.ttl, checked, now) else Lose(s.guard.lease))
    case Observe => Leased(s, Refreshed(s.guard.lease, now))
  }

  // ----- the invariant -----

  /** Before a guard exists. */
  predicate Early(u: Supervisor) {
    u.Top? || u.Awaiting? || u.Pausing? || u.Deciding? || u.QueuingCleanup?
  }

  predicate ChannelOk(s: Session) {
    && (s.slot.Parcel? <==> At(s, InSlot))
    && (!s.slot.Nothing? ==> s.caller.Waiting?)
    && (s.caller.Checking? || s.caller.Cleared? <==> At(s, WithCaller))
    && (At(s, WithUser) ==> s.caller.Claimed?)
    && (At(s, WithSupervisor) ==> s.caller.Waiting? || s.caller.Gone?)
    && (s.caller.Claimed? ==> s.guard.Guard? && (s.acceptance.Signalled? || s.backend.SyncInline?))
    && (s.acceptance.Signalled? ==> s.caller.Claimed?)
    && (s.acceptance.Lost? ==> s.caller.Gone? && At(s, Discarded))
    && (if s.backend.SyncInline? then s.acceptance.Unused?
        else At(s, InSlot) || At(s, WithCaller) ==> s.acceptance.Pending?)
  }

  predicate SupervisorOk(s: Session) {
    && (Early(s.supervisor) ==> s.guard.NoGuard? && s.slot.Nothing?)
    && (s.guard.NoGuard? ==> s.acceptance.Unused?)
    && (s.supervisor.Offering? || s.supervisor.Disposing? <==> At(s, WithSupervisor))
    && (s.supervisor.Disposing? ==> s.caller.Gone? && s.acceptance.Unused?)
    && (s.supervisor.Offering? ==> s.slot.Nothing? && s.acceptance.Unused?)
    && (s.supervisor.AwaitingAcceptance? ==> s.guard.Guard? && !s.acceptance.Unused?)
    && (s.supervisor.Cleaning? && s.guard.Guard? ==> s.caller.Gone?)
    && (s.backend.SyncInline? && (s.caller.Gone? || !s.slot.Nothing?) ==> s.supervisor.Ended?)
  }

  predicate LeaseOk(s: Session) {
    s.guard.Guard? ==>
      && (At(s, Queuing) || At(s, Discarded) || s.guard.isReleased ==> s.guard.lease.state.Released?)
      && (s.guard.releasing ==> !s.guard.lease.state.Active?)
      && s.guard.lease.ttl == s.ttl
  }

  /** When a supervisor with a result channel has ended after Redis confirmed the acquisition, either the caller
      has the guard and no release was sent, or the caller has none, never will, and a release was sent. */
  predicate Settled(s: Session) {
    if s.caller.Claimed? then s.cleanups == 0
    else s.cleanups > 0 && !s.slot.Parcel? && !At(s, WithCaller) && s.caller in {Waiting, Gone}
  }

  predicate HistoryOk(s: Session) {
    && (s.supervisor.Deciding? || s.guard.Guard? ==> s.confirmed)
    && (!s.supervisor.Ended? && !s.supervisor.Disposing? ==> s.cleanups == 0)
    && (s.confirmed && s.guard.NoGuard? ==>
          s.supervisor.Deciding? || s.supervisor.Cleaning? || (s.supervisor.Ended? && s.cleanups > 0))
    && (s.backend.Async? && s.confirmed && s.supervisor.Ended? ==> Settled(s))
    && (s.backend.SyncTimed? && s.handed && s.supervisor.Ended? ==> Settled(s))
  }

  /** Nobody is forgotten: not the caller, not a command that may have been applied, not a guard. */
  predicate CareOk(s: Session) {
    && (s.supervisor.Ended? && s.caller.Waiting? ==> !s.slot.Nothing?)
    && (s.failedAt.Some? ==>
          s.guard.NoGuard? && !s.confirmed
          && (s.supervisor.Cleaning? || s.supervisor.QueuingCleanup? || s.supervisor.Ended?))
    && (s.supervisor.QueuingCleanup? ==> !s.backend.Async? && s.failedAt.Some?)
    && (s.failedAt.Some? && s.supervisor.Cleaning? ==> s.backend.Async?)
    && (s.failedAt.Some? && s.supervisor.Ended? ==> if s.backend.Async? then s.cleanups > 0 else s.offer.Some?)
    && (At(s, Discarded) ==> s.guard.isReleased || s.offer.Some?)
    && (s.offer.Some? ==> (s.supervisor.Ended? && s.guard.NoGuard?) || At(s, Discarded))
    && (s.handed ==> s.guard.Guard? && (!At(s, WithSupervisor) || s.supervisor.Disposing?))
    && (s.guard.Guard? && !s.handed ==>
          s.supervisor.Offering? || (s.supervisor.Ended? && s.guard.place in {Dropping, Queuing, Discarded}))
  }

  predicate Inv(s: Session) {
    ChannelOk(s) && SupervisorOk(s) && LeaseOk(s) && HistoryOk(s) && CareOk(s)
  }

  lemma BeginInv(backend: Backend, request: Request, ttl: nat)
    ensures Inv(Begin(backend, request, ttl))
  {
  }

  /** The moves, by who makes them and for what. */
  datatype Part = AttemptMove | GrantMove | EndMove | CallerMove | GuardMove | RenewalMove

  function PartOf(m: Move): Part {
    match m
    case Stop | SendAttempt | HearAttempt(_, _, _) | HearAttemptError(_) | Resume | QueueCleanup(_) => AttemptMove
    case RejectGrant | MakeGuard | SpawnFails | HandOver => GrantMove
    case HearAccepted | HearUnclaimed | CleanUp | BeginDisposal | SendDisposal => EndMove
    case HearDisposed(_, _) | DisposalFails => EndMove
    case Abandon | Take | Refuse | Clear | Claim | LoseToken => CallerMove
    case BeginRelease | SendGuardRelease | FinishRelease(_, _) => GuardMove
    case BeginDrop | MarkReleased | QueueRelease(_) => GuardMove
    case SendRenewal | HearRenewal(_, _, _) | Observe => RenewalMove
  }

  lemma AttemptMoveKeepsInv(s: Session, m: Move, now: int, open: bool)
    requires Inv(s) && Enabled(s, m, now, open) && PartOf(m).AttemptMove?
    ensures Inv(Next(s, m, now)) && HistoryGrows(s, Next(s, m, now), ActionOf(m), now)
  {
  }

  lemma GrantMoveKeepsInv(s: Session, m: Move, now: int, open: bool)
    requires Inv(s) && Enabled(s, m, now, open) && PartOf(m).GrantMove?
    ensures Inv(Next(s, m, now)) && HistoryGrows(s, Next(s, m, now), ActionOf(m), now)
  {
  }

  lemma EndMoveKeepsInv(s: Session, m: Move, now: int, open: bool)
    requires Inv(s) && Enabled(s, m, now, open) && PartOf(m).EndMove?
    ensures Inv(Next(s, m, now)) && HistoryGrows(s, Next(s, m, now), ActionOf(m), now)
  {
  }

  lemma CallerMoveKeepsInv(s: Session, m: Move, now: int, open: bool)
    requires Inv(s) && Enabled(s, m, now, open) && PartOf(m).CallerMove?
    ensures Inv(Next(s, m, now)) && HistoryGrows(s, Next(s, m, now), ActionOf(m), now)
  {
  }

  lemma GuardMoveKeepsInv(s: Session, m: Move, now: int, open: bool)
    requires Inv(s) && Enabled(s, m, now, open) && PartOf(m).GuardMove?
    ensures Inv(Next(s, m, now)) && HistoryGrows(s, Next(s, m, now), ActionOf(m), now)
  {
  }

  lemma RenewalMoveKeepsInv(s: Session, m: Move, now: int, open: bool)
    requires Inv(s) && Enabled(s, m, now, open) && PartOf(m).RenewalMove?
    ensures Inv(Next(s, m, now)) && HistoryGrows(s, Next(s, m, now), ActionOf(m), now)
  {
  }

  lemma NextInv(s: Session, m: Move, now: int, open: bool)
    requires Inv(s) && Enabled(s, m, now, open)
    ensures Inv(Next(s, m, now)) && HistoryGrows(s, Next(s, m, now), ActionOf(m), now)
  {
    match PartOf(m)
    case AttemptMove => AttemptMoveKeepsInv(s, m, now, open);
    case GrantMove => GrantMoveKeepsInv(s, m, now, open);
    case EndMove => EndMoveKeepsInv(s, m, now, open);
    case CallerMove => CallerMoveKeepsInv(s, m, now, open);
    case GuardMove => GuardMoveKeepsInv(s, m, now, open);
    case RenewalMove => RenewalMoveKeepsInv(s, m, now, open);
  }

  // ----- what the rest of the system relies on -----

  /** The session has no active lease and never will have one again. */
  predicate Retired(s: Session) {
    if s.guard.NoGuard? then s.supervisor.Cleaning? || s.supervisor.QueuingCleanup? || s.supervisor.Ended?
    else !s.guard.lease.state.Active?
  }

  /** A lease that was seen lost or released is never active again, even if a good reply comes late. */
  predicate Over(s: Session) {
    s.guard.Guard? && !s.guard.lease.state.Active?
  }

  lemma OverForever(s: Session, m: Move, now: int, open: bool)
    requires SupervisorOk(s) && Enabled(s, m, now, open) && Over(s)
    ensures Over(Next(s, m, now))
  {
  }

  lemma RetiredForever(s: Session, m: Move, now: int, open: bool)
    requires SupervisorOk(s) && Enabled(s, m, now, open) && Retired(s)
    ensures Retired(Next(s, m, now))
    ensures Over(s) ==> Over(Next(s, m, now))
  {
    if s.guard.Guard? {
      OverForever(s, m, now, open);
    }
  }

  /** No release leaves a session, directly or through the queue, while its lease can be active. */
  lemma ReleasesWhenRetired(s: Session, m: Move, now: int, open: bool)
    requires Inv(s) && Enabled(s, m, now, open)
    requires ActionOf(m) == Sends(Release) || ActionOf(m).Queues?
    ensures Retired(s)
  {
  }

  /** The session counts on the command that it sent at `start`. */
  predicate CountsOn(s: Session, start: int) {
    s.supervisor == Deciding(start)
    || (s.guard.Guard? && s.guard.lease.state.Active? && s.guard.lease.start == start)
  }

  lemma DecidesOnReplies(s: Session, m: Move, now: int, open: bool, start: int)
    requires Enabled(s, m, now, open) && Next(s, m, now).supervisor == Deciding(start)
    ensures s.supervisor == Deciding(start) || ActionOf(m) == Hears(Acquire, start, true)
  {
    if PartOf(m).AttemptMove? {
      AttemptsDecide(s, m, now, open, start);
    } else {
      OthersDoNotDecide(s, m, now, open, start);
    }
  }

  lemma AttemptsDecide(s: Session, m: Move, now: int, open: bool, start: int)
    requires Enabled(s, m, now, open) && Next(s, m, now).supervisor == Deciding(start) && PartOf(m).AttemptMove?
    ensures m.HearAttempt? && m.start == start && m.granted
  {
  }

  lemma OthersDoNotDecide(s: Session, m: Move, now: int, open: bool, start: int)
    requires Enabled(s, m, now, open) && Next(s, m, now).supervisor == Deciding(start) && !PartOf(m).AttemptMove?
    ensures s.supervisor == Deciding(start)
  {
  }

  /** It only ever counts on commands whose success it has heard of. */
  lemma CountsOnReplies(s: Session, m: Move, now: int, open: bool, start: int)
    requires Enabled(s, m, now, open) && CountsOn(Next(s, m, now), start)
    ensures CountsOn(s, start) || ActionOf(m) == Hears(Acquire, start, true)
            || ActionOf(m) == Hears(Renew, start, true)
  {
    if Next(s, m, now).supervisor == Deciding(start) {
      DecidesOnReplies(s, m, now, open, start);
    }
  }

  predicate SameRequest(s: Session, next: Session) {
    next.request == s.request && next.ttl == s.ttl && next.backend == s.backend
  }

  lemma SupervisorKeepsRequest(s: Session, m: Move, now: int)
    requires Enabled(s, m, now, true) && (PartOf(m).AttemptMove? || PartOf(m).GrantMove?)
    ensures SameRequest(s, Next(s, m, now))
  {
  }

  lemma OthersKeepRequest(s: Session, m: Move, now: int)
    requires Enabled(s, m, now, true) && !PartOf(m).AttemptMove? && !PartOf(m).GrantMove?
    ensures SameRequest(s, Next(s, m, now))
  {
  }

  lemma NextKeepsRequest(s: Session, m: Move, now: int)
    requires Enabled(s, m, now, true)
    ensures Next(s, m, now).request == s.request && Next(s, m, now).ttl == s.ttl
    ensures Next(s, m, now).backend == s.backend
  {
    if PartOf(m).AttemptMove? || PartOf(m).GrantMove? {
      SupervisorKeepsRequest(s, m, now);
    } else {
      OthersKeepRequest(s, m, now);
    }
  }

  /** Whether the supervisor or the guard still holds a sender of the release queue. */
  predicate HoldsSender(s: Session) {
    || (!s.supervisor.Ended? && (s.backend.Async? || s.guard.NoGuard?))
    || (s.guard.Guard? && !At(s, Discarded) && !s.guard.isReleased)
  }

  /** A sender that is gone does not come back. */
  lemma SenderShrinks(s: Session, m: Move, now: int, open: bool)
    requires Inv(s) && Enabled(s, m, now, open) && HoldsSender(Next(s, m, now))
    ensures HoldsSender(s)
  {
  }

  /** All of this, as the contract of one move towards the rest of the system. */
  ghost predicate Contract(s: Session, next: Session, a: Action, now: int) {
    && Inv(next)
    && next.request == s.request && next.ttl == s.ttl && next.backend == s.backend
    && (Retired(s) ==> Retired(next))
    && (Over(s) ==> Over(next))
    && (a == Sends(Release) || a.Queues? ==> Retired(next))
    && (forall start :: CountsOn(next, start) ==> CountsOn(s, start) || a == Hears(Acquire, start, true)
                                                  || a == Hears(Renew, start, true))
    && (HoldsSender(next) ==> HoldsSender(s))
    && HistoryGrows(s, next, a, now)
  }

  /** The guard has been released by an answered release. */
  predicate Answered(s: Session) { s.guard.Guard? && s.guard.isReleased }

  /** The history follows the actions: a confirmation was heard when it is noted, a cleanup is a release sent
      after the confirmation or the failure, an offer was made to the queue, and a released guard has heard
      the reply of a release. */
  predicate HistoryGrows(s: Session, next: Session, a: Action, now: int) {
    && (s.confirmed ==> next.confirmed && next.confirmedAt == s.confirmedAt)
    && (!s.confirmed && next.confirmed ==>
          a.Hears? && a.op.Acquire? && a.granted && next.confirmedAt == now && next.cleanups == 0)
    && s.cleanups <= next.cleanups
    && (s.cleanups < next.cleanups ==> a == Sends(Release))
    && (s.caller.Claimed? ==> next.caller.Claimed?)
    && (s.supervisor.Ended? ==> next.supervisor.Ended?)
    && (s.failedAt.Some? ==> next.failedAt == s.failedAt)
    && (s.failedAt.None? && next.failedAt.Some? ==> next.failedAt.value == now && next.cleanups == 0)
    && (s.offer.Some? ==> next.offer == s.offer)
    && (s.offer != next.offer ==> a.Queues? && next.offer == Some(a.queued))
    && (s.handed ==> next.handed)
    && (Answered(s) ==> Answered(next))
    && (Answered(next) && !Answered(s) ==> a.Hears? && a.op.Release?)
    && (a.Hears? && a.op.Renew? && !a.granted ==> Over(next))
  }

  lemma NextContract(s: Session, m: Move, now: int, open: bool)
    requires Inv(s) && Enabled(s, m, now, open)
    ensures Contract(s, Next(s, m, now), ActionOf(m), now)
  {
    var next := Next(s, m, now);
    NextInv(s, m, now, open);
    NextKeepsRequest(s, m, now);
    if ActionOf(m) == Sends(Release) || ActionOf(m).Queues? {
      ReleasesWhenRetired(s, m, now, open);
    }
    if Retired(s) {
      RetiredForever(s, m, now, open);
    }
    forall start | CountsOn(next, start)
      ensures CountsOn(s, start) || ActionOf(m) == Hears(Acquire, start, true)
              || ActionOf(m) == Hears(Renew, start, true)
    {
      CountsOnReplies(s, m, now, open, start);
    }
    if HoldsSender(next) {
      SenderShrinks(s, m, now, open);
    }
  }
}
