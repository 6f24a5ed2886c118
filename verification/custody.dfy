/** Nobody and nothing is forgotten: what becomes of commands of unknown outcome, of grants, of guards and of callers,
    in every run and in every backend. */
module Custody {
  import opened Redis
  import opened Scripts
  import opened LockRequest
  import opened Protocol
  import opened Handoff
  import S = Sessions
  import M = Managers
  import Shutdown

  ghost predicate ReleaseAnswered(w: World, r: Request) {
    exists x :: x in w.receipts && x.command.op.Release? && x.command.request == r
  }

  /** The session's release is, or was, in its manager's queue. */
  predicate InQueue(w: World, u: Token)
    requires u in w.sessions
  {
    u in w.home && w.home[u] in w.managers && M.ReleaseItem(w.sessions[u].request) in w.managers[w.home[u]].history
  }

  /** The session's history is what happened: its cleanup of a failed command was sent after the failure, a released
      guard's release was executed, and an offer that was taken is in the queue. */
  ghost predicate Kept(w: World, u: Token)
    requires u in w.sessions
  {
    var s := w.sessions[u];
    && (s.failedAt.Some? ==>
          s.failedAt.value <= w.now && (s.cleanups > 0 ==> ReleasedFrom(w, s.request, s.failedAt.value)))
    && (S.Answered(s) ==> ReleaseAnswered(w, s.request))
    && (s.offer == Some(true) ==> InQueue(w, u))
  }

  ghost predicate AllKept(w: World) {
    forall u :: u in w.sessions ==> Kept(w, u)
  }

  /** Nothing that was sent, executed or queued goes away. */
  ghost predicate Grown(w: World, after: World) {
    && w.now <= after.now && w.sent <= after.sent && w.receipts <= after.receipts
    && (forall u :: u in w.sessions && u in w.home ==> u in after.home && after.home[u] == w.home[u])
    && (forall id :: id in w.managers ==>
          id in after.managers && w.managers[id].history <= after.managers[id].history)
  }

  lemma StepGrows(w: World, l: Label)
    requires ManagersOk(w) && Enabled(w, l)
    ensures Grown(w, After(w, l))
  {
    WorldGrows(w, l);
    HistoriesGrow(w, l);
    HomesStay(w, l);
  }

  lemma HistoriesGrow(w: World, l: Label)
    requires ManagersOk(w) && Enabled(w, l)
    ensures forall id :: id in w.managers ==>
              id in After(w, l).managers && w.managers[id].history <= After(w, l).managers[id].history
  {
    forall id | id in w.managers
      ensures id in After(w, l).managers && w.managers[id].history <= After(w, l).managers[id].history
    {
      assert ManagerOk(w, id);
      Shutdown.StepLater(w, l, id);
    }
  }

  lemma HomesStay(w: World, l: Label)
    requires Enabled(w, l)
    ensures forall u :: u in w.sessions && u in w.home ==> u in After(w, l).home && After(w, l).home[u] == w.home[u]
  {
  }

  lemma StaysKept(w: World, after: World, u: Token)
    requires u in w.sessions && Kept(w, u) && Grown(w, after)
    requires u in after.sessions && after.sessions[u] == w.sessions[u]
    ensures Kept(after, u)
  {
    var s := w.sessions[u];
    if s.failedAt.Some? && s.cleanups > 0 {
      ReleaseStays(w, after, s.request, s.failedAt.value);
    }
    if S.Answered(s) {
      AnswerStays(w, after, s.request);
    }
  }

  lemma ReleaseStays(w: World, after: World, r: Request, t: int)
    requires ReleasedFrom(w, r, t) && w.sent <= after.sent
    ensures ReleasedFrom(after, r, t)
  {
    var c :| c in w.sent && c.op.Release? && c.request == r && t <= c.sentAt;
    assert c in after.sent;
  }

  lemma AnswerStays(w: World, after: World, r: Request)
    requires ReleaseAnswered(w, r) && w.receipts <= after.receipts
    ensures ReleaseAnswered(after, r)
  {
    var x :| x in w.receipts && x.command.op.Release? && x.command.request == r;
    assert x in after.receipts;
  }

  lemma ActedKept(w: World, u: Token, next: S.Session, a: S.Action)
    requires MayAct(w, u, next, a) && SessionOk(w, u) && Kept(w, u)
    requires Grown(w, Acted(w, u, next, a))
    ensures Kept(Acted(w, u, next, a), u)
  {
    var s, after := w.sessions[u], Acted(w, u, next, a);
    assert after.sessions[u] == next && next.request == s.request;
    if next.failedAt.Some? && next.cleanups > 0 {
      if s.cleanups < next.cleanups {
        var c := CommandOf(next.request, Release, next.ttl, w.now);
        assert c in after.sent && c.op.Release? && c.request == next.request;
      } else {
        ReleaseStays(w, after, s.request, s.failedAt.value);
      }
    }
    if S.Answered(next) {
      if S.Answered(s) {
        AnswerStays(w, after, s.request);
      } else {
        ReplyIsAnswer(w, s, a.start, a.granted);
        AnswerStays(w, after, s.request);
      }
    }
    if next.offer == Some(true) && s.offer != next.offer {
      var id := w.home[u];
      var m := w.managers[id];
      assert after.managers[id].history == m.history + [M.ReleaseItem(next.request)];
    }
  }

  lemma ReplyIsAnswer(w: World, s: S.Session, start: int, complete: bool)
    requires Delivered(w, s, Release, start, complete)
    ensures ReleaseAnswered(w, s.request)
  {
    var at :| Receipt(CommandOf(s.request, Release, s.ttl, start), at, Done(complete)) in w.receipts;
    var x := Receipt(CommandOf(s.request, Release, s.ttl, start), at, Done(complete));
    assert x in w.receipts && x.command.op.Release? && x.command.request == s.request;
  }

  lemma StepKeepsKept(w: World, l: Label)
    requires SessionsOk(w) && ManagersOk(w) && Enabled(w, l) && AllKept(w)
    ensures AllKept(After(w, l))
  {
    var after := After(w, l);
    StepGrows(w, l);
    forall u | u in after.sessions ensures Kept(after, u) {
      if u in w.sessions && after.sessions[u] == w.sessions[u] {
        StaysKept(w, after, u);
      } else if u in w.sessions {
        assert SessionOk(w, u);
        OneSessionMoves(w, l, u);
        ActContract(w, u, l.move);
        ActedKept(w, u, S.Next(w.sessions[u], l.move, w.now), S.ActionOf(l.move));
      }
    }
  }

  lemma {:induction false} RunKeepsKept(w: World, run: seq<Label>)
    requires Inv(w) && AllKept(w) && Legal(w, run)
    ensures Inv(End(w, run)) && AllKept(End(w, run))
    decreases |run|
  {
    if run != [] {
      StepKeepsInv(w, run[0]);
      StepKeepsKept(w, run[0]);
      RunKeepsKept(After(w, run[0]), run[1..]);
    }
  }

  lemma RunsAreKept(start: nat, run: seq<Label>)
    requires Legal(Initial(start), run)
    ensures Inv(End(Initial(start), run)) && AllKept(End(Initial(start), run))
  {
    InitialInv(start);
    RunKeepsKept(Initial(start), run);
  }

  // ----- what follows for every run -----

  /** A command whose outcome is unknown is cleaned up: when the acquisition has ended, the async supervisor has
      sent a release no earlier than the error, and the sync loop has offered one to the queue after the I/O error,
      where it is if the queue took it. */
  lemma UnknownOutcomeIsCleanedUp(start: nat, run: seq<Label>, u: Token)
    requires Legal(Initial(start), run)
    requires var w := End(Initial(start), run);
             u in w.sessions && w.sessions[u].failedAt.Some? && w.sessions[u].supervisor.Ended?
    ensures var w := End(Initial(start), run);
            var s := w.sessions[u];
            && s.guard.NoGuard?
            && if s.backend.Async? then ReleasedFrom(w, s.request, s.failedAt.value)
               else s.offer.Some? && (s.offer.value ==> InQueue(w, u))
  {
    RunsAreKept(start, run);
    assert SessionOk(End(Initial(start), run), u);
  }

  /** A guard that is gone was released by an executed release script, or its release was offered to the queue,
      where it is if the queue took it. */
  lemma GuardsAreReturned(start: nat, run: seq<Label>, u: Token)
    requires Legal(Initial(start), run)
    requires var w := End(Initial(start), run); u in w.sessions && S.At(w.sessions[u], S.Discarded)
    ensures var w := End(Initial(start), run);
            var s := w.sessions[u];
            || (s.guard.isReleased && ReleaseAnswered(w, s.request))
            || (s.offer.Some? && (s.offer.value ==> InQueue(w, u)))
  {
    RunsAreKept(start, run);
    assert SessionOk(End(Initial(start), run), u);
    assert Kept(End(Initial(start), run), u);
  }

  /** A guard that calls itself released has been released by an executed release script. */
  lemma ReleasedMeansExecuted(start: nat, run: seq<Label>, u: Token)
    requires Legal(Initial(start), run)
    requires var w := End(Initial(start), run);
             u in w.sessions && w.sessions[u].guard.Guard? && w.sessions[u].guard.isReleased
    ensures var w := End(Initial(start), run); ReleaseAnswered(w, w.sessions[u].request)
  {
    RunsAreKept(start, run);
    assert Kept(End(Initial(start), run), u);
  }

  /** Somebody is responsible for every confirmed grant whose supervisor has ended, in any backend: the caller has
      the guard or can still take it; or its drop is under way; or it is gone, and returned; or a release was sent. */
  lemma GrantsHaveKeepers(start: nat, run: seq<Label>, u: Token)
    requires Legal(Initial(start), run)
    requires var w := End(Initial(start), run);
             u in w.sessions && w.sessions[u].confirmed && w.sessions[u].supervisor.Ended?
    ensures var w := End(Initial(start), run);
            var s := w.sessions[u];
            || s.cleanups > 0
            || (s.guard.Guard? && s.guard.place in {S.InSlot, S.WithCaller, S.WithUser, S.Dropping, S.Queuing})
            || (s.guard.Guard? && (s.guard.isReleased || s.offer.Some?))
  {
    RunsAreKept(start, run);
    assert SessionOk(End(Initial(start), run), u);
  }

  /** The sync worker of an acquisition with a timeout keeps the same account as the async supervisor once it has
      sent the guard: the caller has accepted it and no cleanup was sent, or a cleanup was sent and the caller never
      gets it. */
  lemma SyncHandoff(start: nat, run: seq<Label>, u: Token)
    requires Legal(Initial(start), run)
    requires var w := End(Initial(start), run);
             && u in w.sessions && w.sessions[u].backend.SyncTimed?
             && w.sessions[u].handed && w.sessions[u].supervisor.Ended?
    ensures var w := End(Initial(start), run);
            var s := w.sessions[u];
            && (s.caller.Claimed? <==> s.cleanups == 0)
            && (!s.caller.Claimed? ==> !S.At(s, S.InSlot) && !S.At(s, S.WithCaller) && !S.At(s, S.WithUser))
  {
    RunsAreKept(start, run);
    assert SessionOk(End(Initial(start), run), u);
  }

  /** No caller waits for ever: when the acquisition has ended there is a result for whoever still waits. */
  lemma CallersAreTold(start: nat, run: seq<Label>, u: Token)
    requires Legal(Initial(start), run)
    requires var w := End(Initial(start), run);
             u in w.sessions && w.sessions[u].supervisor.Ended? && w.sessions[u].caller.Waiting?
    ensures var w := End(Initial(start), run);
            !w.sessions[u].slot.Nothing? && Enabled(w, Act(u, S.Take))
  {
    RunsAreKept(start, run);
    assert SessionOk(End(Initial(start), run), u);
  }

  // ----- the same from the moves themselves -----

  /** The commands that leave with the moves of a session. */
  lemma WhatMovesSend(w: World, u: Token, m: S.Move)
    requires Enabled(w, Act(u, m))
    ensures var s, after := w.sessions[u], After(w, Act(u, m));
            && (m.SendAttempt? ==> Command(Acquire, s.request, s.ttl, w.now) in after.sent)
            && (m.SendRenewal? ==> Command(Renew, s.request, s.ttl, w.now) in after.sent)
            && (m.CleanUp? || m.SendDisposal? || m.SendGuardRelease? ==>
                  Command(Release, s.request, 0, w.now) in after.sent)
  {
    S.NextKeepsRequest(w.sessions[u], m, w.now);
  }

  /** The queue takes a release exactly if its worker lives and it has room. */
  lemma WhatMovesQueue(w: World, u: Token, m: S.Move, queued: bool)
    requires Enabled(w, Act(u, m)) && (m == S.QueueCleanup(queued) || m == S.QueueRelease(queued))
    ensures var q := w.managers[w.home[u]];
            queued <==> q.worker.Running? && q.taken <= |q.history| < q.taken + 1024
    ensures queued ==> InQueue(After(w, Act(u, m)), u)
  {
    S.NextKeepsRequest(w.sessions[u], m, w.now);
  }

  ghost predicate Heard(w: World, r: Request, op: Op, ttl: nat, start: int, granted: bool) {
    exists at :: Receipt(Command(op, r, ttl, start), at, Done(granted)) in w.receipts
  }

  /** What a session hears is the reply to the very command that it sent. */
  lemma WhatMovesHear(w: World, u: Token, m: S.Move)
    requires Enabled(w, Act(u, m))
    ensures var s := w.sessions[u];
            && (m.HearAttempt? ==> Heard(w, s.request, Acquire, s.ttl, m.start, m.granted))
            && (m.HearRenewal? ==> Heard(w, s.request, Renew, s.ttl, m.start, m.granted))
            && (m.FinishRelease? || m.HearDisposed? ==> Heard(w, s.request, Release, 0, m.start, m.complete))
  {
    var s := w.sessions[u];
    var a := S.ActionOf(m);
    if a.Hears? {
      assert Delivered(w, s, a.op, a.start, a.granted);
      assert Heard(w, s.request, a.op, if a.op.Release? then 0 else s.ttl, a.start, a.granted);
    }
  }

  predicate Remembers(s: S.Session, end: S.Session) {
    && end.backend == s.backend && end.request == s.request
    && (s.failedAt.Some? ==> end.failedAt == s.failedAt)
    && (s.confirmed ==> end.confirmed && end.confirmedAt == s.confirmedAt)
  }

  lemma StepRemembers(w: World, l: Label, u: Token)
    requires SessionsOk(w) && Enabled(w, l) && u in w.sessions
    ensures u in After(w, l).sessions && Remembers(w.sessions[u], After(w, l).sessions[u])
  {
    assert SessionOk(w, u);
    OneSessionMoves(w, l, u);
  }

  lemma {:induction false} RunRemembers(w: World, run: seq<Label>, u: Token)
    requires Inv(w) && Legal(w, run) && u in w.sessions
    ensures u in End(w, run).sessions && Remembers(w.sessions[u], End(w, run).sessions[u])
    decreases |run|
  {
    if run != [] {
      StepRemembers(w, run[0], u);
      StepKeepsInv(w, run[0]);
      RunRemembers(After(w, run[0]), run[1..], u);
    }
  }

  /** The error that leaves the outcome of a command open: any for the async supervisor, an I/O error for the sync
      loop. */
  predicate LeavesOpen(s: S.Session, m: S.Move) {
    m.HearAttemptError? && (s.backend.Async? || m.io)
  }

  lemma ErrorIsNoted(w: World, u: Token, error: S.Move)
    requires Enabled(w, Act(u, error)) && LeavesOpen(w.sessions[u], error)
    ensures var s, next := w.sessions[u], After(w, Act(u, error)).sessions[u];
            next.failedAt == Some(w.now) && next.request == s.request && next.backend == s.backend
  {
  }

  /** Whenever a session hears such an error, then by the time that its acquisition has ended a release has been
      sent, or, by the sync loop, offered to the queue. */
  lemma ErrorsAreCleanedUp(w: World, u: Token, error: S.Move, run: seq<Label>)
    requires Inv(w) && AllKept(w) && Enabled(w, Act(u, error)) && LeavesOpen(w.sessions[u], error)
    requires Legal(After(w, Act(u, error)), run)
    requires var end := End(After(w, Act(u, error)), run); u in end.sessions && end.sessions[u].supervisor.Ended?
    ensures CleanedUpAfter(End(After(w, Act(u, error)), run), u, w.sessions[u], w.now)
  {
    var after := After(w, Act(u, error));
    StepKeepsInv(w, Act(u, error));
    StepKeepsKept(w, Act(u, error));
    ErrorIsNoted(w, u, error);
    RunRemembers(after, run, u);
    RunKeepsKept(after, run);
    FailureWasCleanedUp(End(after, run), u);
  }

  ghost predicate CleanedUpAfter(end: World, u: Token, s: S.Session, t: int) {
    && u in end.sessions && end.sessions[u].guard.NoGuard?
    && if s.backend.Async? then ReleasedFrom(end, s.request, t)
       else end.sessions[u].offer.Some? && (end.sessions[u].offer.value ==> InQueue(end, u))
  }

  lemma FailureWasCleanedUp(w: World, u: Token)
    requires Inv(w) && AllKept(w)
    requires u in w.sessions && w.sessions[u].failedAt.Some? && w.sessions[u].supervisor.Ended?
    ensures CleanedUpAfter(w, u, w.sessions[u], w.sessions[u].failedAt.value)
  {
    assert SessionOk(w, u);
    assert Kept(w, u);
  }

  /** Whenever an async supervisor hears that it was granted the lock, then by the time that it has ended either the
      caller has claimed the guard, or a release has been sent and no caller ever gets the guard. */
  lemma GrantsAreSettled(w: World, u: Token, granted: S.Move, run: seq<Label>)
    requires granted.HearAttempt? && granted.granted
    requires Inv(w) && AllBacked(w) && Enabled(w, Act(u, granted)) && w.sessions[u].backend.Async?
    requires Legal(After(w, Act(u, granted)), run)
    requires var end := End(After(w, Act(u, granted)), run);
             u in end.sessions && end.sessions[u].supervisor.Ended?
    ensures var end := End(After(w, Act(u, granted)), run);
            var s := end.sessions[u];
            if s.caller.Claimed? then s.guard.Guard? && s.cleanups == 0
            else ReleasedFrom(end, w.sessions[u].request, w.now)
                 && !S.At(s, S.InSlot) && !S.At(s, S.WithCaller) && !S.At(s, S.WithUser)
  {
    var after := After(w, Act(u, granted));
    StepKeepsInv(w, Act(u, granted));
    StepKeepsBacked(w, Act(u, granted));
    assert SessionOk(w, u);
    assert after.sessions[u].confirmed && after.sessions[u].confirmedAt == w.now;
    assert after.sessions[u].request == w.sessions[u].request && after.sessions[u].backend.Async?;
    RunRemembers(after, run, u);
    RunKeepsBacked(after, run);
    assert SessionOk(End(after, run), u);
    assert Backed(End(after, run), End(after, run).sessions[u]);
  }
}
