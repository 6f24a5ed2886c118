/** What shutdown guarantees, and how long the release worker lives. */
module Shutdown {
  import opened Redis
  import opened Protocol
  import S = Sessions
  import M = Managers

  lemma {:induction false} ReleasesInPrefix(items: seq<M.Item>, i: nat)
    requires i < |items| && items[i].ReleaseItem?
    ensures items[i].request in M.ReleasesOf(items)
  {
    if i < |items| - 1 {
      ReleasesInPrefix(items[..|items| - 1], i);
      assert items[..|items| - 1][i] == items[i];
    }
  }

  /** `b` is where the only barrier stands; the worker has taken it out and acknowledged it; and before that it
      has taken out and attempted, in order, every release that was queued before the barrier, and sent each
      of them to Redis. */
  ghost predicate DrainedUpTo(w: World, m: M.Manager, b: nat) {
    && b < m.taken <= |m.history| && m.history[b].Barrier? && m.acked
    && M.ReleasesOf(m.history[..b]) <= m.attempted
    && (forall c :: 0 <= c < |m.history| && m.history[c].Barrier? ==> c == b)
    && (forall i :: 0 <= i < b && m.history[i].ReleaseItem? ==> Attempted(w, m.history[i].request))
  }

  lemma AckMeansDrained(w: World, id: nat)
    requires id in w.managers && ManagerOk(w, id) && w.managers[id].acked
    ensures exists b :: DrainedUpTo(w, w.managers[id], b)
  {
    var m := w.managers[id];
    var b := m.barrierAt.value;
    forall i | 0 <= i < b && m.history[i].ReleaseItem? ensures Attempted(w, m.history[i].request) {
      ReleasesInPrefix(m.history[..b], i);
      assert m.history[i].request in m.attempted;
    }
    assert DrainedUpTo(w, m, b);
  }

  /** Shutdown completes, and a caller of `shutdown` returns, only when the worker has attempted everything
      that was queued before the one barrier and has acknowledged the barrier. */
  lemma ShutdownBarrier(start: nat, run: seq<Label>, id: nat, caller: nat)
    requires Legal(Initial(start), run)
    requires var w := End(Initial(start), run);
             && id in w.managers
             && var m := w.managers[id];
                m.phase.Completed? || (caller in m.waiters && m.waiters[caller].Returned?)
    ensures var w := End(Initial(start), run);
            exists b :: DrainedUpTo(w, w.managers[id], b)
  {
    var w := End(Initial(start), run);
    RunsAreSound(start, run);
    assert ManagerOk(w, id);
    AckMeansDrained(w, id);
  }

  /** Shutdown fails only by a panic of the worker, and callers of `shutdown` crash only when it has failed.  A
      coordinator that is done has a verdict, and it is completion if the barrier was acknowledged, unless an async
      manager has noticed a panic. */
  lemma OnlyPanicsFail(start: nat, run: seq<Label>, id: nat, caller: nat)
    requires Legal(Initial(start), run) && id in End(Initial(start), run).managers
    ensures var m := End(Initial(start), run).managers[id];
            && (m.phase.Failed? ==> m.worker.Panicked?)
            && (caller in m.waiters && m.waiters[caller].Crashed? ==> m.phase.Failed?)
            && (caller in m.waiters && m.waiters[caller].Returned? ==> m.phase.Completed?)
            && (m.coordinator.Finished? ==> m.phase.Completed? || m.phase.Failed?)
            && (m.acked && m.coordinator.Finished? && !m.worker.Panicked? ==> m.phase.Completed?)
            && (m.acked && m.coordinator.Finished? && !m.isAsync ==> m.phase.Completed?)
  {
    RunsAreSound(start, run);
    assert ManagerOk(End(Initial(start), run), id);
  }

  /** When shutdown has completed, every caller that still waits can go, and then has returned. */
  lemma CompletedLetsGo(w: World, id: nat, caller: nat)
    requires id in w.managers && w.managers[id].phase.Completed?
    requires caller in w.managers[id].waiters && w.managers[id].waiters[caller].Blocked?
    ensures Enabled(w, Manage(id, M.Return(caller)))
    ensures After(w, Manage(id, M.Return(caller))).managers[id].waiters[caller].Returned?
  {
    M.WhoReturns(w.managers[id], caller);
  }

  /** What never changes back once shutdown has gone so far. */
  predicate Later(m: M.Manager, next: M.Manager) {
    && (m.phase.Completed? ==> next.phase.Completed?)
    && (m.phase.Failed? ==> next.phase.Failed?)
    && (!M.CanAdmit(m) && m.isAsync ==> !M.CanAdmit(next))
    && (!m.admission ==> !next.admission)
    && next.isAsync == m.isAsync
    && m.history <= next.history
    && m.attempted <= next.attempted
  }

  lemma ManagerStepLater(m: M.Manager, step: M.Move)
    requires M.Inv(m) && M.Enabled(m, step, false)
    ensures Later(m, M.Next(m, step))
  {
    M.Absorbing(m, step);
  }

  lemma StepLater(w: World, l: Label, id: nat)
    requires id in w.managers && M.Inv(w.managers[id]) && Enabled(w, l)
    ensures id in After(w, l).managers && Later(w.managers[id], After(w, l).managers[id])
  {
    var m := w.managers[id];
    OneManagerMoves(w, l, id);
    if l.Manage? && l.id == id {
      ManagerStepLater(m, l.step);
    } else if After(w, l).managers[id] != m {
      var r :| After(w, l).managers[id] == M.Next(m, M.Enqueue(r));
      ManagerStepLater(m, M.Enqueue(r));
    }
  }

  /** Completion and failure are final in every continuation, and the queue's past is never rewritten. */
  lemma {:induction false} OutcomeIsFinal(w: World, run: seq<Label>, id: nat)
    requires Inv(w) && Legal(w, run) && id in w.managers
    ensures id in End(w, run).managers && Later(w.managers[id], End(w, run).managers[id])
    decreases |run|
  {
    if run != [] {
      assert ManagerOk(w, id);
      StepKeepsInv(w, run[0]);
      StepLater(w, run[0], id);
      OutcomeIsFinal(After(w, run[0]), run[1..], id);
    }
  }

  /** Once an async manager has sealed admission, none of its acquisitions gets a guard any more. */
  lemma {:induction false} SealedHandoff(w: World, run: seq<Label>, id: nat, u: Token)
    requires Inv(w) && Legal(w, run) && id in w.managers
    requires w.managers[id].isAsync && !M.CanAdmit(w.managers[id])
    requires u in w.sessions && u in w.home && w.home[u] == id
    requires w.sessions[u].backend.Async? && w.sessions[u].guard.NoGuard?
    ensures u in End(w, run).sessions && End(w, run).sessions[u].guard.NoGuard?
    decreases |run|
  {
    if run != [] {
      var l := run[0];
      assert ManagerOk(w, id);
      StepKeepsInv(w, l);
      StepLater(w, l, id);
      SealedStep(w, l, u);
      SealedHandoff(After(w, l), run[1..], id, u);
    }
  }

  lemma SealedStep(w: World, l: Label, u: Token)
    requires Enabled(w, l) && u in w.sessions && u in w.home && w.home[u] in w.managers
    requires !M.CanAdmit(w.managers[w.home[u]])
    requires w.sessions[u].backend.Async? && w.sessions[u].guard.NoGuard?
    ensures var after := After(w, l);
            && u in after.sessions && u in after.home && after.home[u] == w.home[u]
            && after.sessions[u].backend.Async? && after.sessions[u].guard.NoGuard?
  {
    if l.Act? && l.token == u {
      NoGuardWithoutAdmission(w.sessions[u], l.move, w.now);
    }
  }

  lemma NoGuardWithoutAdmission(s: S.Session, m: S.Move, now: int)
    requires S.Enabled(s, m, now, false) && s.backend.Async? && s.guard.NoGuard?
    ensures S.Next(s, m, now).guard.NoGuard? && S.Next(s, m, now).backend.Async?
  {
  }

  /** An acquisition is running, or there is a guard that has neither been released nor queued its release. */
  predicate NeedsQueue(s: S.Session) {
    if s.guard.NoGuard? then !s.supervisor.Ended?
    else
      || (!s.guard.isReleased && !s.guard.place.Discarded?)
      || (s.backend.Async? && !s.supervisor.Ended?)
  }

  /** When nobody needs the queue any more and the coordinator is done, a worker that has emptied it can exit. */
  lemma WorkerCanExit(w: World, id: nat)
    requires id in w.managers && w.managers[id].worker.Running?
    requires var m := w.managers[id]; m.busy.None? && m.taken == |m.history| && !m.admission && m.coordinator.Finished?
    requires forall u :: u in w.sessions && u in w.home && w.home[u] == id ==> !NeedsQueue(w.sessions[u])
    ensures Enabled(w, Manage(id, M.WorkerExit))
  {
    forall u | u in w.sessions && u in w.home && w.home[u] == id ensures !S.HoldsSender(w.sessions[u]) {
      assert !NeedsQueue(w.sessions[u]);
    }
  }

  /** The queue stays open for whoever holds a sender: as long as an acquisition is running or a guard is
      unreleased, before or after shutdown, its worker runs unless it has panicked. */
  lemma WorkerOutlivesSenders(start: nat, run: seq<Label>, u: Token)
    requires Legal(Initial(start), run)
    requires var w := End(Initial(start), run); u in w.sessions && NeedsQueue(w.sessions[u])
    ensures var w := End(Initial(start), run);
            u in w.home && w.home[u] in w.managers && !w.managers[w.home[u]].worker.Exited?
  {
    RunsAreSound(start, run);
    assert SessionOk(End(Initial(start), run), u);
  }

  /** So a dropped guard's release is refused only by a full queue or a panicked worker. */
  lemma OnlyAFullQueueRefuses(start: nat, run: seq<Label>, u: Token)
    requires Legal(Initial(start), run)
    requires var w := End(Initial(start), run);
             && Enabled(w, Act(u, S.QueueRelease(false)))
             && !w.sessions[u].guard.isReleased
    ensures var w := End(Initial(start), run);
            var m := w.managers[w.home[u]];
            m.worker.Panicked? || |m.history| - m.taken == M.CAPACITY
  {
    var w := End(Initial(start), run);
    RunsAreSound(start, run);
    assert SessionOk(w, u) && ManagerOk(w, w.home[u]);
    RefusedOnlyWhenFull(w, u);
  }

  lemma RefusedOnlyWhenFull(w: World, u: Token)
    requires Enabled(w, Act(u, S.QueueRelease(false))) && !w.sessions[u].guard.isReleased
    requires SessionOk(w, u) && M.QueueOk(w.managers[w.home[u]])
    ensures var m := w.managers[w.home[u]]; m.worker.Panicked? || |m.history| - m.taken == M.CAPACITY
  {
    assert S.HoldsSender(w.sessions[u]);
  }

  // ----- shutdown can always complete -----

  /** What a manager becomes by a sequence of moves, each possible where it is made. */
  function Moved(m: M.Manager, moves: seq<M.Move>): M.Manager
    requires Possible(m, moves)
    decreases |moves|
  {
    if moves == [] then m else Moved(M.Next(m, moves[0]), moves[1..])
  }

  predicate Possible(m: M.Manager, moves: seq<M.Move>)
    decreases |moves|
  {
    moves == [] || (M.Enabled(m, moves[0], true) && Possible(M.Next(m, moves[0]), moves[1..]))
  }

  /** How far the manager is from letting the caller go. */
  function Distance(m: M.Manager): nat {
    var barrier := if m.coordinator.SendingBarrier? then 1 else 0;
    var left := if m.taken <= |m.history| then |m.history| - m.taken else 0;
    4 * barrier + 2 * left + (if m.busy.Some? then 1 else 0) + (if m.coordinator.Finished? then 0 else 1)
  }

  /** The next move on the way. */
  function NextMove(m: M.Manager): M.Move {
    if m.busy.Some? then M.AttemptRelease
    else if m.taken < |m.history| then M.TakeItem
    else if m.coordinator.SendingBarrier? then M.SendBarrier
    else M.HearAck
  }

  lemma NextMoveCounts(m: M.Manager)
    requires M.Inv(m) && m.worker.Running? && !m.admission && !m.coordinator.Finished?
    ensures M.Enabled(m, NextMove(m), true)
    ensures var next := M.Next(m, NextMove(m));
            M.Inv(next) && next.worker.Running? && !next.admission && next.waiters == m.waiters
            && Distance(next) < Distance(m)
  {
    M.NextInv(m, NextMove(m));
  }

  /** As long as the worker lives, a caller of `shutdown` need not wait for anything but the queue: from any state the
      worker can empty it, and the caller returns. */
  lemma {:induction false} ShutdownCanComplete(m: M.Manager, caller: nat) returns (moves: seq<M.Move>)
    requires M.Inv(m) && m.worker.Running? && caller in m.waiters && m.waiters[caller].Blocked?
    ensures Possible(m, moves) && Moved(m, moves).phase.Completed?
    ensures caller in Moved(m, moves).waiters && Moved(m, moves).waiters[caller].Returned?
    decreases Distance(m)
  {
    if m.coordinator.Finished? {
      M.WhoReturns(m, caller);
      moves := [M.Return(caller)];
      assert moves[1..] == [];
    } else {
      NextMoveCounts(m);
      var rest := ShutdownCanComplete(M.Next(m, NextMove(m)), caller);
      moves := [NextMove(m)] + rest;
      assert moves[1..] == rest;
    }
  }
}
