/** The lock manager: the bounded release queue and its worker, the admission seal and shutdown.
    Async and sync managers share the protocol; only the async one watches its worker for a panic. */
module Managers {
  import opened Redis
  import opened LockRequest

  const CAPACITY: nat := 1024

  datatype Item = ReleaseItem(request: Request) | Barrier
  datatype Worker = Running | Exited | Panicked
  datatype Coordinator = NotStarted | SendingBarrier | AwaitingAck | Finished
  datatype Phase = Open | Closing | Completed | Failed
  datatype Waiter = Blocked | Returned | Crashed  // a caller of `shutdown`

  datatype Manager = Manager(
    isAsync: bool,
    admission: bool,            // the manager's own sender is still there
    phase: Phase,
    history: seq<Item>,         // everything ever queued
    taken: nat,                 // how much of it the worker has taken out
    busy: Option<Request>,      // a release taken out but not yet attempted
    attempted: seq<Request>,    // releases attempted, in order
    worker: Worker,
    coordinator: Coordinator,
    acked: bool,
    barrierAt: Option<nat>,     // history: where the barrier was queued
    waiters: map<nat, Waiter>)

  function New(isAsync: bool): Manager {
    Manager(isAsync, true, Open, [], 0, None, [], Running, NotStarted, false, None, map[])
  }

  datatype Move =
    | Enqueue(request: Request)   // try_send by a session
    | TakeItem
    | AttemptRelease
    | WorkerPanic
    | WorkerExit                  // the last sender is gone and the queue is empty
    | NoticePanic
    | CallShutdown(caller: nat)
    | SendBarrier
    | BarrierUnsent
    | HearAck
    | AckLost
    | Return(caller: nat)

  predicate CanAdmit(m: Manager) {
    m.admission && (m.isAsync ==> m.phase.Open?)
  }

  predicate HasRoom(m: Manager) {
    m.taken <= |m.history| < m.taken + CAPACITY
  }

  predicate CanEnqueue(m: Manager) {
    m.worker.Running? && HasRoom(m)
  }

  /** The manager itself, or the shutdown in progress, holds a sender. */
  predicate HoldsSender(m: Manager) {
    m.admission || m.coordinator.SendingBarrier? || m.coordinator.AwaitingAck?
  }

  predicate Enabled(m: Manager, move: Move, othersSend: bool) {
    match move
    case Enqueue(_) => CanEnqueue(m)
    case TakeItem => m.worker.Running? && m.busy.None? && m.taken < |m.history|
    case AttemptRelease => m.worker.Running? && m.busy.Some?
    case WorkerPanic => m.worker.Running?
    case WorkerExit =>
      m.worker.Running? && m.busy.None? && m.taken == |m.history| && !HoldsSender(m) && !othersSend
    case NoticePanic => m.isAsync && m.worker.Panicked?
    case CallShutdown(caller) => caller !in m.waiters
    case SendBarrier => m.coordinator.SendingBarrier? && CanEnqueue(m)
    case BarrierUnsent => m.coordinator.SendingBarrier? && !m.worker.Running?
    case HearAck => m.coordinator.AwaitingAck? && m.acked
    case AckLost => m.coordinator.AwaitingAck? && !m.acked && !m.worker.Running?
    case Return(caller) =>
      && caller in m.waiters && m.waiters[caller].Blocked?
      && (m.phase.Completed? || m.phase.Failed?)
  }

  function Next(m: Manager, move: Move): Manager
    requires Enabled(m, move, false)
  {
    match move
    case Enqueue(request) => m.(history := m.history + [ReleaseItem(request)])
    case TakeItem =>
      (match m.history[m.taken]
       case ReleaseItem(request) => m.(taken := m.taken + 1, busy := Some(request))
       case Barrier => m.(taken := m.taken + 1, acked := true))
    case AttemptRelease => m.(busy := None, attempted := m.attempted + [m.busy.value])
    case WorkerPanic => m.(worker := Panicked)
    case WorkerExit => m.(worker := Exited)
    case NoticePanic => if m.phase.Completed? then m else m.(phase := Failed)
    case CallShutdown(caller) =>
      var called := m.(waiters := m.waiters[caller := Blocked]);
      if !m.admission then called
      else called.(admission := false,
                   coordinator := SendingBarrier,
                   phase := if m.phase.Open? then Closing else m.phase)
    case SendBarrier =>
      m.(history := m.history + [Barrier], barrierAt := Some(|m.history|), coordinator := AwaitingAck)
    case BarrierUnsent => m.(coordinator := Finished, phase := Failed)
    case HearAck => m.(coordinator := Finished, phase := if m.phase.Failed? then Failed else Completed)
    case AckLost => m.(coordinator := Finished, phase := Failed)
    case Return(caller) =>
      m.(waiters := m.waiters[caller := if m.phase.Completed? then Returned else Crashed])
  }

  // ----- the invariant -----

  function ReleasesOf(items: seq<Item>): seq<Request> {
    if items == [] then []
    else
      var front := ReleasesOf(items[..|items| - 1]);
      match items[|items| - 1]
      case ReleaseItem(request) => front + [request]
      case Barrier => front
  }

  function Current(m: Manager): seq<Request> {
    if m.busy.Some? then [m.busy.value] else []
  }

  predicate QueueOk(m: Manager) {
    && m.taken <= |m.history| <= m.taken + CAPACITY
    && m.attempted + Current(m) == ReleasesOf(m.history[..m.taken])
    && (m.worker.Exited? ==> m.busy.None? && m.taken == |m.history| && !HoldsSender(m))
  }

  /** At most one barrier is ever queued; once it is acknowledged everything before it was attempted. */
  predicate BarrierOk(m: Manager) {
    && (forall b :: 0 <= b < |m.history| ==> (m.history[b].Barrier? <==> m.barrierAt == Some(b)))
    && (m.coordinator.AwaitingAck? ==> m.barrierAt.Some?)
    && (m.barrierAt.Some? ==>
          && m.barrierAt.value < |m.history|
          && (m.coordinator.AwaitingAck? || m.coordinator.Finished?))
  }

  predicate AckOk(m: Manager) {
    && (m.acked <==> m.barrierAt.Some? && m.barrierAt.value < m.taken)
    && (m.acked ==> m.barrierAt.value < |m.history|
                    && ReleasesOf(m.history[..m.barrierAt.value]) <= m.attempted)
  }

  predicate PhaseOk(m: Manager) {
    && (m.admission <==> m.coordinator.NotStarted?)
    && (m.admission ==> m.phase.Open? || m.phase.Failed?)
    && (m.phase.Open? ==> m.admission)
    && (m.phase.Closing? ==> m.coordinator.SendingBarrier? || m.coordinator.AwaitingAck?)
    && (m.phase.Completed? ==> m.acked && m.coordinator.Finished?)
    && (!m.isAsync && m.phase.Failed? ==> m.coordinator.Finished?)
    && (m.phase.Failed? ==> m.worker.Panicked?)
    && (m.coordinator.Finished? ==> m.phase.Completed? || m.phase.Failed?)
    && (!m.isAsync && m.acked && m.coordinator.Finished? ==> m.phase.Completed?)
    && (forall w :: w in m.waiters && m.waiters[w].Returned? ==> m.phase.Completed?)
    && (forall w :: w in m.waiters && m.waiters[w].Crashed? ==> m.phase.Failed?)
    && (m.waiters != map[] ==> !m.admission)
  }

  predicate Inv(m: Manager) {
    QueueOk(m) && BarrierOk(m) && AckOk(m) && PhaseOk(m)
  }

  lemma NewInv(isAsync: bool)
    ensures Inv(New(isAsync))
  {
  }

  lemma TakeItemQueue(m: Manager)
    requires QueueOk(m) && Enabled(m, TakeItem, false)
    ensures QueueOk(Next(m, TakeItem))
  {
    assert m.history[..m.taken + 1][..m.taken] == m.history[..m.taken];
  }

  lemma NextQueue(m: Manager, move: Move)
    requires QueueOk(m) && PhaseOk(m) && Enabled(m, move, false)
    ensures QueueOk(Next(m, move))
  {
    if move.TakeItem? {
      TakeItemQueue(m);
    } else {
      assert Next(m, move).history[..m.taken] == m.history[..m.taken];
    }
  }

  lemma NextBarrier(m: Manager, move: Move)
    requires BarrierOk(m) && PhaseOk(m) && Enabled(m, move, false)
    ensures BarrierOk(Next(m, move))
  {
  }

  lemma NextAck(m: Manager, move: Move)
    requires QueueOk(m) && BarrierOk(m) && AckOk(m) && Enabled(m, move, false)
    ensures AckOk(Next(m, move))
  {
    var next := Next(m, move);
    if m.acked {
      assert next.history[..m.barrierAt.value] == m.history[..m.barrierAt.value];
    }
    if move.TakeItem? && m.history[m.taken].Barrier? {
      assert m.attempted == ReleasesOf(m.history[..m.taken]);
    }
  }

  lemma NextPhase(m: Manager, move: Move)
    requires Inv(m) && Enabled(m, move, false)
    ensures PhaseOk(Next(m, move))
  {
  }

  lemma NextInv(m: Manager, move: Move)
    requires Inv(m) && Enabled(m, move, false)
    ensures Inv(Next(m, move))
  {
    NextQueue(m, move);
    NextBarrier(m, move);
    NextAck(m, move);
    NextPhase(m, move);
  }

  /** Completion and failure are final, and nobody is admitted after shutdown began. */
  lemma Absorbing(m: Manager, move: Move)
    requires Inv(m) && Enabled(m, move, false)
    ensures m.phase.Completed? ==> Next(m, move).phase.Completed?
    ensures m.phase.Failed? ==> Next(m, move).phase.Failed?
    ensures !m.phase.Open? ==> !Next(m, move).phase.Open?
    ensures !m.admission ==> !Next(m, move).admission
  {
  }

  /** A blocked caller returns from a completed shutdown, crashes on a failed one, and is let go by no other. */
  lemma WhoReturns(m: Manager, caller: nat)
    requires caller in m.waiters && m.waiters[caller].Blocked?
    ensures Enabled(m, Return(caller), false) <==> m.phase.Completed? || m.phase.Failed?
    ensures m.phase.Completed? ==> Next(m, Return(caller)).waiters[caller].Returned?
    ensures m.phase.Failed? ==> Next(m, Return(caller)).waiters[caller].Crashed?
  {
  }

  /** The coordinator that hears the acknowledgement completes the shutdown, unless a panic was noticed first;
      one that cannot hear it any more has it fail. */
  lemma HowItEnds(m: Manager, move: Move)
    requires Inv(m) && Enabled(m, move, false)
    ensures move.HearAck? ==> Next(m, move).phase == if m.phase.Failed? then Failed else Completed
    ensures move.AckLost? || move.BarrierUnsent? ==> Next(m, move).phase.Failed?
    ensures move.NoticePanic? ==> Next(m, move).phase == if m.phase.Completed? then Completed else Failed
  {
  }

  /** A release that the worker has taken out was queued. */
  lemma {:induction false} ReleasesAreItems(items: seq<Item>, r: Request)
    requires r in ReleasesOf(items)
    ensures ReleaseItem(r) in items
  {
    var front := items[..|items| - 1];
    if r in ReleasesOf(front) {
      ReleasesAreItems(front, r);
    }
  }

  lemma BusyWasQueued(m: Manager)
    requires QueueOk(m) && m.busy.Some?
    ensures ReleaseItem(m.busy.value) in m.history
  {
    assert m.busy.value in m.attempted + Current(m);
    ReleasesAreItems(m.history[..m.taken], m.busy.value);
  }

  /** The release, if any, that a step sends to Redis. */
  function Attempting(m: Manager, move: Move): Option<Request> {
    if move.AttemptRelease? then m.busy else None
  }

  /** The contract of one step towards the rest of the system. */
  ghost predicate Contract(m: Manager, next: Manager, released: Option<Request>, othersSend: bool) {
    && Inv(next)
    && (forall r :: ReleaseItem(r) in next.history ==> ReleaseItem(r) in m.history)
    && (released.Some? ==> ReleaseItem(released.value) in m.history)
    && (forall r :: r in next.attempted ==> r in m.attempted || released == Some(r))
    && (next.worker.Exited? ==> m.worker.Exited? || !othersSend)
  }

  lemma NextContract(m: Manager, move: Move, othersSend: bool)
    requires Inv(m) && Enabled(m, move, othersSend) && !move.Enqueue?
    ensures Contract(m, Next(m, move), Attempting(m, move), othersSend)
  {
    NextInv(m, move);
    if move.AttemptRelease? {
      BusyWasQueued(m);
    }
    NextItems(m, move);
  }

  lemma NextItems(m: Manager, move: Move)
    requires Enabled(m, move, false) && !move.Enqueue?
    ensures forall r :: ReleaseItem(r) in Next(m, move).history ==> ReleaseItem(r) in m.history
    ensures forall r :: r in Next(m, move).attempted ==> r in m.attempted || Attempting(m, move) == Some(r)
  {
  }
}
