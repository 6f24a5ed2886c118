/** The fields by which a manager admits acquisitions and shuts down, and the code that changes them.  Each
    method is a move of the manager's state machine, so what holds of every run of that holds of the code. */
module Control {
  import opened Redis
  import M = Managers

  /** The move with which the coordinator of a shutdown is done: it has heard the barrier's acknowledgement,
      or the barrier could not be sent or was lost. */
  predicate Concludes(move: M.Move, completed: bool) {
    if completed then move.HearAck? else move.BarrierUnsent? || move.AckLost?
  }

  class AsyncControl {
    var admission: bool  // the sender is still there
    var state: M.Phase

    constructor ()
      ensures Shows(M.New(true))
    {
      admission, state := true, M.Open;
    }

    predicate Shows(m: M.Manager)
      reads this
    {
      m.isAsync && m.admission == admission && m.phase == state
    }

    method Admit(ghost m: M.Manager) returns (ok: bool)
      requires Shows(m)
      ensures ok <==> M.CanAdmit(m)
      ensures ok <==> admission && state.Open?
    {
      if state != M.Open {
        return false;
      }
      ok := admission;
    }

    method BeginShutdown(ghost m: M.Manager, ghost caller: nat) returns (coordinates: bool)
      requires Shows(m) && caller !in m.waiters
      modifies this
      ensures Shows(M.Next(m, M.CallShutdown(caller)))
      ensures coordinates <==> old(admission)
      ensures !admission && state == if coordinates && old(state).Open? then M.Closing else old(state)
    {
      coordinates := admission;
      if admission {
        admission := false;
        if state == M.Open {
          state := M.Closing;
        }
      }
    }

    /** The coordinator's last step does not undo a failure that was noticed before. */
    method Conclude(completed: bool, ghost m: M.Manager, ghost move: M.Move) returns (changed: bool)
      requires Shows(m) && M.Enabled(m, move, false) && Concludes(move, completed)
      modifies this
      ensures Shows(M.Next(m, move))
      ensures changed <==> !old(state).Failed?
      ensures state == (if completed && changed then M.Completed else M.Failed) && admission == old(admission)
    {
      changed := state != M.Failed;
      if changed {
        state := if completed then M.Completed else M.Failed;
      }
    }

    /** Nor does the end of the worker undo a completed shutdown. */
    method WorkerDied(ghost m: M.Manager) returns (changed: bool)
      requires Shows(m) && M.Enabled(m, M.NoticePanic, false)
      modifies this
      ensures Shows(M.Next(m, M.NoticePanic))
      ensures changed <==> !old(state).Completed?
      ensures state == (if changed then M.Failed else M.Completed) && admission == old(admission)
    {
      changed := state != M.Completed;
      if changed {
        state := M.Failed;
      }
    }

    /** One turn of the wait in `shutdown`. */
    method Look(ghost m: M.Manager, ghost caller: nat) returns (w: M.Waiter)
      requires Shows(m) && caller in m.waiters && m.waiters[caller].Blocked?
      ensures w.Blocked? <==> !M.Enabled(m, M.Return(caller), false)
      ensures !w.Blocked? ==> M.Next(m, M.Return(caller)).waiters[caller] == w
      ensures (w.Returned? <==> state.Completed?) && (w.Crashed? <==> state.Failed?)
    {
      w := match state
        case Completed => M.Returned
        case Failed => M.Crashed
        case _ => M.Blocked;
    }
  }

  class SyncControl {
    var hasSender: bool
    var isShutdown: bool
    var result: Option<bool>

    constructor ()
      ensures Shows(M.New(false))
    {
      hasSender, isShutdown, result := true, false, None;
    }

    predicate Shows(m: M.Manager)
      reads this
    {
      && !m.isAsync && m.admission == hasSender
      && m.phase == if result.Some? then (if result.value then M.Completed else M.Failed)
                    else if isShutdown then M.Closing else M.Open
    }

    method Admit(ghost m: M.Manager) returns (ok: bool)
      requires Shows(m)
      ensures ok <==> M.CanAdmit(m)
      ensures ok <==> hasSender
    {
      ok := hasSender;
    }

    method BeginShutdown(ghost m: M.Manager, ghost caller: nat) returns (coordinates: bool)
      requires Shows(m) && M.Inv(m) && caller !in m.waiters
      modifies this
      ensures Shows(M.Next(m, M.CallShutdown(caller)))
      ensures coordinates <==> old(hasSender)
      ensures !hasSender && isShutdown && result == old(result)
    {
      coordinates := hasSender;
      hasSender := false;
      isShutdown := true;
    }

    method Conclude(completed: bool, ghost m: M.Manager, ghost move: M.Move)
      requires Shows(m) && M.Inv(m) && M.Enabled(m, move, false) && Concludes(move, completed)
      modifies this
      ensures Shows(M.Next(m, move))
      ensures result == Some(completed) && hasSender == old(hasSender) && isShutdown == old(isShutdown)
    {
      result := Some(completed);
    }

    /** One turn of the wait in `shutdown`, under the lock of the result. */
    method Look(ghost m: M.Manager, ghost caller: nat) returns (w: M.Waiter)
      requires Shows(m) && caller in m.waiters && m.waiters[caller].Blocked?
      ensures w.Blocked? <==> !M.Enabled(m, M.Return(caller), false)
      ensures !w.Blocked? ==> M.Next(m, M.Return(caller)).waiters[caller] == w
      ensures (w.Returned? <==> result == Some(true)) && (w.Crashed? <==> result == Some(false))
    {
      w := match result
        case None => M.Blocked
        case Some(true) => M.Returned
        case Some(false) => M.Crashed;
    }
  }
}
