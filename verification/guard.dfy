/** A guard's own code, and the worker that drains the release queue.  Whether a command reaches Redis and
    whether its reply comes back are arguments. */
module Guards {
  import opened Redis
  import opened Scripts
  import opened LockTable
  import opened LockRequest
  import opened ScriptServer
  import L = Leases
  import M = Managers
  import S = Sessions
  import opened SessionPlays

  datatype Sent = Accepted | Full | Closed

  class ReleaseQueue {
    var items: seq<M.Item>
    var isOpen: bool  // the worker still receives

    constructor ()
      ensures items == [] && isOpen
    {
      items := [];
      isOpen := true;
    }

    method TrySend(item: M.Item) returns (outcome: Sent)
      modifies this`items
      ensures outcome == if !isOpen then Closed else if |old(items)| >= M.CAPACITY then Full else Accepted
      ensures items == if outcome.Accepted? then old(items) + [item] else old(items)
    {
      if !isOpen {
        return Closed;
      }
      if |items| >= M.CAPACITY {
        return Full;
      }
      items := items + [item];
      outcome := Accepted;
    }
  }

  // ----- the guard's code as plays of its session -----

  /** Who can call `release`: the user, and the async supervisor for a guard that it could not send. */
  predicate CanRelease(s: S.Session) {
    || (S.At(s, S.WithUser) && s.caller.Claimed?)
    || (S.At(s, S.WithSupervisor) && s.supervisor.Disposing? && !s.guard.releasing && !s.guard.isReleased)
  }

  /** The lease is lost before the command is sent, and the guard is released on the answer, `complete` or not,
      to the command that was sent at `at`. */
  function ReleaseMoves(s: S.Session, ok: bool, complete: bool, at: int): seq<S.Move> {
    if s.guard.Guard? && s.guard.isReleased then []
    else if S.At(s, S.WithSupervisor) then
      [S.BeginDisposal, S.SendDisposal, if ok then S.HearDisposed(at, complete) else S.DisposalFails]
    else if ok then [S.BeginRelease, S.SendGuardRelease, S.FinishRelease(at, complete)]
    else [S.BeginRelease, S.SendGuardRelease]
  }

  /** Nothing is left to do for a released guard; any other lease is released before its release is queued. */
  function DropMoves(s: S.Session, queued: bool): seq<S.Move> {
    (if S.At(s, S.WithUser) then [S.BeginDrop] else [])
    + (if s.guard.Guard? && s.guard.isReleased then [] else [S.MarkReleased, S.QueueRelease(queued)])
  }

  lemma PlaySending(s: S.Session, at: int) returns (events: seq<Event>)
    requires S.At(s, S.WithUser) && s.caller.Claimed? && !s.guard.isReleased
    ensures Plays(s, events) && MovesOf(events) == [S.BeginRelease, S.SendGuardRelease]
    ensures Played(s, events) == s.(guard := s.guard.(releasing := true, lease := L.Lose(s.guard.lease)))
  {
    events := Play(s, [], S.BeginRelease, at);
    events := Play(s, events, S.SendGuardRelease, at);
  }

  lemma PlayUserRelease(s: S.Session, ok: bool, complete: bool, at: int) returns (events: seq<Event>)
    requires S.At(s, S.WithUser) && s.caller.Claimed? && !s.guard.isReleased
    ensures Plays(s, events) && MovesOf(events) == ReleaseMoves(s, ok, complete, at)
    ensures Played(s, events).request == s.request
    ensures var lost := L.Lose(s.guard.lease);
            Played(s, events).guard
            == s.guard.(releasing := true, isReleased := ok, lease := if ok then L.Release(lost) else lost)
  {
    events := PlaySending(s, at);
    if ok {
      events := Play(s, events, S.FinishRelease(at, complete), at);
    }
  }

  lemma PlayDisposal(s: S.Session, ok: bool, complete: bool, at: int) returns (events: seq<Event>)
    requires CanRelease(s) && S.At(s, S.WithSupervisor)
    ensures Plays(s, events) && MovesOf(events) == ReleaseMoves(s, ok, complete, at)
    ensures Played(s, events).request == s.request
    ensures var lost := L.Lose(s.guard.lease);
            Played(s, events).guard
            == S.Guard(if ok then L.Release(lost) else lost, if ok then S.Discarded else S.Dropping, true, ok)
  {
    events := Play(s, [], S.BeginDisposal, at);
    events := Play(s, events, S.SendDisposal, at);
    events := Play(s, events, if ok then S.HearDisposed(at, complete) else S.DisposalFails, at);
  }

  lemma PlayRelease(s: S.Session, ok: bool, complete: bool, at: int) returns (events: seq<Event>)
    requires CanRelease(s) && !s.guard.isReleased
    ensures Plays(s, events) && MovesOf(events) == ReleaseMoves(s, ok, complete, at)
    ensures var end, lost := Played(s, events), L.Lose(s.guard.lease);
            && end.request == s.request && end.guard.Guard?
            && end.guard.lease == (if ok then L.Release(lost) else lost)
            && end.guard.isReleased == ok && !(S.At(end, S.Discarded) && !ok)
  {
    if S.At(s, S.WithUser) {
      events := PlayUserRelease(s, ok, complete, at);
    } else {
      events := PlayDisposal(s, ok, complete, at);
    }
  }

  lemma PlayQueuing(s: S.Session, before: seq<Event>, queued: bool, at: int) returns (events: seq<Event>)
    requires Plays(s, before) && S.At(Played(s, before), S.Dropping)
    ensures Plays(s, events) && MovesOf(events) == MovesOf(before) + [S.MarkReleased, S.QueueRelease(queued)]
    ensures var dropping, end := Played(s, before), Played(s, events);
            && end.request == dropping.request
            && end.guard == dropping.guard.(place := S.Discarded, lease := L.Release(dropping.guard.lease))
  {
    events := Play(s, before, S.MarkReleased, at);
    events := Play(s, events, S.QueueRelease(queued), at);
  }

  lemma PlayDrop(s: S.Session, queued: bool, at: int) returns (events: seq<Event>)
    requires S.At(s, S.WithUser) || S.At(s, S.Dropping)
    ensures Plays(s, events) && MovesOf(events) == DropMoves(s, queued)
    ensures Played(s, events).request == s.request
    ensures var end := Played(s, events).guard;
            if s.guard.isReleased then end.Guard? && end == s.guard.(place := end.place)
            else end == s.guard.(place := S.Discarded, lease := L.Release(s.guard.lease))
  {
    events := [];
    if S.At(s, S.WithUser) {
      events := Play(s, events, S.BeginDrop, at);
    }
    if !s.guard.isReleased {
      events := PlayQueuing(s, events, queued, at);
    }
  }

  class GuardData {
    const request: Request
    const lease: L.Lease
    const queue: ReleaseQueue
    var holdsSender: bool
    var renewing: bool     // stop_tx has not been used
    var isReleased: bool

    /** The session's guard, as these fields show it. */
    predicate Shows(s: S.Session)
      reads this, lease
    {
      && s.request == request
      && s.guard.Guard? && s.guard.lease == lease.data && s.guard.isReleased == isReleased
      && (holdsSender <==> !s.guard.isReleased && !S.At(s, S.Discarded))
    }

    constructor (request: Request, lease: L.Lease, queue: ReleaseQueue, renewing: bool)
      ensures this.request == request && this.lease == lease && this.queue == queue
      ensures holdsSender && this.renewing == renewing && !isReleased
      ensures forall s: S.Session ::
                s.request == request && s.guard == S.Guard(lease.data, S.WithSupervisor, false, false) ==> Shows(s)
    {
      this.request := request;
      this.lease := lease;
      this.queue := queue;
      this.renewing := renewing;
      holdsSender := true;
      isReleased := false;
    }

    /** A release of a guard that is not released: the lease is given up before the command leaves. */
    method Send(server: Server, delivered: bool, answered: bool) returns (ghost reply: Reply)
      requires !isReleased
      modifies this, lease, server`db
      ensures isReleased == answered && holdsSender == (old(holdsSender) && !answered) && !renewing
      ensures lease.data == if answered then L.Release(L.Lose(old(lease.data))) else L.Lose(old(lease.data))
      ensures if delivered || answered
              then (reply, server.db) == Perform(old(server.db), request, Op.Release, 0, server.Now())
              else server.db == old(server.db)
    {
      lease.Forfeit();
      renewing := false;
      reply := Done(false);
      if delivered || answered {
        reply := ReleaseLock(server, request);
      }
      if !answered {
        return;
      }
      isReleased := true;
      lease.Finish();
      holdsSender := false;
    }

    /** Only an answered release makes the guard released and lets go of the queue; after an error its lease
        stays lost and release can be tried again. */
    method Release(server: Server, delivered: bool, answered: bool, ghost s: S.Session)
      returns (ok: bool, ghost reply: Reply, ghost events: seq<Event>)
      requires Shows(s) && CanRelease(s)
      modifies this, lease, server`db
      ensures Plays(s, events) && Shows(Played(s, events))
      ensures MovesOf(events) == ReleaseMoves(s, ok, reply == Done(true), server.Now())
      ensures ok <==> old(isReleased) || answered
      ensures old(isReleased) ==>
                && lease.data == old(lease.data) && server.db == old(server.db)
                && isReleased && holdsSender == old(holdsSender) && renewing == old(renewing)
      ensures !old(isReleased) ==>
                && isReleased == ok && holdsSender == (old(holdsSender) && !ok) && !renewing
                && lease.data == (if ok then L.Release(L.Lose(old(lease.data))) else L.Lose(old(lease.data)))
                && lease.data.state == (if ok then L.Released else if old(lease.data).state.Active? then L.Lost
                                        else old(lease.data).state)
                && if delivered || answered
                   then (reply, server.db) == Perform(old(server.db), request, Op.Release, 0, server.Now())
                   else server.db == old(server.db)
    {
      events, reply := [], Done(false);
      if isReleased {
        return true, reply, events;
      }
      reply := Send(server, delivered, answered);
      events := PlayRelease(s, answered, reply == Done(true), server.Now());
      ok := answered;
    }

    /** Dropping an unreleased guard ends the lease and queues exactly one release, if it still has its sender and the
        queue takes it. */
    method Drop(ghost s: S.Session, ghost at: int) returns (ghost events: seq<Event>)
      requires Shows(s) && (S.At(s, S.WithUser) || S.At(s, S.Dropping))
      modifies this, lease, queue`items
      ensures Plays(s, events) && Shows(Played(s, events))
      ensures MovesOf(events) == DropMoves(s, |queue.items| > |old(queue.items)|)
      ensures isReleased == old(isReleased)
      ensures isReleased ==> queue.items == old(queue.items) && lease.data == old(lease.data)
      ensures !isReleased ==>
                && !holdsSender && !renewing
                && lease.data == L.Release(old(lease.data)) && lease.data.state.Released?
                && queue.items == if old(holdsSender) && queue.isOpen && |old(queue.items)| < M.CAPACITY
                                  then old(queue.items) + [M.ReleaseItem(request)]
                                  else old(queue.items)
    {
      ghost var before := |queue.items|;
      if isReleased {
        events := PlayDrop(s, false, at);
        return;
      }
      lease.Finish();
      renewing := false;
      if holdsSender {
        holdsSender := false;
        var _ := queue.TrySend(M.ReleaseItem(request));
      }
      events := PlayDrop(s, |queue.items| > before, at);
    }
  }

  // ----- the release worker -----

  /** The owner no longer holds any key of its request. */
  predicate Gone(db: Db, r: Request, now: int) {
    forall k :: k in r.target.Keys() ==> !Owns(Get(db, k, now), r.Owner())
  }

  /** The first `n` items' releases, as far as they reached Redis, are done. */
  predicate Drained(db: Db, items: seq<M.Item>, reaches: seq<bool>, n: nat, now: int)
    requires n <= |items| && |reaches| == |items|
  {
    forall i :: 0 <= i < n && reaches[i] && items[i].ReleaseItem? ==> Gone(db, items[i].request, now)
  }

  /** Whoever is not among the queued owners keeps what is stored. */
  ghost predicate OthersKeep(before: Db, db: Db, items: seq<M.Item>) {
    forall h, k :: Owns(At(before, k), h) != Owns(At(db, k), h) ==> QueuedOwner(items, h)
  }

  predicate QueuedOwner(items: seq<M.Item>, h: Owner) {
    exists i :: 0 <= i < |items| && items[i].ReleaseItem? && items[i].request.Owner() == h
  }

  lemma ReleaseDrains(db: Db, r: Request, now: int, other: Request)
    ensures var after := Perform(db, r, Op.Release, 0, now).1;
            && Gone(after, r, now)
            && (Gone(db, other, now) ==> Gone(after, other, now))
            && (forall h, k :: h != r.Owner() ==> (Owns(At(after, k), h) <==> Owns(At(db, k), h)))
  {
    forall k {
      ReleaseIsExact(db, r.target.Keys(), r.Owner(), now, k);
    }
  }

  /** The worker's loop: it takes the items in order, and acknowledges a barrier when every release queued
      before it has been attempted.  Releases that reached Redis are done, and nobody else lost a key. */
  method DrainQueue(queue: ReleaseQueue, server: Server, reaches: seq<bool>)
    returns (acks: seq<nat>, ghost seen: map<nat, Db>)
    requires |reaches| == |queue.items|
    modifies queue`items, server`db
    ensures queue.items == []
    ensures Drained(server.db, old(queue.items), reaches, |reaches|, server.Now())
    ensures OthersKeep(old(server.db), server.db, old(queue.items))
    ensures forall b :: b in acks <==> 0 <= b < |reaches| && old(queue.items)[b].Barrier?
    ensures forall b :: b in acks ==> b in seen && Drained(seen[b], old(queue.items), reaches, b, server.Now())
  {
    acks, seen := [], map[];
    ghost var items := queue.items;
    var n := 0;
    while queue.items != []
      invariant 0 <= n <= |items| && queue.items == items[n..]
      invariant Drained(server.db, items, reaches, n, server.Now())
      invariant OthersKeep(old(server.db), server.db, items)
      invariant forall b :: b in acks <==> 0 <= b < n && items[b].Barrier?
      invariant forall b :: b in acks ==> b in seen && Drained(seen[b], items, reaches, b, server.Now())
      decreases |queue.items|
    {
      var command := queue.items[0];
      queue.items := queue.items[1..];
      match command {
        case ReleaseItem(request) =>
          if reaches[n] {
            ghost var before := server.db;
            var _ := ReleaseLock(server, request);
            DrainOneMore(old(server.db), before, items, reaches, n, server.Now());
          }
        case Barrier =>
          acks, seen := acks + [n], seen[n := server.db];
      }
      n := n + 1;
    }
  }

  lemma DrainOneMore(first: Db, before: Db, items: seq<M.Item>, reaches: seq<bool>, n: nat, now: int)
    requires n < |items| && |reaches| == |items| && items[n].ReleaseItem?
    requires Drained(before, items, reaches, n, now) && OthersKeep(first, before, items)
    ensures var after := Perform(before, items[n].request, Op.Release, 0, now).1;
            Drained(after, items, reaches, n + 1, now) && OthersKeep(first, after, items)
  {
    var r := items[n].request;
    var after := Perform(before, r, Op.Release, 0, now).1;
    forall i | 0 <= i < n + 1 && reaches[i] && items[i].ReleaseItem? ensures Gone(after, items[i].request, now) {
      ReleaseDrains(before, r, now, items[i].request);
    }
    forall h, k | Owns(At(first, k), h) != Owns(At(after, k), h) ensures QueuedOwner(items, h) {
      ReleaseDrains(before, r, now, r);
      if h == r.Owner() {
        assert items[n].request.Owner() == h;
      }
    }
  }
}
