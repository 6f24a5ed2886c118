/** What the protocol lets its users do: from every state, locks that are free can be acquired, active guards can be
    renewed and released, whatever else has happened. */
module Progress {
  import opened Redis
  import opened Scripts
  import opened LockTable
  import opened LockRequest
  import opened Protocol
  import opened Exclusion
  import L = Leases
  import S = Sessions
  import M = Managers

  // ----- reaching a state -----

  ghost predicate Reaches(w: World, v: World) {
    exists run :: Legal(w, run) && End(w, run) == v
  }

  lemma ReachesItself(w: World)
    ensures Reaches(w, w)
  {
    assert Legal(w, []) && End(w, []) == w;
  }

  lemma {:induction false} Appended(w: World, run: seq<Label>, l: Label)
    requires Legal(w, run) && Enabled(End(w, run), l)
    ensures Legal(w, run + [l]) && End(w, run + [l]) == After(End(w, run), l)
    decreases |run|
  {
    if run == [] {
      assert [l][1..] == [];
    } else {
      Appended(After(w, run[0]), run[1..], l);
      assert (run + [l])[1..] == run[1..] + [l];
    }
  }

  lemma ReachesOn(w: World, v: World, l: Label)
    requires Reaches(w, v) && Enabled(v, l)
    ensures Reaches(w, After(v, l))
  {
    var run :| Legal(w, run) && End(w, run) == v;
    Appended(w, run, l);
  }

  ghost function WithSession(w: World, u: Token, s: S.Session): World {
    w.(sessions := w.sessions[u := s])
  }

  /** The session is one of a manager that still admits acquisitions, or has its guard already. */
  predicate At(w: World, u: Token, s: S.Session) {
    && u in w.sessions && w.sessions[u] == s
    && u in w.home && w.home[u] in w.managers
  }

  predicate Open(w: World, u: Token) {
    u in w.home && w.home[u] in w.managers && M.CanAdmit(w.managers[w.home[u]])
  }

  /** A move that does not show outside changes the session and nothing else. */
  lemma SilentStep(w: World, v: World, u: Token, s: S.Session, m: S.Move) returns (next: S.Session)
    requires Reaches(w, v) && At(v, u, s) && S.ActionOf(m).Silent? && S.Enabled(s, m, v.now, Open(v, u))
    ensures next == S.Next(s, m, v.now)
    ensures Reaches(w, WithSession(v, u, next)) && At(WithSession(v, u, next), u, next)
    ensures forall x :: WithSession(WithSession(v, u, next), u, x) == WithSession(v, u, x)
  {
    next := S.Next(s, m, v.now);
    ReachesOn(w, v, Act(u, m));
    assert After(v, Act(u, m)) == WithSession(v, u, next);
    forall x ensures WithSession(WithSession(v, u, next), u, x) == WithSession(v, u, x) {
      assert v.sessions[u := next][u := x] == v.sessions[u := x];
    }
  }

  /** A move that sends a command. */
  lemma SendStep(w: World, v: World, u: Token, s: S.Session, m: S.Move, op: Op) returns (x: World)
    requires Reaches(w, v) && At(v, u, s) && S.ActionOf(m) == S.Sends(op) && S.Enabled(s, m, v.now, Open(v, u))
    ensures Reaches(w, x) && At(x, u, S.Next(s, m, v.now))
    ensures CommandOf(s.request, op, s.ttl, v.now) in x.sent
    ensures x.now == v.now && x.db == v.db && x.managers == v.managers && x.home == v.home
  {
    S.NextKeepsRequest(s, m, v.now);
    ReachesOn(w, v, Act(u, m));
    x := After(v, Act(u, m));
  }

  /** The network is quick: a command that has been sent is executed at once. */
  lemma ExecuteStep(w: World, v: World, u: Token, s: S.Session, op: Op) returns (x: World, reply: Reply)
    requires Reaches(w, v) && At(v, u, s) && CommandOf(s.request, op, s.ttl, v.now) in v.sent
    ensures Reaches(w, x) && At(x, u, s)
    ensures (reply, x.db) == Perform(v.db, s.request, op, if op.Release? then 0 else s.ttl, v.now)
    ensures forall granted :: reply == Done(granted) ==> Delivered(x, s, op, v.now, granted)
    ensures x.now == v.now && x.managers == v.managers && x.home == v.home
  {
    var c := CommandOf(s.request, op, s.ttl, v.now);
    ReachesOn(w, v, Execute(c));
    x := After(v, Execute(c));
    reply := Perform(v.db, c.request, c.op, c.ttl, v.now).0;
    assert Receipt(c, v.now, reply) in x.receipts;
  }

  /** A reply is heard. */
  lemma HearStep(w: World, v: World, u: Token, s: S.Session, m: S.Move) returns (x: World)
    requires Reaches(w, v) && At(v, u, s) && S.Enabled(s, m, v.now, Open(v, u))
    requires var a := S.ActionOf(m); a.Hears? && Delivered(v, s, a.op, a.start, a.granted)
    ensures Reaches(w, x) && At(x, u, S.Next(s, m, v.now))
    ensures x.now == v.now && x.db == v.db && x.managers == v.managers && x.home == v.home
  {
    ReachesOn(w, v, Act(u, m));
    x := After(v, Act(u, m));
  }

  // ----- acquiring -----

  /** From a confirmed grant on, the guard gets to the user. */
  lemma GuardArrives(w: World, v: World, u: Token, s: S.Session) returns (x: World)
    requires Reaches(w, v) && At(v, u, s) && (s.backend.Async? ==> Open(v, u))
    requires s.supervisor == S.Deciding(v.now) && s.ttl > 0
    requires s.caller.Waiting? && s.slot.Nothing? && s.acceptance.Unused? && s.guard.NoGuard?
    ensures Reaches(w, x) && x.now == v.now && x.db == v.db
    ensures u in x.sessions && x.sessions[u].request == s.request
    ensures x.sessions[u].guard == S.Guard(L.LeaseData(L.Active, v.now, s.ttl), S.WithUser, false, false)
    ensures x.sessions[u].caller.Claimed?
  {
    var made := SilentStep(w, v, u, s, S.MakeGuard);
    var sent := SilentStep(w, WithSession(v, u, made), u, made, S.HandOver);
    x := GuardTaken(w, WithSession(v, u, sent), u, sent);
  }

  lemma GuardTaken(w: World, v: World, u: Token, s: S.Session) returns (x: World)
    requires Reaches(w, v) && At(v, u, s)
    requires s.caller.Waiting? && s.slot.Parcel? && S.At(s, S.InSlot) && L.ActiveAt(s.guard.lease, v.now)
    ensures Reaches(w, x) && x.now == v.now && x.db == v.db
    ensures u in x.sessions && x.sessions[u].request == s.request
    ensures x.sessions[u].guard == s.guard.(place := S.WithUser) && x.sessions[u].caller.Claimed?
  {
    var taken := SilentStep(w, v, u, s, S.Take);
    var cleared := SilentStep(w, WithSession(v, u, taken), u, taken, S.Clear);
    x := GuardClaimed(w, WithSession(v, u, cleared), u, cleared);
  }

  lemma GuardClaimed(w: World, v: World, u: Token, s: S.Session) returns (x: World)
    requires Reaches(w, v) && At(v, u, s) && s.caller.Cleared? && s.guard.Guard?
    ensures Reaches(w, x) && x.now == v.now && x.db == v.db
    ensures u in x.sessions && x.sessions[u].request == s.request
    ensures x.sessions[u].guard == s.guard.(place := S.WithUser) && x.sessions[u].caller.Claimed?
  {
    var claimed := SilentStep(w, v, u, s, S.Claim);
    x := WithSession(v, u, claimed);
  }

  /** Whatever has happened, a request that the server would grant now can get its user an active guard now: with an
      open manager of the right kind and a fresh token, in every backend. */
  lemma FreeLocksCanBeAcquired(w: World, u: Token, backend: S.Backend, target: LockTarget, ttl: nat, id: nat)
    returns (x: World)
    requires u !in w.sessions && id in w.managers && (backend.Async? <==> w.managers[id].isAsync)
    requires w.managers[id].admission && (w.managers[id].isAsync ==> w.managers[id].phase.Open?)
    requires 1 <= ttl <= MAX_EXACT
    requires Perform(w.db, Request(target, u), Acquire, ttl, w.now).0 == Done(true)
    ensures Reaches(w, x) && x.now == w.now && ActiveGuard(x, u)
    ensures x.sessions[u].request == Request(target, u)
    ensures S.At(x.sessions[u], S.WithUser) && x.sessions[u].caller.Claimed?
    ensures x.db == Perform(w.db, Request(target, u), Acquire, ttl, w.now).1
  {
    var v, s := RequestSent(w, u, backend, target, ttl, id);
    x := RequestGranted(w, v, u, s);
  }

  lemma RequestSent(w: World, u: Token, backend: S.Backend, target: LockTarget, ttl: nat, id: nat)
    returns (x: World, s: S.Session)
    requires u !in w.sessions && id in w.managers && (backend.Async? <==> w.managers[id].isAsync)
    requires w.managers[id].admission && (w.managers[id].isAsync ==> w.managers[id].phase.Open?)
    requires 1 <= ttl <= MAX_EXACT
    ensures Reaches(w, x) && At(x, u, s) && Open(x, u) && x.now == w.now && x.db == w.db
    ensures s == S.Begin(backend, Request(target, u), ttl).(supervisor := S.Awaiting(w.now))
    ensures CommandOf(s.request, Acquire, ttl, w.now) in x.sent
  {
    var l := NewSession(u, backend, target, ttl, id);
    ReachesItself(w);
    ReachesOn(w, w, l);
    var begun := S.Begin(backend, Request(target, u), ttl);
    x := SendStep(w, After(w, l), u, begun, S.SendAttempt, Acquire);
    s := S.Next(begun, S.SendAttempt, w.now);
  }

  lemma RequestGranted(w: World, v: World, u: Token, s: S.Session) returns (x: World)
    requires Reaches(w, v) && At(v, u, s) && Open(v, u) && s.ttl > 0
    requires CommandOf(s.request, Acquire, s.ttl, v.now) in v.sent
    requires s == S.Begin(s.backend, s.request, s.ttl).(supervisor := S.Awaiting(v.now))
    requires Perform(v.db, s.request, Acquire, s.ttl, v.now).0 == Done(true)
    ensures Reaches(w, x) && x.now == v.now && ActiveGuard(x, u)
    ensures x.sessions[u].request == s.request
    ensures S.At(x.sessions[u], S.WithUser) && x.sessions[u].caller.Claimed?
    ensures x.db == Perform(v.db, s.request, Acquire, s.ttl, v.now).1
  {
    var heard := S.HearAttempt(v.now, true, false);
    var executed, reply := ExecuteStep(w, v, u, s, Acquire);
    var granted := HearStep(w, executed, u, s, heard);
    x := GuardArrives(w, granted, u, S.Next(s, heard, v.now));
  }

  // ----- renewing and releasing -----

  /** An active guard can be renewed: its lease then counts from now. */
  lemma ActiveGuardsCanBeRenewed(w: World, u: Token) returns (x: World)
    requires Inv(w) && ActiveGuard(w, u)
    requires w.sessions[u].request.target.Mode().Mutex? || w.now + w.sessions[u].ttl <= MAX_EXACT
    ensures Reaches(w, x) && x.now == w.now && ActiveGuard(x, u)
    ensures x.sessions[u].guard.lease == L.LeaseData(L.Active, w.now, w.sessions[u].ttl)
    ensures x.sessions[u].guard.place == w.sessions[u].guard.place
  {
    assert SessionOk(w, u);
    RenewalInState(w, u);
    x := Renewed(w, u, w.sessions[u]);
  }

  lemma Renewed(w: World, u: Token, s: S.Session) returns (x: World)
    requires At(w, u, s) && s.guard.Guard? && L.ActiveAt(s.guard.lease, w.now) && s.ttl > 0
    requires Perform(w.db, s.request, Renew, s.ttl, w.now).0 == Done(true)
    ensures Reaches(w, x) && x.now == w.now && u in x.sessions
    ensures x.sessions[u].guard == s.guard.(lease := L.LeaseData(L.Active, w.now, s.ttl))
  {
    ReachesItself(w);
    var sent := SendStep(w, w, u, s, S.SendRenewal, Renew);
    var executed, reply := ExecuteStep(w, sent, u, s, Renew);
    x := HearStep(w, executed, u, s, S.HearRenewal(w.now, true, w.now));
  }

  /** A guard in its user's hands can be released: its key entries are gone, and then so is the guard. */
  lemma GuardsCanBeReleased(w: World, u: Token) returns (x: World)
    requires Inv(w) && u in w.sessions && S.At(w.sessions[u], S.WithUser) && !w.sessions[u].guard.isReleased
    ensures Reaches(w, x) && x.now == w.now
    ensures u in x.sessions && S.At(x.sessions[u], S.Discarded) && x.sessions[u].guard.isReleased
    ensures x.db == Perform(w.db, w.sessions[u].request, Release, 0, w.now).1
  {
    assert SessionOk(w, u);
    var v, s := ReleaseSentOff(w, u, w.sessions[u]);
    x := ReleaseHeard(w, v, u, s);
  }

  lemma ReleaseSentOff(w: World, u: Token, s: S.Session) returns (x: World, lost: S.Session)
    requires At(w, u, s) && S.At(s, S.WithUser) && s.caller.Claimed? && !s.guard.isReleased
    ensures Reaches(w, x) && At(x, u, lost) && x.now == w.now && x.db == w.db
    ensures S.At(lost, S.WithUser) && lost.guard.releasing && lost.request == s.request
    ensures CommandOf(lost.request, Release, lost.ttl, w.now) in x.sent
  {
    ReachesItself(w);
    lost := SilentStep(w, w, u, s, S.BeginRelease);
    x := SendStep(w, WithSession(w, u, lost), u, lost, S.SendGuardRelease, Release);
  }

  lemma ReleaseHeard(w: World, v: World, u: Token, s: S.Session) returns (x: World)
    requires Reaches(w, v) && At(v, u, s) && S.At(s, S.WithUser) && s.guard.releasing
    requires CommandOf(s.request, Release, s.ttl, v.now) in v.sent
    ensures Reaches(w, x) && x.now == v.now
    ensures u in x.sessions && S.At(x.sessions[u], S.Discarded) && x.sessions[u].guard.isReleased
    ensures x.db == Perform(v.db, s.request, Release, 0, v.now).1
  {
    var executed, reply := ExecuteStep(w, v, u, s, Release);
    var heard := S.FinishRelease(v.now, reply.ok);
    var answered := HearStep(w, executed, u, s, heard);
    x := ReleasedDropped(w, answered, u, S.Next(s, heard, v.now));
  }

  lemma ReleasedDropped(w: World, v: World, u: Token, s: S.Session) returns (x: World)
    requires Reaches(w, v) && At(v, u, s) && S.At(s, S.WithUser) && s.guard.isReleased
    ensures Reaches(w, x) && x.now == v.now && x.db == v.db
    ensures u in x.sessions && S.At(x.sessions[u], S.Discarded) && x.sessions[u].guard.isReleased
  {
    var dropped := SilentStep(w, v, u, s, S.BeginDrop);
    x := WithSession(v, u, dropped);
  }
}
