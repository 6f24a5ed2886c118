/** What the protocol guarantees to the holders of guards, in every state of every run. */
module Exclusion {
  import opened Redis
  import opened Scripts
  import opened LockTable
  import opened LockRequest
  import opened Protocol
  import L = Leases
  import S = Sessions

  /** Asked now, the guard's lease would answer `Active`. */
  predicate ActiveGuard(w: World, u: Token) {
    u in w.sessions && w.sessions[u].guard.Guard? && L.ActiveAt(w.sessions[u].guard.lease, w.now)
  }

  function KeysOf(w: World, u: Token): seq<Key>
    requires u in w.sessions
  {
    w.sessions[u].request.target.Keys()
  }

  function OwnerOf(w: World, u: Token): Owner
    requires u in w.sessions
  {
    w.sessions[u].request.Owner()
  }

  /** The instant at which the guard stops calling itself active. */
  function LocalDeadline(w: World, u: Token): int
    requires u in w.sessions && w.sessions[u].guard.Guard?
  {
    w.sessions[u].guard.lease.start + w.sessions[u].ttl
  }

  /** In the table of live holders, `o` has the key at least until `until`. */
  predicate LiveUntil(db: Db, now: int, k: Key, o: Owner, until: int) {
    o in Holders(View(db, now), k) && Holders(View(db, now), k)[o] >= until
  }

  lemma HoldersAreLive(db: Db, now: int, k: Key, o: Owner, until: int)
    requires Holds(db, k, o, until) && now < until
    ensures LiveUntil(db, now, k, o, until)
  {
    RowIsLive(db, now, k);
  }

  /** The confirmation that an active guard counts on: its command was executed no earlier than it was sent. */
  lemma ReceiptOf(w: World, u: Token) returns (r: Receipt)
    requires NetworkOk(w) && CountsOk(w) && ActiveGuard(w, u) && w.sessions[u].request.token == u
    ensures r in w.receipts && Positive(r) && r.command.request == w.sessions[u].request
    ensures r.at >= w.sessions[u].guard.lease.start && r.command.ttl == w.sessions[u].ttl
  {
    var s := w.sessions[u];
    assert S.CountsOn(s, s.guard.lease.start);
    assert Confirmed(w, s, s.guard.lease.start);
    r :| r in w.receipts && Positive(r) && r.command.request == s.request && r.command.sentAt == s.guard.lease.start;
    assert CommandOk(w, r.command);
  }

  lemma NoneSent(w: World, u: Token)
    requires NetworkOk(w) && ActiveGuard(w, u)
    ensures !ReleaseSent(w, u)
  {
    forall c | c in w.sent && c.request.token == u ensures !c.op.Release? {
      assert CommandOk(w, c);
    }
  }

  /** A local lease is conservative: while it is active, every key of its request is held at the server
      past its local deadline, and no release of it is on its way. */
  lemma ConservativeInState(w: World, u: Token, k: Key)
    requires Inv(w) && ActiveGuard(w, u) && k in KeysOf(w, u)
    ensures w.now < LocalDeadline(w, u)
    ensures Holds(w.db, k, OwnerOf(w, u), LocalDeadline(w, u))
    ensures LiveUntil(w.db, w.now, k, OwnerOf(w, u), LocalDeadline(w, u))
    ensures !ReleaseSent(w, u)
  {
    assert SessionOk(w, u);
    NoneSent(w, u);
    var r := ReceiptOf(w, u);
    assert Covered(w, r);
    HoldersAreLive(w.db, w.now, k, OwnerOf(w, u), LocalDeadline(w, u));
  }

  /** Some manager has, or has ever had, a release of the token in its queue. */
  ghost predicate ReleaseQueued(w: World, u: Token) {
    exists id, i :: id in w.managers && i in w.managers[id].history && i.ReleaseItem? && i.request.token == u
  }

  lemma NoneQueued(w: World, u: Token)
    requires Inv(w) && ActiveGuard(w, u)
    ensures !ReleaseQueued(w, u)
  {
    forall id, i | id in w.managers && i in w.managers[id].history && i.ReleaseItem? ensures i.request.token != u {
      assert ManagerOk(w, id);
      assert ItemOk(w, i);
    }
  }

  lemma ConservativeLease(start: nat, run: seq<Label>, u: Token, k: Key)
    requires Legal(Initial(start), run)
    requires var w := End(Initial(start), run); ActiveGuard(w, u) && k in KeysOf(w, u)
    ensures var w := End(Initial(start), run);
            && LiveUntil(w.db, w.now, k, OwnerOf(w, u), LocalDeadline(w, u))
            && w.now < LocalDeadline(w, u)
            && !ReleaseSent(w, u) && !ReleaseQueued(w, u)
  {
    RunsAreSound(start, run);
    ConservativeInState(End(Initial(start), run), u, k);
    NoneQueued(End(Initial(start), run), u);
  }

  /** The server grants every renewal that it executes while the guard is active, unless the new expiry of a
      read-write lease would leave the range of exact integers. */
  lemma RenewalIsGranted(start: nat, run: seq<Label>, u: Token)
    requires Legal(Initial(start), run) && ActiveGuard(End(Initial(start), run), u)
    ensures var w := End(Initial(start), run);
            var s := w.sessions[u];
            Perform(w.db, s.request, Renew, s.ttl, w.now).0 == Done(true)
            <==> s.request.target.Mode().Mutex? || w.now + s.ttl <= MAX_EXACT
  {
    RunsAreSound(start, run);
    RenewalInState(End(Initial(start), run), u);
  }

  lemma RenewalInState(w: World, u: Token)
    requires Inv(w) && ActiveGuard(w, u)
    ensures var s := w.sessions[u];
            Perform(w.db, s.request, Renew, s.ttl, w.now).0 == Done(true)
            <==> s.request.target.Mode().Mutex? || w.now + s.ttl <= MAX_EXACT
  {
    var s := w.sessions[u];
    var keys, o := KeysOf(w, u), OwnerOf(w, u);
    assert SessionOk(w, u);
    forall k | k in keys ensures Holds(w.db, k, o, LocalDeadline(w, u)) && w.now < LocalDeadline(w, u) {
      ConservativeInState(w, u, k);
    }
    PerformIsScript(w.db, s.request, Renew, s.ttl, w.now);
    HoldersRenew(w.db, keys, o, s.ttl, w.now, LocalDeadline(w, u));
  }

  /** Whoever holds all keys beyond now can renew them. */
  lemma HoldersRenew(db: Db, keys: seq<Key>, o: Owner, ttl: int, now: int, until: int)
    requires Sound(db) && ttl > 0 && now >= 0
    requires forall k :: k in keys ==> Holds(db, k, o, until) && now < until
    ensures Attempt(db, keys, Renew, o, ttl, now).0 == Done(true) <==> o.mode.Mutex? || now + ttl <= MAX_EXACT
  {
    forall k | k in keys ensures Free(Renew, o, Holders(View(db, now), k)) {
      HoldersAreLive(db, now, k, o, until);
    }
    if o.mode.Mutex? || now + ttl <= MAX_EXACT {
      SucceedsIffFree(db, keys, Renew, o, ttl, now);
    }
  }

  /** End-to-end exclusion: two guards whose requests name the same key and that are active at the same instant
      are readers, whatever clients, delays, retries, cancellations, timeouts and releases the run consists of. */
  lemma EndToEndExclusion(start: nat, run: seq<Label>, u: Token, v: Token, k: Key)
    requires Legal(Initial(start), run)
    requires var w := End(Initial(start), run);
             && u != v && ActiveGuard(w, u) && ActiveGuard(w, v)
             && Names(w.sessions[u].request.target, k) && Names(w.sessions[v].request.target, k)
    ensures var w := End(Initial(start), run);
            && OwnerOf(w, u).mode.Read? && OwnerOf(w, v).mode.Read?
            && IsReader(w.sessions[u].request.target) && IsReader(w.sessions[v].request.target)
  {
    var w := End(Initial(start), run);
    RunsAreSound(start, run);
    ExclusionInState(w, u, v, k);
  }

  lemma ExclusionInState(w: World, u: Token, v: Token, k: Key)
    requires Inv(w) && u != v && ActiveGuard(w, u) && ActiveGuard(w, v)
    requires Names(w.sessions[u].request.target, k) && Names(w.sessions[v].request.target, k)
    ensures OwnerOf(w, u).mode.Read? && OwnerOf(w, v).mode.Read?
    ensures IsReader(w.sessions[u].request.target) && IsReader(w.sessions[v].request.target)
  {
    HolderOf(w, u, k);
    HolderOf(w, v, k);
    TwoHolders(w.db, k, w.sessions[u].request, w.sessions[v].request);
  }

  lemma HolderOf(w: World, u: Token, k: Key)
    requires Inv(w) && ActiveGuard(w, u) && Names(w.sessions[u].request.target, k)
    ensures Owns(At(w.db, k), w.sessions[u].request.Owner()) && w.sessions[u].request.token == u
  {
    ConservativeInState(w, u, k);
    assert SessionOk(w, u);
  }

  lemma TwoHolders(db: Db, k: Key, r: Request, q: Request)
    requires Sound(db) && r.token != q.token && Owns(At(db, k), r.Owner()) && Owns(At(db, k), q.Owner())
    ensures r.Owner().mode.Read? && q.Owner().mode.Read? && IsReader(r.target) && IsReader(q.target)
  {
    assert SlotOk(At(db, k));
    SharedOnlyByReaders(At(db, k), r.Owner(), q.Owner());
  }

  /** A lease that was seen lost or released never becomes active again, whatever replies still come. */
  lemma {:induction false} LostStaysLost(w: World, run: seq<Label>, u: Token)
    requires Inv(w) && Legal(w, run)
    requires u in w.sessions && w.sessions[u].guard.Guard? && !w.sessions[u].guard.lease.state.Active?
    ensures u in End(w, run).sessions && S.Over(End(w, run).sessions[u]) && !ActiveGuard(End(w, run), u)
    decreases |run|
  {
    if run != [] {
      StepKeepsInv(w, run[0]);
      StepKeepsOver(w, run[0], u);
      LostStaysLost(After(w, run[0]), run[1..], u);
    }
  }

  /** A renewal that was refused ends the lease at once and for good. */
  lemma RefusalIsFinal(w: World, u: Token, start: int, checked: int, run: seq<Label>)
    requires Inv(w) && Enabled(w, Act(u, S.HearRenewal(start, false, checked)))
    requires Legal(After(w, Act(u, S.HearRenewal(start, false, checked))), run)
    ensures var after := After(w, Act(u, S.HearRenewal(start, false, checked)));
            !ActiveGuard(after, u) && !ActiveGuard(End(after, run), u)
  {
    StepKeepsInv(w, Act(u, S.HearRenewal(start, false, checked)));
    RefusalEndsLease(w, u, start, checked);
    LostStaysLost(After(w, Act(u, S.HearRenewal(start, false, checked))), run, u);
  }

  lemma RefusalEndsLease(w: World, u: Token, start: int, checked: int)
    requires Enabled(w, Act(u, S.HearRenewal(start, false, checked)))
    ensures var after := After(w, Act(u, S.HearRenewal(start, false, checked)));
            u in after.sessions && S.Over(after.sessions[u]) && !ActiveGuard(after, u)
  {
  }

  lemma StepKeepsOver(w: World, l: Label, u: Token)
    requires Inv(w) && Enabled(w, l) && u in w.sessions && S.Over(w.sessions[u])
    ensures u in After(w, l).sessions && S.Over(After(w, l).sessions[u])
  {
    assert SessionOk(w, u);
    OneSessionMoves(w, l, u);
  }
}
