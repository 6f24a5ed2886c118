/** The whole protocol: one Redis server, any number of managers, acquisitions and guards, and a network
    that may delay, duplicate, reorder or lose every command and every reply.

    Commands that were sent stay in `sent` and may be executed at any later time, any number of times;
    receipts of executions stay in `receipts` and may be delivered at any later time, or never.
    One millisecond clock is shared by everybody, tokens are unique, and nobody else writes to Redis. */
module Protocol {
  import opened Redis
  import opened Scripts
  import opened LockTable
  import opened LockRequest
  import S = Sessions
  import M = Managers

  datatype Command = Command(op: Op, request: Request, ttl: nat, sentAt: int)
  datatype Receipt = Receipt(command: Command, at: int, reply: Reply)

  datatype World = World(
    now: int,
    db: Db,
    sent: set<Command>,
    receipts: set<Receipt>,
    sessions: map<Token, S.Session>,
    home: map<Token, nat>,           // the manager of each session
    managers: map<nat, M.Manager>)

  function Initial(now: nat): World {
    World(now, map[], {}, {}, map[], map[], map[])
  }

  datatype Label =
    | Tick(elapsed: nat)
    | EvictKey(key: Key)
    | Execute(command: Command)
    | NewManager(id: nat, isAsync: bool)
    | NewSession(token: Token, backend: S.Backend, target: LockTarget, ttl: nat, id: nat)
    | Act(token: Token, move: S.Move)
    | Manage(id: nat, step: M.Move)

  function CommandOf(r: Request, op: Op, ttl: nat, now: int): Command {
    Command(op, r, if op.Release? then 0 else ttl, now)
  }

  ghost predicate OthersSend(w: World, id: nat) {
    exists u :: u in w.sessions && u in w.home && w.home[u] == id && S.HoldsSender(w.sessions[u])
  }

  ghost predicate Delivered(w: World, s: S.Session, op: Op, start: int, granted: bool) {
    exists at :: Receipt(CommandOf(s.request, op, s.ttl, start), at, Done(granted)) in w.receipts
  }

  /** The outside world lets a session's move happen. */
  ghost predicate Permits(w: World, s: S.Session, id: nat, a: S.Action)
    requires id in w.managers
  {
    match a
    case Silent => true
    case Sends(_) => true
    case Hears(op, start, granted) => Delivered(w, s, op, start, granted)
    case Queues(queued) => queued <==> M.CanEnqueue(w.managers[id])
  }

  ghost predicate Enabled(w: World, l: Label) {
    match l
    case Tick(_) => true
    case EvictKey(_) => true
    case Execute(c) => c in w.sent
    case NewManager(id, _) => id !in w.managers
    case NewSession(u, backend, _, ttl, id) =>
      && u !in w.sessions && id in w.managers
      && M.CanAdmit(w.managers[id])
      && (backend.Async? <==> w.managers[id].isAsync)
      && 1 <= ttl <= MAX_EXACT
    case Act(u, move) =>
      && u in w.sessions && u in w.home && w.home[u] in w.managers
      && S.Enabled(w.sessions[u], move, w.now, M.CanAdmit(w.managers[w.home[u]]))
      && Permits(w, w.sessions[u], w.home[u], S.ActionOf(move))
    case Manage(id, step) =>
      && id in w.managers
      && !step.Enqueue?  // only sessions queue releases
      && M.Enabled(w.managers[id], step, OthersSend(w, id))
  }

  /** A session has become `next` with the action `a`. */
  ghost function Acted(w: World, u: Token, next: S.Session, a: S.Action): World
    requires u in w.sessions && u in w.home && w.home[u] in w.managers
    requires Permits(w, w.sessions[u], w.home[u], a)
  {
    var id := w.home[u];
    var moved := w.(sessions := w.sessions[u := next]);
    match a
    case Sends(op) => moved.(sent := w.sent + {CommandOf(next.request, op, next.ttl, w.now)})
    case Queues(true) => moved.(managers := w.managers[id := M.Next(w.managers[id], M.Enqueue(next.request))])
    case _ => moved
  }

  /** A manager has become `next`; its worker may have sent a release. */
  function Managed(w: World, id: nat, next: M.Manager, released: Option<Request>): World {
    w.(managers := w.managers[id := next],
       sent := if released.Some? then w.sent + {CommandOf(released.value, Release, 0, w.now)} else w.sent)
  }

  ghost function AfterExecute(w: World, c: Command): World {
    var (reply, db) := Perform(w.db, c.request, c.op, c.ttl, w.now);
    w.(db := db, receipts := w.receipts + {Receipt(c, w.now, reply)})
  }

  ghost function After(w: World, l: Label): World
    requires Enabled(w, l)
  {
    match l
    case Tick(elapsed) => w.(now := w.now + elapsed)
    case EvictKey(k) => w.(db := Evict(w.db, k, w.now))
    case Execute(c) => AfterExecute(w, c)
    case NewManager(id, isAsync) => w.(managers := w.managers[id := M.New(isAsync)])
    case NewSession(u, backend, target, ttl, id) =>
      w.(sessions := w.sessions[u := S.Begin(backend, Request(target, u), ttl)], home := w.home[u := id])
    case Act(u, move) => Acted(w, u, S.Next(w.sessions[u], move, w.now), S.ActionOf(move))
    case Manage(id, step) =>
      Managed(w, id, M.Next(w.managers[id], step), M.Attempting(w.managers[id], step))
  }

  /** A run is a sequence of labels, each enabled where it happens. */
  ghost predicate Legal(w: World, run: seq<Label>)
    decreases |run|
  {
    run == [] || (Enabled(w, run[0]) && Legal(After(w, run[0]), run[1..]))
  }

  ghost function End(w: World, run: seq<Label>): World
    requires Legal(w, run)
    decreases |run|
  {
    if run == [] then w else End(After(w, run[0]), run[1..])
  }

  // ----- the invariant -----

  predicate Positive(r: Receipt) {
    r.reply == Done(true) && !r.command.op.Release?
  }

  ghost predicate ReleaseSent(w: World, u: Token) {
    exists c :: c in w.sent && c.op.Release? && c.request.token == u
  }

  ghost predicate CommandOk(w: World, c: Command) {
    && c.sentAt <= w.now
    && c.request.token in w.sessions
    && c.request == w.sessions[c.request.token].request
    && (!c.op.Release? ==> c.ttl == w.sessions[c.request.token].ttl)
    && (c.op.Release? ==> S.Retired(w.sessions[c.request.token]))
  }

  ghost predicate NetworkOk(w: World) {
    && (forall c :: c in w.sent ==> CommandOk(w, c))
    && (forall r :: r in w.receipts ==> r.command in w.sent && r.command.sentAt <= r.at <= w.now)
  }

  ghost predicate SessionOk(w: World, u: Token)
    requires u in w.sessions
  {
    var s := w.sessions[u];
    && S.Inv(s)
    && s.request.token == u
    && 1 <= s.ttl <= MAX_EXACT
    && u in w.home && w.home[u] in w.managers
    && (w.managers[w.home[u]].worker.Exited? ==> !S.HoldsSender(s))
  }

  ghost predicate SessionsOk(w: World) {
    forall u :: u in w.sessions ==> SessionOk(w, u)
  }

  /** Whatever a session counts on has been confirmed by the server. */
  ghost predicate Confirmed(w: World, s: S.Session, start: int) {
    exists r :: r in w.receipts && Positive(r) && r.command.request == s.request && r.command.sentAt == start
  }

  ghost predicate CountsOk(w: World) {
    forall u, start :: u in w.sessions && S.CountsOn(w.sessions[u], start) ==> Confirmed(w, w.sessions[u], start)
  }

  /** A confirmed acquire or renew keeps all its keys for the full TTL from its execution. */
  ghost predicate Covered(w: World, r: Receipt) {
    var until := r.at + r.command.ttl;
    forall k :: k in r.command.request.target.Keys() && w.now < until
      ==> Holds(w.db, k, r.command.request.Owner(), until)
  }

  ghost predicate CoverOk(w: World) {
    forall r :: r in w.receipts && Positive(r) && !ReleaseSent(w, r.command.request.token) ==> Covered(w, r)
  }

  /** A queued release belongs to a retired session; an attempted one has been sent. */
  ghost predicate ItemOk(w: World, i: M.Item) {
    i.ReleaseItem? ==>
      && i.request.token in w.sessions
      && w.sessions[i.request.token].request == i.request
      && S.Retired(w.sessions[i.request.token])
  }

  ghost predicate Attempted(w: World, r: Request) {
    exists c :: c in w.sent && c.op.Release? && c.request == r
  }

  ghost predicate ManagerOk(w: World, id: nat)
    requires id in w.managers
  {
    && M.Inv(w.managers[id])
    && (forall i :: i in w.managers[id].history ==> ItemOk(w, i))
    && (forall r :: r in w.managers[id].attempted ==> Attempted(w, r))
  }

  ghost predicate ManagersOk(w: World) {
    forall id :: id in w.managers ==> ManagerOk(w, id)
  }

  ghost predicate Inv(w: World) {
    && w.now >= 0 && Sound(w.db)
    && NetworkOk(w) && SessionsOk(w) && CountsOk(w) && CoverOk(w) && ManagersOk(w)
  }

  // ----- the server's steps -----

  /** The fast path changes nothing about what a command does. */
  lemma PerformIsScript(db: Db, r: Request, op: Op, ttl: nat, now: int)
    ensures Perform(db, r, op, ttl, now)
            == if op.Release? then GiveUp(db, r.target.Keys(), r.Owner(), now)
               else Attempt(db, r.target.Keys(), op, r.Owner(), ttl, now)
  {
    if r.target.Single? {
      FastPath(db, r.target.key, r.token, ttl, now);
    }
  }

  /** No command ends a lease that another request has not yet used up, or its own request has not released. */
  lemma PerformKeeps(db: Db, r: Request, op: Op, ttl: nat, now: int, k: Key, h: Owner, until: int)
    requires Sound(db) && now >= 0 && (op.Release? || ttl > 0)
    requires Holds(db, k, h, until) && now < until
    requires h == r.Owner() ==> !op.Release? && until <= now + ttl
    ensures Holds(Perform(db, r, op, ttl, now).1, k, h, until)
  {
    PerformIsScript(db, r, op, ttl, now);
    if op.Release? {
      GiveUpKeeps(db, r.target.Keys(), r.Owner(), now, k, h, until);
    } else {
      AttemptKeeps(db, r.target.Keys(), op, r.Owner(), ttl, now, k, h, until);
    }
  }

  lemma ExecuteCovers(w: World, c: Command, r: Receipt)
    requires Inv(w) && c in w.sent
    requires r in AfterExecute(w, c).receipts && Positive(r) && !ReleaseSent(w, r.command.request.token)
    ensures Covered(AfterExecute(w, c), r)
  {
    var after := AfterExecute(w, c);
    var until, o := r.at + r.command.ttl, r.command.request.Owner();
    assert CommandOk(w, c);
    assert SessionOk(w, c.request.token);
    forall k | k in r.command.request.target.Keys() && w.now < until ensures Holds(after.db, k, o, until) {
      if r in w.receipts {
        assert CommandOk(w, r.command);
        assert Covered(w, r);
        PerformKeeps(w.db, c.request, c.op, c.ttl, w.now, k, o, until);
      } else {
        PerformIsScript(w.db, c.request, c.op, c.ttl, w.now);
        AttemptGrants(w.db, c.request.target.Keys(), c.op, c.request.Owner(), c.ttl, w.now, k);
      }
    }
  }

  lemma ExecuteSound(w: World, c: Command)
    requires Inv(w) && c in w.sent
    ensures Sound(AfterExecute(w, c).db)
  {
    assert CommandOk(w, c);
    assert SessionOk(w, c.request.token);
    PerformIsScript(w.db, c.request, c.op, c.ttl, w.now);
    if c.op.Release? {
      GiveUpSound(w.db, c.request.target.Keys(), c.request.Owner(), w.now);
    } else {
      AttemptSound(w.db, c.request.target.Keys(), c.op, c.request.Owner(), c.ttl, w.now);
    }
  }

  lemma ExecuteKeepsInv(w: World, c: Command)
    requires Inv(w) && c in w.sent
    ensures Inv(AfterExecute(w, c))
  {
    var after := AfterExecute(w, c);
    ExecuteSound(w, c);
    forall r | r in after.receipts && Positive(r) && !ReleaseSent(after, r.command.request.token)
      ensures Covered(after, r)
    {
      assert !ReleaseSent(w, r.command.request.token);
      ExecuteCovers(w, c, r);
    }
    SameClients(w, after);
  }

  /** Sessions and managers are untouched and nothing was sent: what they promised still holds. */
  lemma SameClients(w: World, after: World)
    requires Inv(w) && w.now <= after.now && w.sent == after.sent && w.receipts <= after.receipts
    requires w.sessions == after.sessions && w.home == after.home && w.managers == after.managers
    requires forall r :: r in after.receipts ==> r.command in w.sent && r.command.sentAt <= r.at <= after.now
    ensures NetworkOk(after) && SessionsOk(after) && CountsOk(after) && ManagersOk(after)
  {
    forall c | c in after.sent ensures CommandOk(after, c) {
      assert CommandOk(w, c);
    }
    forall u | u in after.sessions ensures SessionOk(after, u) {
      assert SessionOk(w, u);
    }
    forall u, start | u in after.sessions && S.CountsOn(after.sessions[u], start)
      ensures Confirmed(after, after.sessions[u], start)
    {
      assert Confirmed(w, w.sessions[u], start);
    }
    forall id | id in after.managers ensures ManagerOk(after, id) {
      assert ManagerOk(w, id);
      forall i | i in after.managers[id].history ensures ItemOk(after, i) {
        assert ItemOk(w, i);
      }
      forall r | r in after.managers[id].attempted ensures Attempted(after, r) {
        assert Attempted(w, r);
      }
    }
  }

  /** Time only runs out on leases; until then no key is evicted from under them. */
  lemma CoverStays(w: World, after: World)
    requires CoverOk(w)
    requires after.now >= w.now && after.receipts == w.receipts && after.sent == w.sent
    requires forall k, o, until :: w.now < until && Holds(w.db, k, o, until) ==> Holds(after.db, k, o, until)
    ensures CoverOk(after)
  {
    forall r | r in after.receipts && Positive(r) && !ReleaseSent(after, r.command.request.token)
      ensures Covered(after, r)
    {
      assert !ReleaseSent(w, r.command.request.token);
      assert Covered(w, r);
    }
  }

  lemma TickKeepsInv(w: World, elapsed: nat)
    requires Inv(w)
    ensures Inv(After(w, Tick(elapsed)))
  {
    CoverStays(w, After(w, Tick(elapsed)));
    SameClients(w, After(w, Tick(elapsed)));
  }

  lemma EvictKeeps(db: Db, k: Key, now: int)
    requires Sound(db)
    ensures Sound(Evict(db, k, now))
    ensures forall x, o, until :: now < until && Holds(db, x, o, until) ==> Holds(Evict(db, k, now), x, o, until)
  {
    forall x ensures SlotOk(At(Evict(db, k, now), x)) {
      assert SlotOk(At(db, x));
    }
  }

  lemma EvictKeepsInv(w: World, k: Key)
    requires Inv(w)
    ensures Inv(After(w, EvictKey(k)))
  {
    EvictKeeps(w.db, k, w.now);
    CoverStays(w, After(w, EvictKey(k)));
    SameClients(w, After(w, EvictKey(k)));
  }

  // ----- the clients' steps -----

  /** One session moved on, commands may have been sent, managers may have changed: what was promised
      about commands, receipts and queued items still holds. */
  ghost predicate Evolves(w: World, after: World) {
    && after.now == w.now && after.db == w.db && after.receipts == w.receipts
    && w.sent <= after.sent
    && (forall u :: u in w.sessions ==> u in after.sessions && Onward(w.sessions[u], after.sessions[u]))
  }

  predicate Onward(s: S.Session, next: S.Session) {
    next.request == s.request && next.ttl == s.ttl && (S.Retired(s) ==> S.Retired(next))
  }

  lemma EvolvesNetwork(w: World, after: World)
    requires NetworkOk(w) && CoverOk(w) && Evolves(w, after)
    requires forall c :: c in after.sent && c !in w.sent ==> CommandOk(after, c)
    ensures NetworkOk(after) && CoverOk(after)
  {
    forall c | c in after.sent ensures CommandOk(after, c) {
      if c in w.sent {
        assert CommandOk(w, c);
      }
    }
    forall r | r in after.receipts && Positive(r) && !ReleaseSent(after, r.command.request.token)
      ensures Covered(after, r)
    {
      assert !ReleaseSent(w, r.command.request.token);
      assert Covered(w, r);
    }
  }

  lemma EvolvesItem(w: World, after: World, i: M.Item)
    requires Evolves(w, after) && ItemOk(w, i)
    ensures ItemOk(after, i)
  {
  }

  lemma EvolvesAttempted(w: World, after: World, r: Request)
    requires Evolves(w, after) && Attempted(w, r)
    ensures Attempted(after, r)
  {
    var c :| c in w.sent && c.op.Release? && c.request == r;
    assert c in after.sent;
  }

  lemma SessionsStay(w: World, after: World)
    requires SessionsOk(w) && CountsOk(w)
    requires after.receipts == w.receipts && after.sessions == w.sessions && after.home == w.home
    requires forall id :: id in w.managers ==> id in after.managers
    requires forall u ::
               (&& u in w.sessions && S.HoldsSender(w.sessions[u]) && u in w.home && w.home[u] in w.managers
                && after.managers[w.home[u]].worker.Exited?)
               ==> w.managers[w.home[u]].worker.Exited?
    ensures SessionsOk(after) && CountsOk(after)
  {
    forall u | u in after.sessions ensures SessionOk(after, u) {
      assert SessionOk(w, u);
    }
    forall u, start | u in after.sessions && S.CountsOn(after.sessions[u], start)
      ensures Confirmed(after, after.sessions[u], start)
    {
      assert Confirmed(w, w.sessions[u], start);
    }
  }

  lemma NewManagerKeepsInv(w: World, id: nat, isAsync: bool)
    requires Inv(w) && Enabled(w, NewManager(id, isAsync))
    ensures Inv(After(w, NewManager(id, isAsync)))
  {
    var after := After(w, NewManager(id, isAsync));
    EvolvesNetwork(w, after);
    SessionsStay(w, after);
    forall x | x in after.managers ensures ManagerOk(after, x) {
      if x == id {
        M.NewInv(isAsync);
      } else {
        ManagerStays(w, after, x);
      }
    }
  }

  lemma ManagerStays(w: World, after: World, id: nat)
    requires id in w.managers && ManagerOk(w, id) && Evolves(w, after)
    requires id in after.managers && w.managers[id] == after.managers[id]
    ensures ManagerOk(after, id)
  {
    forall i | i in after.managers[id].history ensures ItemOk(after, i) {
      EvolvesItem(w, after, i);
    }
    forall r | r in after.managers[id].attempted ensures Attempted(after, r) {
      EvolvesAttempted(w, after, r);
    }
  }

  lemma NewSessionSessions(w: World, l: Label)
    requires SessionsOk(w) && CountsOk(w) && l.NewSession? && Enabled(w, l)
    requires !w.managers[l.id].worker.Exited?
    ensures SessionsOk(After(w, l)) && CountsOk(After(w, l))
  {
    var after := After(w, l);
    forall u | u in after.sessions ensures SessionOk(after, u) {
      if u == l.token {
        S.BeginInv(l.backend, Request(l.target, u), l.ttl);
      } else {
        assert SessionOk(w, u);
      }
    }
    forall u, start | u in after.sessions && S.CountsOn(after.sessions[u], start)
      ensures Confirmed(after, after.sessions[u], start)
    {
      assert Confirmed(w, w.sessions[u], start);
    }
  }

  lemma NewSessionKeepsInv(w: World, l: Label)
    requires Inv(w) && l.NewSession? && Enabled(w, l)
    ensures Inv(After(w, l))
  {
    var after := After(w, l);
    EvolvesNetwork(w, after);
    assert !w.managers[l.id].worker.Exited? by {
      assert ManagerOk(w, l.id);
    }
    NewSessionSessions(w, l);
    AllManagersStay(w, after);
  }

  lemma AllManagersStay(w: World, after: World)
    requires ManagersOk(w) && Evolves(w, after) && after.managers == w.managers
    ensures ManagersOk(after)
  {
    forall id | id in after.managers ensures ManagerOk(after, id) {
      assert ManagerOk(w, id);
      ManagerStays(w, after, id);
    }
  }

  /** A session may become `next` with the action `a`. */
  ghost predicate MayAct(w: World, u: Token, next: S.Session, a: S.Action) {
    && u in w.sessions && u in w.home && w.home[u] in w.managers
    && Permits(w, w.sessions[u], w.home[u], a)
    && S.Contract(w.sessions[u], next, a, w.now)
  }

  lemma ActedEvolves(w: World, u: Token, next: S.Session, a: S.Action)
    requires MayAct(w, u, next, a)
    ensures Evolves(w, Acted(w, u, next, a))
  {
    assert Onward(w.sessions[u], next);
    var after := Acted(w, u, next, a);
    forall x | x in w.sessions ensures x in after.sessions && Onward(w.sessions[x], after.sessions[x]) {
      assert after.sessions[x] == if x == u then next else w.sessions[x];
    }
  }

  lemma ActedSessions(w: World, u: Token, next: S.Session, a: S.Action)
    requires SessionsOk(w) && MayAct(w, u, next, a)
    ensures SessionsOk(Acted(w, u, next, a))
  {
    var after := Acted(w, u, next, a);
    assert forall id :: id in w.managers ==> id in after.managers
                                             && after.managers[id].worker == w.managers[id].worker;
    forall x | x in after.sessions ensures SessionOk(after, x) {
      assert SessionOk(w, x);
    }
  }

  lemma ActedCounts(w: World, u: Token, next: S.Session, a: S.Action)
    requires CountsOk(w) && MayAct(w, u, next, a)
    ensures CountsOk(Acted(w, u, next, a))
  {
    var after := Acted(w, u, next, a);
    var s := w.sessions[u];
    forall x, start | x in after.sessions && S.CountsOn(after.sessions[x], start)
      ensures Confirmed(after, after.sessions[x], start)
    {
      if x != u || S.CountsOn(s, start) {
        assert Confirmed(w, w.sessions[x], start);
      } else {
        var op := a.op;
        assert Delivered(w, s, op, start, true);
        var at :| Receipt(CommandOf(s.request, op, s.ttl, start), at, Done(true)) in w.receipts;
        var r := Receipt(CommandOf(s.request, op, s.ttl, start), at, Done(true));
        assert Positive(r) && r.command.request == next.request;
      }
    }
  }

  lemma ActedManagers(w: World, u: Token, next: S.Session, a: S.Action)
    requires MayAct(w, u, next, a) && ManagersOk(w) && SessionOk(w, u)
    ensures ManagersOk(Acted(w, u, next, a))
  {
    var after := Acted(w, u, next, a);
    ActedEvolves(w, u, next, a);
    forall id | id in after.managers ensures ManagerOk(after, id) {
      assert ManagerOk(w, id);
      if id == w.home[u] && a == S.Queues(true) {
        QueueGrows(w, after, id, next.request);
      } else {
        ManagerStays(w, after, id);
      }
    }
  }

  lemma QueueGrows(w: World, after: World, id: nat, request: Request)
    requires Evolves(w, after)
    requires id in w.managers && ManagerOk(w, id) && M.CanEnqueue(w.managers[id])
    requires id in after.managers && after.managers[id] == M.Next(w.managers[id], M.Enqueue(request))
    requires ItemOk(after, M.ReleaseItem(request))
    ensures ManagerOk(after, id)
  {
    M.NextInv(w.managers[id], M.Enqueue(request));
    forall i | i in after.managers[id].history ensures ItemOk(after, i) {
      if i in w.managers[id].history {
        EvolvesItem(w, after, i);
      }
    }
    forall r | r in after.managers[id].attempted ensures Attempted(after, r) {
      EvolvesAttempted(w, after, r);
    }
  }

  lemma ActedKeepsInv(w: World, u: Token, next: S.Session, a: S.Action)
    requires Inv(w) && MayAct(w, u, next, a)
    ensures Inv(Acted(w, u, next, a))
  {
    var after := Acted(w, u, next, a);
    ActedEvolves(w, u, next, a);
    assert SessionOk(w, u);
    forall c | c in after.sent && c !in w.sent ensures CommandOk(after, c) {
    }
    EvolvesNetwork(w, after);
    ActedSessions(w, u, next, a);
    ActedCounts(w, u, next, a);
    ActedManagers(w, u, next, a);
  }

  lemma ActContract(w: World, u: Token, move: S.Move)
    requires Enabled(w, Act(u, move)) && S.Inv(w.sessions[u])
    ensures MayAct(w, u, S.Next(w.sessions[u], move, w.now), S.ActionOf(move))
  {
    S.NextContract(w.sessions[u], move, w.now, M.CanAdmit(w.managers[w.home[u]]));
  }

  lemma ActKeepsInv(w: World, u: Token, move: S.Move)
    requires Inv(w) && Enabled(w, Act(u, move))
    ensures Inv(After(w, Act(u, move)))
  {
    assert SessionOk(w, u);
    ActContract(w, u, move);
    ActedKeepsInv(w, u, S.Next(w.sessions[u], move, w.now), S.ActionOf(move));
  }

  /** A manager may become `next` while its worker sends the release `released`. */
  ghost predicate MayManage(w: World, id: nat, next: M.Manager, released: Option<Request>) {
    id in w.managers && M.Contract(w.managers[id], next, released, OthersSend(w, id))
  }

  lemma ManagedNetwork(w: World, id: nat, next: M.Manager, released: Option<Request>)
    requires NetworkOk(w) && CoverOk(w)
    requires released.Some? ==> ItemOk(w, M.ReleaseItem(released.value))
    ensures Evolves(w, Managed(w, id, next, released))
    ensures NetworkOk(Managed(w, id, next, released)) && CoverOk(Managed(w, id, next, released))
  {
    EvolvesNetwork(w, Managed(w, id, next, released));
  }

  lemma ManagedSessions(w: World, id: nat, next: M.Manager, released: Option<Request>)
    requires SessionsOk(w) && CountsOk(w) && id in w.managers
    requires next.worker.Exited? ==> w.managers[id].worker.Exited? || !OthersSend(w, id)
    ensures SessionsOk(Managed(w, id, next, released)) && CountsOk(Managed(w, id, next, released))
  {
    SessionsStay(w, Managed(w, id, next, released));
  }

  lemma ManagedManager(w: World, id: nat, next: M.Manager, released: Option<Request>)
    requires MayManage(w, id, next, released) && ManagerOk(w, id)
    requires Evolves(w, Managed(w, id, next, released))
    ensures ManagerOk(Managed(w, id, next, released), id)
  {
    var after := Managed(w, id, next, released);
    forall i | i in next.history ensures ItemOk(after, i) {
      if i.ReleaseItem? {
        assert M.ReleaseItem(i.request) in next.history;
        EvolvesItem(w, after, i);
      }
    }
    forall r | r in next.attempted ensures Attempted(after, r) {
      if r in w.managers[id].attempted {
        EvolvesAttempted(w, after, r);
      } else {
        var c := CommandOf(r, Release, 0, w.now);
        assert c in after.sent && c.op.Release? && c.request == r;
      }
    }
  }

  lemma ManagedManagers(w: World, id: nat, next: M.Manager, released: Option<Request>)
    requires MayManage(w, id, next, released) && ManagersOk(w)
    requires Evolves(w, Managed(w, id, next, released))
    ensures ManagersOk(Managed(w, id, next, released))
  {
    var after := Managed(w, id, next, released);
    forall x | x in after.managers ensures ManagerOk(after, x) {
      assert ManagerOk(w, x);
      if x == id {
        ManagedManager(w, id, next, released);
      } else {
        ManagerStays(w, after, x);
      }
    }
  }

  lemma ManagedKeepsInv(w: World, id: nat, next: M.Manager, released: Option<Request>)
    requires Inv(w) && MayManage(w, id, next, released)
    ensures Inv(Managed(w, id, next, released))
  {
    assert released.Some? ==> ItemOk(w, M.ReleaseItem(released.value)) by {
      assert ManagerOk(w, id);
    }
    ManagedNetwork(w, id, next, released);
    ManagedSessions(w, id, next, released);
    ManagedManagers(w, id, next, released);
  }

  lemma ManageKeepsInv(w: World, id: nat, step: M.Move)
    requires Inv(w) && Enabled(w, Manage(id, step))
    ensures Inv(After(w, Manage(id, step)))
  {
    assert ManagerOk(w, id);
    M.NextContract(w.managers[id], step, OthersSend(w, id));
    ManagedKeepsInv(w, id, M.Next(w.managers[id], step), M.Attempting(w.managers[id], step));
  }

  // ----- every run -----

  lemma InitialInv(now: nat)
    ensures Inv(Initial(now))
  {
  }

  lemma StepKeepsInv(w: World, l: Label)
    requires Inv(w) && Enabled(w, l)
    ensures Inv(After(w, l))
  {
    match l
    case Tick(elapsed) => TickKeepsInv(w, elapsed);
    case EvictKey(k) => EvictKeepsInv(w, k);
    case Execute(c) => ExecuteKeepsInv(w, c);
    case NewManager(id, isAsync) => NewManagerKeepsInv(w, id, isAsync);
    case NewSession(_, _, _, _, _) => NewSessionKeepsInv(w, l);
    case Act(u, move) => ActKeepsInv(w, u, move);
    case Manage(id, step) => ManageKeepsInv(w, id, step);
  }

  lemma {:induction false} RunKeepsInv(w: World, run: seq<Label>)
    requires Inv(w) && Legal(w, run)
    ensures Inv(End(w, run))
    decreases |run|
  {
    if run != [] {
      StepKeepsInv(w, run[0]);
      RunKeepsInv(After(w, run[0]), run[1..]);
    }
  }

  /** A step leaves a manager alone, or is a step of it, or queues a release there. */
  lemma OneManagerMoves(w: World, l: Label, id: nat)
    requires Enabled(w, l) && id in w.managers
    ensures id in After(w, l).managers
    ensures var m, next := w.managers[id], After(w, l).managers[id];
            || next == m
            || (l.Manage? && l.id == id && next == M.Next(m, l.step))
            || (l.Act? && M.CanEnqueue(m) && exists r :: next == M.Next(m, M.Enqueue(r)))
  {
    if l.Act? && w.home[l.token] == id && S.ActionOf(l.move) == S.Queues(true) {
      var r := S.Next(w.sessions[l.token], l.move, w.now).request;
      assert After(w, l).managers[id] == M.Next(w.managers[id], M.Enqueue(r));
    }
  }

  /** Only time, evictions and executions change what the server has. */
  lemma ClientsLeaveServerAlone(w: World, l: Label)
    requires Enabled(w, l) && !l.Tick? && !l.EvictKey? && !l.Execute?
    ensures After(w, l).db == w.db && After(w, l).now == w.now && After(w, l).receipts == w.receipts
  {
  }

  /** Acquire and renew commands carry a positive TTL. */
  lemma CommandTtl(w: World, c: Command)
    requires NetworkOk(w) && SessionsOk(w) && c in w.sent
    ensures c.op.Release? || c.ttl > 0
  {
    assert CommandOk(w, c);
    assert SessionOk(w, c.request.token);
  }

  lemma RunsAreSound(start: nat, run: seq<Label>)
    requires Legal(Initial(start), run)
    ensures Inv(End(Initial(start), run))
  {
    InitialInv(start);
    RunKeepsInv(Initial(start), run);
  }

  /** A step leaves a session alone or moves it by its contract. */
  ghost predicate MovesTo(w: World, l: Label, s: S.Session, next: S.Session) {
    next == s || (l.Act? && S.Contract(s, next, S.ActionOf(l.move), w.now))
  }

  lemma OneSessionMoves(w: World, l: Label, u: Token)
    requires Enabled(w, l) && u in w.sessions && S.Inv(w.sessions[u])
    ensures u in After(w, l).sessions && MovesTo(w, l, w.sessions[u], After(w, l).sessions[u])
    ensures After(w, l).sessions[u] != w.sessions[u] ==> l.Act? && l.token == u
  {
    if l.Act? && l.token == u {
      ActContract(w, u, l.move);
    }
  }
}
