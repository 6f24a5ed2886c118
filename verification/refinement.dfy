/** The server, seen through its table of live holders, is an atomic lock service in every run: commands act
    on the table and are answered from it, the passing of time expires holders, and everything else leaves the
    table alone. */
module Refinement {
  import opened Redis
  import opened Scripts
  import opened LockTable
  import opened LockRequest
  import opened Protocol

  function Table(w: World): LockTable.Table {
    View(w.db, w.now)
  }

  /** Whether a command meets the kind of keys that it is meant for, and an expiry that Lua can represent. */
  predicate Meaningful(db: Db, c: Command, now: int) {
    var mode := c.request.target.Mode();
    RightKinds(db, c.request.target.Keys(), mode, now) && (mode.Mutex? || now + c.ttl <= MAX_EXACT)
  }

  /** The lock service's own step. */
  function TableStep(t: LockTable.Table, c: Command, now: int, meaningful: bool): LockTable.Table {
    var keys, o := c.request.target.Keys(), c.request.Owner();
    if c.op.Release? then TableGiveUp(t, keys, o)
    else if meaningful then TableAttempt(t, keys, c.op, o, now + c.ttl).1
    else t
  }

  /** What the lock service may answer.  An acquire or renewal is answered from the table; a release of distinct
      keys is told that it owned all of them whenever it held them, and for mutexes only then. */
  predicate Answers(t: LockTable.Table, c: Command, now: int, meaningful: bool, reply: Reply) {
    var keys, o := c.request.target.Keys(), c.request.Owner();
    if c.op.Release? then
      && (Distinct(keys) && HoldsAll(t, keys, o) ==> reply == Done(true))
      && (Distinct(keys) && o.mode.Mutex? ==> reply == Done(HoldsAll(t, keys, o)))
      && (!Distinct(keys) ==> reply == Done(false))
    else if meaningful then reply == Done(TableAttempt(t, keys, c.op, o, now + c.ttl).0)
    else reply != Done(true)
  }

  /** A command on the wrong kind of key, or with an expiry out of range, is refused. */
  lemma MeaninglessIsRefused(db: Db, keys: seq<Key>, op: Op, o: Owner, ttl: int, now: int)
    requires !op.Release? && ttl > 0 && now >= 0
    requires !RightKinds(db, keys, o.mode, now) || (!o.mode.Mutex? && now + ttl > MAX_EXACT)
    ensures Attempt(db, keys, op, o, ttl, now).0 != Done(true)
  {
    if o.mode.Mutex? {
      var k :| k in keys && TypeOf(db, k, now).ZSetKey?;
      var i :| 0 <= i < |keys| && keys[i] == k;
      if FirstRefusal(db, keys, op, o, now) == |keys| {
        RefusalAt(db, keys, op, o, now, i);
      }
    }
  }

  /** A command that does `outcome` is a step of the lock service on the table. */
  predicate Refines(db: Db, c: Command, now: int, outcome: (Reply, Db)) {
    var meaningful := Meaningful(db, c, now);
    && View(outcome.1, now) == TableStep(View(db, now), c, now, meaningful)
    && Answers(View(db, now), c, now, meaningful, outcome.0)
  }

  lemma ReleaseRefines(db: Db, c: Command, now: int)
    requires Sound(db) && c.op.Release?
    ensures Refines(db, c, now, GiveUp(db, c.request.target.Keys(), c.request.Owner(), now))
  {
    var keys, o := c.request.target.Keys(), c.request.Owner();
    GiveUpRefines(db, keys, o, now);
    if Distinct(keys) {
      ReleaseReply(db, keys, o, now);
    }
  }

  lemma AttemptCommandRefines(db: Db, c: Command, now: int)
    requires Sound(db) && now >= 0 && !c.op.Release? && c.ttl > 0
    ensures Refines(db, c, now, Attempt(db, c.request.target.Keys(), c.op, c.request.Owner(), c.ttl, now))
  {
    var keys, o := c.request.target.Keys(), c.request.Owner();
    if Meaningful(db, c, now) {
      AttemptRefines(db, keys, c.op, o, c.ttl, now);
    } else {
      MeaninglessIsRefused(db, keys, c.op, o, c.ttl, now);
      RefusalChangesNothing(db, keys, c.op, o, c.ttl, now);
    }
  }

  /** Every command does, meaningful or not. */
  lemma CommandRefines(db: Db, c: Command, now: int)
    requires Sound(db) && now >= 0 && (c.op.Release? || c.ttl > 0)
    ensures Refines(db, c, now, Perform(db, c.request, c.op, c.ttl, now))
  {
    PerformIsScript(db, c.request, c.op, c.ttl, now);
    if c.op.Release? {
      ReleaseRefines(db, c, now);
    } else {
      AttemptCommandRefines(db, c, now);
    }
  }

  /** Every step of the system is a step of the lock service or stutters. */
  ghost predicate IsServiceStep(w: World, l: Label, after: World) {
    match l
    case Tick(_) => Table(after) == Expired(Table(w), after.now)
    case Execute(c) =>
      && Table(after) == TableStep(Table(w), c, w.now, Meaningful(w.db, c, w.now))
      && exists reply ::
           && Answers(Table(w), c, w.now, Meaningful(w.db, c, w.now), reply)
           && after.receipts == w.receipts + {Receipt(c, w.now, reply)}
    case _ => Table(after) == Table(w) && after.receipts == w.receipts
  }

  lemma TickRefines(w: World, l: Label, after: World)
    requires Sound(w.db) && l.Tick? && after.db == w.db && w.now <= after.now
    ensures IsServiceStep(w, l, after)
  {
    TimeExpires(w.db, w.now, after.now);
  }

  lemma EvictRefines(w: World, k: Key)
    ensures IsServiceStep(w, EvictKey(k), w.(db := Evict(w.db, k, w.now)))
  {
    EvictStutters(w.db, k, w.now);
  }

  lemma ExecuteRefines(w: World, c: Command)
    requires Sound(w.db) && w.now >= 0 && (c.op.Release? || c.ttl > 0)
    ensures IsServiceStep(w, Execute(c), AfterExecute(w, c))
  {
    CommandRefines(w.db, c, w.now);
    var reply := Perform(w.db, c.request, c.op, c.ttl, w.now).0;
    assert AfterExecute(w, c).receipts == w.receipts + {Receipt(c, w.now, reply)};
  }

  lemma StepRefines(w: World, l: Label)
    requires Inv(w) && Enabled(w, l)
    ensures IsServiceStep(w, l, After(w, l))
  {
    match l
    case Tick(_) => TickRefines(w, l, After(w, l));
    case Execute(c) =>
      CommandTtl(w, c);
      ExecuteRefines(w, c);
    case EvictKey(k) => EvictRefines(w, k);
    case _ => ClientsLeaveServerAlone(w, l);
  }

  /** The worlds that a run passes through. */
  ghost function Trace(w: World, run: seq<Label>): seq<World>
    requires Legal(w, run)
    decreases |run|
  {
    if run == [] then [w] else [w] + Trace(After(w, run[0]), run[1..])
  }

  lemma {:induction false} TraceRefines(w: World, run: seq<Label>)
    requires Inv(w) && Legal(w, run)
    ensures var trace := Trace(w, run);
            && |trace| == |run| + 1
            && trace[0] == w
            && (forall i :: 0 <= i < |run| ==> IsServiceStep(trace[i], run[i], trace[i + 1]))
    decreases |run|
  {
    if run != [] {
      StepKeepsInv(w, run[0]);
      StepRefines(w, run[0]);
      TraceRefines(After(w, run[0]), run[1..]);
    }
  }

  /** From the empty server on, every run is a run of the lock service on a table that starts empty. */
  lemma RunsRefineTheService(start: nat, run: seq<Label>)
    requires Legal(Initial(start), run)
    ensures var trace := Trace(Initial(start), run);
            && |trace| == |run| + 1
            && Table(trace[0]) == map[]
            && (forall i :: 0 <= i < |run| ==> IsServiceStep(trace[i], run[i], trace[i + 1]))
  {
    InitialInv(start);
    TraceRefines(Initial(start), run);
  }
}
