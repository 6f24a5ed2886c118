/** Who is responsible for an acquisition that Redis has confirmed. */
module Handoff {
  import opened Redis
  import opened Scripts
  import opened LockRequest
  import opened Protocol
  import S = Sessions

  ghost predicate AcquiredBy(w: World, r: Request, t: int) {
    exists x :: x in w.receipts && x.command.op.Acquire? && Positive(x) && x.command.request == r && x.at <= t
  }

  ghost predicate ReleasedFrom(w: World, r: Request, t: int) {
    exists c :: c in w.sent && c.op.Release? && c.request == r && t <= c.sentAt
  }

  /** The session's history is what happened: the acquisition was executed before it was noted as confirmed,
      and a counted cleanup was sent after that. */
  ghost predicate Backed(w: World, s: S.Session) {
    s.confirmed ==>
      && s.confirmedAt <= w.now
      && AcquiredBy(w, s.request, s.confirmedAt)
      && (s.cleanups > 0 ==> ReleasedFrom(w, s.request, s.confirmedAt))
  }

  ghost predicate AllBacked(w: World) {
    forall u :: u in w.sessions ==> Backed(w, w.sessions[u])
  }

  lemma BackedGrows(w: World, after: World, s: S.Session)
    requires Backed(w, s) && w.now <= after.now && w.sent <= after.sent && w.receipts <= after.receipts
    ensures Backed(after, s)
  {
    if s.confirmed {
      var x :| x in w.receipts && x.command.op.Acquire? && Positive(x) && x.command.request == s.request
               && x.at <= s.confirmedAt;
      assert x in after.receipts;
      if s.cleanups > 0 {
        var c :| c in w.sent && c.op.Release? && c.request == s.request && s.confirmedAt <= c.sentAt;
        assert c in after.sent;
      }
    }
  }

  lemma WorldGrows(w: World, l: Label)
    requires Enabled(w, l)
    ensures w.now <= After(w, l).now && w.sent <= After(w, l).sent && w.receipts <= After(w, l).receipts
  {
  }

  /** A move that follows its contract keeps its history backed. */
  lemma ActedBacked(w: World, u: Token, next: S.Session, a: S.Action)
    requires MayAct(w, u, next, a) && SessionOk(w, u) && NetworkOk(w) && Backed(w, w.sessions[u])
    ensures Backed(Acted(w, u, next, a), next)
  {
    var s, after := w.sessions[u], Acted(w, u, next, a);
    if s.confirmed {
      BackedGrows(w, after, s);
      if s.cleanups < next.cleanups {
        var c := CommandOf(next.request, Release, next.ttl, w.now);
        assert c in after.sent && c.op.Release? && c.request == next.request;
      }
    } else if next.confirmed {
      assert Delivered(w, s, Acquire, a.start, true);
      var at :| Receipt(CommandOf(s.request, Acquire, s.ttl, a.start), at, Done(true)) in w.receipts;
      var x := Receipt(CommandOf(s.request, Acquire, s.ttl, a.start), at, Done(true));
      assert x in after.receipts && x.command.op.Acquire? && Positive(x) && x.at <= w.now;
    }
  }

  lemma StepKeepsBacked(w: World, l: Label)
    requires NetworkOk(w) && SessionsOk(w) && Enabled(w, l) && AllBacked(w)
    ensures AllBacked(After(w, l))
  {
    var after := After(w, l);
    WorldGrows(w, l);
    forall u | u in after.sessions ensures Backed(after, after.sessions[u]) {
      if u in w.sessions && after.sessions[u] == w.sessions[u] {
        BackedGrows(w, after, w.sessions[u]);
      } else if u in w.sessions {
        assert SessionOk(w, u);
        OneSessionMoves(w, l, u);
        ActContract(w, u, l.move);
        ActedBacked(w, u, S.Next(w.sessions[u], l.move, w.now), S.ActionOf(l.move));
      }
    }
  }

  lemma {:induction false} RunKeepsBacked(w: World, run: seq<Label>)
    requires Inv(w) && AllBacked(w) && Legal(w, run)
    ensures Inv(End(w, run)) && AllBacked(End(w, run))
    decreases |run|
  {
    if run != [] {
      StepKeepsInv(w, run[0]);
      StepKeepsBacked(w, run[0]);
      RunKeepsBacked(After(w, run[0]), run[1..]);
    }
  }

  /** The caller has accepted the guard. */
  predicate Accepted(s: S.Session) { s.caller.Claimed? }

  /** The supervisor has sent a release, no earlier than it heard of the confirmed acquisition. */
  ghost predicate CleanedUp(w: World, s: S.Session) {
    s.cleanups > 0 && AcquiredBy(w, s.request, s.confirmedAt) && ReleasedFrom(w, s.request, s.confirmedAt)
  }

  /** An async supervisor has ended after Redis confirmed its acquisition. */
  predicate AsyncEnded(s: S.Session) { s.backend.Async? && s.confirmed && s.supervisor.Ended? }

  /** When an async supervisor ends after Redis confirmed its acquisition, exactly one of two things has
      happened: the caller accepted the guard and the supervisor sent no release, or the caller got no
      guard and the supervisor sent a release after the acquisition. */
  lemma AsyncHandoff(start: nat, run: seq<Label>, u: Token)
    requires Legal(Initial(start), run)
    requires var w := End(Initial(start), run);
             u in w.sessions && AsyncEnded(w.sessions[u])
    ensures var w := End(Initial(start), run);
            var s := w.sessions[u];
            && (Accepted(s) <==> s.cleanups == 0)
            && (!Accepted(s) ==>
                  CleanedUp(w, s) && !S.At(s, S.InSlot) && !S.At(s, S.WithCaller) && !S.At(s, S.WithUser))
  {
    var w := End(Initial(start), run);
    InitialInv(start);
    RunKeepsBacked(Initial(start), run);
    assert SessionOk(w, u);
  }

  /** In either backend, a supervisor that ends without having made a guard has cleaned up after every
      acquisition it knows of. */
  lemma NoGrantIsForgotten(start: nat, run: seq<Label>, u: Token)
    requires Legal(Initial(start), run)
    requires var w := End(Initial(start), run);
             && u in w.sessions && w.sessions[u].confirmed
             && w.sessions[u].supervisor.Ended? && w.sessions[u].guard.NoGuard?
    ensures CleanedUp(End(Initial(start), run), End(Initial(start), run).sessions[u])
  {
    var w := End(Initial(start), run);
    InitialInv(start);
    RunKeepsBacked(Initial(start), run);
    assert SessionOk(w, u);
  }

  /** The outcome is final: no later step hands over what was cleaned up, or cleans up what was accepted. */
  lemma {:induction false} HandoffIsFinal(w: World, run: seq<Label>, u: Token)
    requires Inv(w) && Legal(w, run)
    requires u in w.sessions && AsyncEnded(w.sessions[u])
    ensures u in End(w, run).sessions
    ensures Accepted(End(w, run).sessions[u]) <==> Accepted(w.sessions[u])
    ensures End(w, run).sessions[u].cleanups == 0 <==> w.sessions[u].cleanups == 0
    decreases |run|
  {
    if run != [] {
      var after := After(w, run[0]);
      StepKeepsInv(w, run[0]);
      assert SessionOk(w, u);
      OneSessionMoves(w, run[0], u);
      SettledStep(w.sessions[u], after.sessions[u]);
      HandoffIsFinal(after, run[1..], u);
      assert SessionOk(after, u);
    }
  }

  lemma SettledStep(s: S.Session, next: S.Session)
    requires S.Inv(s) && S.Inv(next) && s.backend.Async? && next.backend == s.backend
    requires s.confirmed && next.confirmed && s.supervisor.Ended? && next.supervisor.Ended?
    requires s.cleanups <= next.cleanups && (Accepted(s) ==> Accepted(next))
    ensures (Accepted(next) <==> Accepted(s)) && (next.cleanups == 0 <==> s.cleanups == 0)
  {
  }
}
