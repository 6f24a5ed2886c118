/** Plays of a session: the moves by which code that acts on it accounts for what it does. */
module SessionPlays {
  import S = Sessions

  /** A move of the session, and what the session has become by it. */
  datatype Event = Event(move: S.Move, at: int, after: S.Session)

  /** The session after the first `n` events. */
  function Reached(s: S.Session, events: seq<Event>, n: nat): S.Session
    requires n <= |events|
  {
    if n == 0 then s else events[n - 1].after
  }

  predicate EventOk(s: S.Session, events: seq<Event>, i: nat)
    requires i < |events|
  {
    var e := events[i];
    && S.Enabled(Reached(s, events, i), e.move, e.at, true)
    && e.after == S.Next(Reached(s, events, i), e.move, e.at)
  }

  /** Every event is a move that its session can make where it happens. */
  ghost predicate Plays(s: S.Session, events: seq<Event>) {
    forall i :: 0 <= i < |events| ==> EventOk(s, events, i)
  }

  function Played(s: S.Session, events: seq<Event>): S.Session {
    Reached(s, events, |events|)
  }

  function MovesOf(events: seq<Event>): (moves: seq<S.Move>)
    ensures |moves| == |events|
    ensures forall i :: 0 <= i < |events| ==> moves[i] == events[i].move
  {
    if events == [] then [] else MovesOf(events[..|events| - 1]) + [events[|events| - 1].move]
  }

  /** How many acquire commands were sent. */
  function Attempts(events: seq<Event>): nat {
    if events == [] then 0
    else Attempts(events[..|events| - 1]) + if events[|events| - 1].move.SendAttempt? then 1 else 0
  }

  lemma Play(s: S.Session, events: seq<Event>, move: S.Move, at: int) returns (more: seq<Event>)
    requires Plays(s, events) && S.Enabled(Played(s, events), move, at, true)
    ensures Plays(s, more) && Played(s, more) == S.Next(Played(s, events), move, at)
    ensures MovesOf(more) == MovesOf(events) + [move]
    ensures Attempts(more) == Attempts(events) + if move.SendAttempt? then 1 else 0
  {
    more := events + [Event(move, at, S.Next(Played(s, events), move, at))];
    assert more[..|more| - 1] == events;
    forall i | 0 <= i < |more| ensures EventOk(s, more, i) {
      if i < |events| {
        assert EventOk(s, events, i);
      }
    }
  }
}
