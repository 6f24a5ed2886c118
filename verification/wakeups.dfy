/** Blocking waits: the condition variables of the sync manager and the watch channel of a lease. */
module WakeUps {
  import opened Redis

  // ----- condition variables -----

  /** How a notifier works.  `shutdown` raises `is_shutdown` without the retry lock and notifies under it;
      `cancel_acquisition` does both under the lock; the shutdown result is set under its lock and
      announced without it. */
  datatype Discipline = Discipline(raisesLocked: bool, notifiesLocked: bool)

  const SHUTDOWN_RETRY := Discipline(false, true)
  const CANCEL_RETRY := Discipline(true, true)
  const SHUTDOWN_RESULT := Discipline(true, false)

  datatype Stage = Idle | Raised | Notified

  /** `concerns`: the one waiter whose flag it raises, or everybody. */
  datatype Notifier = Notifier(discipline: Discipline, concerns: Option<nat>, stage: Stage)

  datatype Pc =
    | Outside
    | Looking    // holds the lock, about to look at its flags
    | Deciding   // holds the lock, has seen no flag
    | Asleep     // has let go of the lock in the same instant
    | Woken      // waits for the lock
    | Back       // `wait` has returned

  datatype Waits = Waits(lock: Option<nat>, waiters: map<nat, Pc>, notifiers: map<nat, Notifier>)

  datatype Step =
    | Enter(w: nat) | Look(w: nat) | Sleep(w: nat) | TimeOut(w: nat) | Retake(w: nat) | GiveUp(w: nat)
    | Raise(n: nat) | Notify(n: nat)

  predicate Concerns(n: Notifier, w: nat) { n.concerns.None? || n.concerns.value == w }

  /** Some flag that the waiter looks at is up. */
  predicate Flagged(s: Waits, w: nat) {
    exists n :: n in s.notifiers && !s.notifiers[n].stage.Idle? && Concerns(s.notifiers[n], w)
  }

  predicate PcIs(s: Waits, w: nat, pc: Pc) { w in s.waiters && s.waiters[w] == pc }

  predicate Enabled(s: Waits, step: Step) {
    match step
    case Enter(w) => PcIs(s, w, Outside) && s.lock.None?
    case Look(w) => PcIs(s, w, Looking)
    case Sleep(w) => PcIs(s, w, Deciding)
    case TimeOut(w) => PcIs(s, w, Asleep)
    case Retake(w) => PcIs(s, w, Woken) && s.lock.None?
    case GiveUp(w) => PcIs(s, w, Looking)  // the wait's own time is over
    case Raise(n) => n in s.notifiers && s.notifiers[n].stage.Idle?
                     && (s.notifiers[n].discipline.raisesLocked ==> s.lock.None?)
    case Notify(n) => n in s.notifiers && s.notifiers[n].stage.Raised?
                      && (s.notifiers[n].discipline.notifiesLocked ==> s.lock.None?)
  }

  function Next(s: Waits, step: Step): Waits
    requires Enabled(s, step)
  {
    match step
    case Enter(w) => s.(lock := Some(w), waiters := s.waiters[w := Looking])
    case Look(w) =>
      if Flagged(s, w) then s.(lock := None, waiters := s.waiters[w := Back])
      else s.(waiters := s.waiters[w := Deciding])
    case Sleep(w) => s.(lock := None, waiters := s.waiters[w := Asleep])
    case TimeOut(w) => s.(waiters := s.waiters[w := Woken])
    case Retake(w) => s.(lock := Some(w), waiters := s.waiters[w := Looking])
    case GiveUp(w) => s.(lock := None, waiters := s.waiters[w := Back])
    case Raise(n) => s.(notifiers := s.notifiers[n := s.notifiers[n].(stage := Raised)])
    case Notify(n) =>
      s.(notifiers := s.notifiers[n := s.notifiers[n].(stage := Notified)],
         waiters := map w | w in s.waiters :: if s.waiters[w].Asleep? then Woken else s.waiters[w])
  }

  ghost predicate Legal(s: Waits, run: seq<Step>)
    decreases |run|
  {
    run == [] || (Enabled(s, run[0]) && Legal(Next(s, run[0]), run[1..]))
  }

  function End(s: Waits, run: seq<Step>): Waits
    requires Legal(s, run)
    decreases |run|
  {
    if run == [] then s else End(Next(s, run[0]), run[1..])
  }

  /** Nobody has entered, no flag is up, and every notifier is one of the three that the manager has. */
  predicate Fresh(s: Waits) {
    && s.lock.None?
    && (forall w :: w in s.waiters ==> s.waiters[w].Outside?)
    && (forall n :: n in s.notifiers ==> s.notifiers[n].stage.Idle?)
    && (forall n :: n in s.notifiers ==>
          s.notifiers[n].discipline in {SHUTDOWN_RETRY, CANCEL_RETRY, SHUTDOWN_RESULT})
  }

  /** What the three have in common. */
  predicate UsesLock(d: Discipline) { d.raisesLocked || d.notifiesLocked }

  /** Whoever sleeps, or is about to, with a flag up still has its notification to come. */
  predicate Inv(s: Waits) {
    && (forall w :: w in s.waiters && (s.waiters[w].Looking? || s.waiters[w].Deciding?) ==> s.lock == Some(w))
    && (forall n :: n in s.notifiers ==> UsesLock(s.notifiers[n].discipline))
    && (forall w, n :: w in s.waiters && n in s.notifiers ==> PairOk(s.waiters[w], s.notifiers[n], w))
  }

  predicate PairOk(pc: Pc, n: Notifier, w: nat) {
    Concerns(n, w) ==>
      && (pc.Asleep? || pc.Deciding? ==> !n.stage.Notified?)
      && (pc.Deciding? && n.discipline.raisesLocked ==> n.stage.Idle?)
  }

  lemma StepKeepsInv(s: Waits, step: Step)
    requires Inv(s) && Enabled(s, step)
    ensures Inv(Next(s, step))
  {
  }

  lemma {:induction false} RunKeepsInv(s: Waits, run: seq<Step>)
    requires Inv(s) && Legal(s, run)
    ensures Inv(End(s, run))
    decreases |run|
  {
    if run != [] {
      StepKeepsInv(s, run[0]);
      RunKeepsInv(Next(s, run[0]), run[1..]);
    }
  }

  /** No lost wake-up: once a notifier has raised its flag and notified, no waiter it concerns is asleep. */
  lemma NoLostWakeUp(s: Waits, run: seq<Step>, w: nat, n: nat)
    requires Fresh(s) && Legal(s, run)
    requires var end := End(s, run);
             n in end.notifiers && end.notifiers[n].stage.Notified? && Concerns(end.notifiers[n], w)
    ensures !PcIs(End(s, run), w, Asleep)
  {
    RunKeepsInv(s, run);
  }

  /** A notifier that has raised its flag can notify as soon as the lock is free, and wakes everybody up; a woken
      waiter whose flag is up then gets back. */
  lemma NotifiersWakeUp(s: Waits, n: nat)
    requires n in s.notifiers && s.notifiers[n].stage.Raised? && s.lock.None?
    ensures Enabled(s, Notify(n))
    ensures forall w :: PcIs(s, w, Asleep) ==> PcIs(Next(s, Notify(n)), w, Woken)
  {
  }

  lemma WokenWaitersGetBack(s: Waits, w: nat, n: nat)
    requires PcIs(s, w, Woken) && s.lock.None?
    requires n in s.notifiers && !s.notifiers[n].stage.Idle? && Concerns(s.notifiers[n], w)
    ensures Enabled(s, Retake(w)) && Enabled(Next(s, Retake(w)), Look(w))
    ensures PcIs(Next(Next(s, Retake(w)), Look(w)), w, Back) && Next(Next(s, Retake(w)), Look(w)).lock.None?
  {
    var retaken := Next(s, Retake(w));
    assert retaken.notifiers[n] == s.notifiers[n];
  }

  /** The lock is what this rests on: a notifier that never takes it can leave a waiter asleep. */
  lemma WithoutLockWakeUpsGetLost()
    ensures var s := Waits(None, map[0 := Outside], map[0 := Notifier(Discipline(false, false), None, Idle)]);
            var run := [Enter(0), Look(0), Raise(0), Notify(0), Sleep(0)];
            Legal(s, run) && PcIs(End(s, run), 0, Asleep) && End(s, run).notifiers[0].stage.Notified?
  {
    var s0 := Waits(None, map[0 := Outside], map[0 := Notifier(Discipline(false, false), None, Idle)]);
    var run := [Enter(0), Look(0), Raise(0), Notify(0), Sleep(0)];
    assert run[1..] == [Look(0), Raise(0), Notify(0), Sleep(0)];
    var s1 := Next(s0, Enter(0));
    assert run[2..] == run[1..][1..] == [Raise(0), Notify(0), Sleep(0)];
    var s2 := Next(s1, Look(0));
    assert run[3..] == run[2..][1..] == [Notify(0), Sleep(0)];
    var s3 := Next(s2, Raise(0));
    assert run[4..] == run[3..][1..] == [Sleep(0)];
    var s4 := Next(s3, Notify(0));
    assert run[5..] == run[4..][1..] == [];
    var s5 := Next(s4, Sleep(0));
    assert Legal(s5, []) && End(s5, []) == s5;
    assert Legal(s4, run[4..]) && End(s4, run[4..]) == s5;
    assert Legal(s3, run[3..]) && End(s3, run[3..]) == s5;
    assert Legal(s2, run[2..]) && End(s2, run[2..]) == s5;
    assert Legal(s1, run[1..]) && End(s1, run[1..]) == s5;
  }

  // ----- the watch channel of a lease -----

  /** A waiter in `wait_until_inactive`: `seen` is the version that it has seen of the channel. */
  datatype Watcher =
    | Unsubscribed
    | Reading(seen: nat)    // about to ask for the lease's state
    | Selecting(seen: nat)  // waits for a newer version, or for its timer
    | Told                  // has returned

  /** `debts`: transitions that have changed the state and are still to notify, as `release` does after
      unlocking; the others notify while they hold the lease's lock. */
  datatype Watch = Watch(active: bool, version: nat, debts: nat, watchers: map<nat, Watcher>)

  datatype Tick =
    | Subscribe(w: nat) | Read(w: nat) | Changed(w: nat) | TimerFires(w: nat)
    | Renew | EndAndNotify | EndUnlocked | PayDebt

  predicate CanTick(s: Watch, t: Tick) {
    match t
    case Subscribe(w) => w in s.watchers && s.watchers[w].Unsubscribed?
    case Read(w) => w in s.watchers && s.watchers[w].Reading?
    case Changed(w) => w in s.watchers && s.watchers[w].Selecting? && s.watchers[w].seen != s.version
    case TimerFires(w) => w in s.watchers && s.watchers[w].Selecting?
    case Renew => s.active
    case EndAndNotify => s.active
    case EndUnlocked => true
    case PayDebt => s.debts > 0
  }

  function Ticked(s: Watch, t: Tick): Watch
    requires CanTick(s, t)
  {
    match t
    case Subscribe(w) => s.(watchers := s.watchers[w := Reading(s.version)])
    case Read(w) => s.(watchers := s.watchers[w := if s.active then Selecting(s.watchers[w].seen) else Told])
    case Changed(w) => s.(watchers := s.watchers[w := Reading(s.version)])
    case TimerFires(w) => s.(watchers := s.watchers[w := Reading(s.watchers[w].seen)])
    case Renew => s.(version := s.version + 1)
    case EndAndNotify => s.(active := false, version := s.version + 1)
    case EndUnlocked => s.(active := false, debts := s.debts + 1)
    case PayDebt => s.(version := s.version + 1, debts := s.debts - 1)
  }

  ghost predicate LegalTicks(s: Watch, run: seq<Tick>)
    decreases |run|
  {
    run == [] || (CanTick(s, run[0]) && LegalTicks(Ticked(s, run[0]), run[1..]))
  }

  function AfterTicks(s: Watch, run: seq<Tick>): Watch
    requires LegalTicks(s, run)
    decreases |run|
  {
    if run == [] then s else AfterTicks(Ticked(s, run[0]), run[1..])
  }

  /** Nothing but its timer could wake the watcher. */
  predicate Stuck(s: Watch, w: nat) {
    w in s.watchers && s.watchers[w] == Selecting(s.version)
  }

  predicate WatchOk(s: Watch) {
    forall w :: w in s.watchers ==> WatcherOk(s, s.watchers[w])
  }

  predicate WatcherOk(s: Watch, x: Watcher) {
    && (x.Reading? || x.Selecting? ==> x.seen <= s.version)
    && (x.Selecting? && !s.active ==> x.seen < s.version || s.debts > 0)
  }

  lemma {:induction false} TicksKeepOk(s: Watch, run: seq<Tick>)
    requires WatchOk(s) && LegalTicks(s, run)
    ensures WatchOk(AfterTicks(s, run))
    decreases |run|
  {
    if run != [] {
      assert WatchOk(Ticked(s, run[0]));
      TicksKeepOk(Ticked(s, run[0]), run[1..]);
    }
  }

  /** A watcher that looks at a lease that has ended is told; one that has missed a version can look again. */
  lemma WatchersAreTold(s: Watch, w: nat)
    requires w in s.watchers && !s.active
    ensures s.watchers[w].Reading? ==> CanTick(s, Tick.Read(w)) && Ticked(s, Tick.Read(w)).watchers[w].Told?
    ensures s.watchers[w].Selecting? && s.watchers[w].seen < s.version ==>
              CanTick(s, Changed(w)) && Ticked(s, Changed(w)).watchers[w].Reading?
  {
  }

  /** A lease that has ended, with the notification sent, leaves no watcher stuck. */
  lemma NoWatcherIsStuck(watchers: map<nat, Watcher>, run: seq<Tick>, w: nat)
    requires forall x :: x in watchers ==> watchers[x].Unsubscribed?
    requires LegalTicks(Watch(true, 0, 0, watchers), run)
    requires var end := AfterTicks(Watch(true, 0, 0, watchers), run); !end.active && end.debts == 0
    ensures !Stuck(AfterTicks(Watch(true, 0, 0, watchers), run), w)
  {
    TicksKeepOk(Watch(true, 0, 0, watchers), run);
  }
}
