/**
Ownership of a workload's process group inside the guest
(internal/guestagent/process_linux.go:109-244). The waiter observes the leader's
exit without reaping it, kills and scans the group, and only then reaps; any number
of terminators signal the group meanwhile. Timers, contexts and system-call errors
may strike at any moment.

Host assumptions: an unreaped leader keeps its PID, a process group grows only by
forks of its own members, and a delivered group SIGKILL leaves no member able to
fork.
*/
module GroupReaper {
  import opened Common

  datatype Leader = Live | Zombie | Reaped

  datatype Waiter =
    | Observing                       // waitid(WEXITED | WNOWAIT)
    | Locking(seen: bool)             // at signalMu.Lock; `seen` is a nil error
    | Killing                         // killGroupAndWait, about to send SIGKILL
    | Scanning                        // about to look for active descendants
    | Marking                         // about to set reaping
    | Unlocking
    | Reaping                         // cmd.Wait
    | Closing
    | Finished

  datatype Signal = Term | Kill

  datatype Terminator =
    | Entering
    | Wanting(sig: Signal)            // at signalMu.Lock in signalGroup
    | Holding(sig: Signal)            // inside signalGroup
    | Leaving(sig: Signal, ok: bool)  // about to unlock
    | FirstWait
    | LastWait
    | Returned(ok: bool)

  datatype Holder = ByWaiter | ByTerminator(i: nat)

  datatype State = State(
    leader: Leader, members: nat, killed: bool,
    lock: Option<Holder>, reaping: bool, done: bool, cleanupOk: bool, scannedEmpty: bool,
    lateSignal: bool, waiter: Waiter, terminators: map<nat, Terminator>)

  function Launched(): State {
    State(Live, 0, false, None, false, false, true, false, false, Observing, map[])
  }

  datatype Action =
    | Fork
    | MemberDies
    | LeaderExits
    | WaitidReturns(ok: bool)
    | WaiterLocks
    | WaiterKills(ok: bool)
    | WaiterScans(ok: bool, expired: bool)
    | WaiterMarks
    | WaiterUnlocks
    | WaiterReaps(drained: bool)
    | WaiterCloses
    | Enter(i: nat)
    | CheckDone(i: nat)
    | TakeLock(i: nat)
    | SendSignal(i: nat, ok: bool)
    | ReleaseLock(i: nat)
    | SeeDone(i: nat)
    | TimeOut(i: nat)

  predicate At(s: State, i: nat, t: Terminator) {
    i in s.terminators && s.terminators[i] == t
  }

  predicate Enabled(s: State, a: Action) {
    match a
    case Fork => !s.killed && (s.leader == Live || s.members > 0)
    case MemberDies => s.members > 0
    case LeaderExits => s.leader == Live
    case WaitidReturns(ok) => s.waiter == Observing && (ok ==> s.leader == Zombie)
    case WaiterLocks => s.waiter.Locking? && s.lock == None
    case WaiterKills(_) => s.waiter == Killing
    case WaiterScans(_, _) => s.waiter == Scanning
    case WaiterMarks => s.waiter == Marking
    case WaiterUnlocks => s.waiter == Unlocking
    case WaiterReaps(_) => s.waiter == Reaping && s.leader == Zombie
    case WaiterCloses => s.waiter == Closing
    case Enter(i) => i !in s.terminators
    case CheckDone(i) => At(s, i, Entering)
    case TakeLock(i) => i in s.terminators && s.terminators[i].Wanting? && s.lock == None
    case SendSignal(i, _) => i in s.terminators && s.terminators[i].Holding?
    case ReleaseLock(i) => i in s.terminators && s.terminators[i].Leaving?
    case SeeDone(i) => (At(s, i, FirstWait) || At(s, i, LastWait)) && s.done
    case TimeOut(i) => At(s, i, FirstWait) || At(s, i, LastWait)
  }

  /** kill(-leader, sig): late when the leader's PID may already belong to someone else. */
  function SignalGroup(s: State, sig: Signal): State {
    s.(lateSignal := s.lateSignal || s.leader == Reaped, killed := s.killed || sig == Kill)
  }

  function Goto(s: State, i: nat, t: Terminator): State {
    s.(terminators := s.terminators[i := t])
  }

  function Step(s: State, a: Action): State
    requires Enabled(s, a)
  {
    match a
    case Fork => s.(members := s.members + 1)
    case MemberDies => s.(members := s.members - 1)
    case LeaderExits => s.(leader := Zombie)
    case WaitidReturns(ok) => s.(waiter := Locking(ok))
    case WaiterLocks =>
      if s.waiter.seen then s.(lock := Some(ByWaiter), waiter := Killing)
      else s.(lock := Some(ByWaiter), waiter := Marking, cleanupOk := false)
    case WaiterKills(ok) =>
      if ok then SignalGroup(s, Kill).(waiter := Scanning) else s.(waiter := Marking, cleanupOk := false)
    case WaiterScans(ok, expired) =>
      if !ok then s.(waiter := Marking, cleanupOk := false)
      else if s.members == 0 then s.(waiter := Marking, scannedEmpty := true)
      else if expired then s.(waiter := Marking, cleanupOk := false)
      else s.(waiter := Killing)
    case WaiterMarks => s.(waiter := Unlocking, reaping := true)
    case WaiterUnlocks => s.(waiter := Reaping, lock := None)
    case WaiterReaps(drained) => s.(waiter := Closing, leader := Reaped, cleanupOk := s.cleanupOk && drained)
    case WaiterCloses => s.(waiter := Finished, done := true)
    case Enter(i) => Goto(s, i, Entering)
    case CheckDone(i) => Goto(s, i, if s.done then Returned(s.cleanupOk) else Wanting(Term))
    case TakeLock(i) => Goto(s.(lock := Some(ByTerminator(i))), i, Holding(s.terminators[i].sig))
    case SendSignal(i, ok) =>
      var sig := s.terminators[i].sig;
      if s.reaping then Goto(s, i, Leaving(sig, true))
      else Goto(if ok then SignalGroup(s, sig) else s, i, Leaving(sig, ok))
    case ReleaseLock(i) =>
      var t := s.terminators[i];
      Goto(s.(lock := None), i, if !t.ok then Returned(false) else if t.sig == Term then FirstWait else LastWait)
    case SeeDone(i) => Goto(s, i, Returned(s.cleanupOk))
    case TimeOut(i) => Goto(s, i, if s.terminators[i] == FirstWait then Wanting(Kill) else Returned(false))
  }

  predicate WaiterHolds(w: Waiter) {
    w == Killing || w == Scanning || w == Marking || w == Unlocking
  }

  predicate PastMark(w: Waiter) {
    w == Unlocking || w == Reaping || w == Closing || w == Finished
  }

  ghost predicate Inv(s: State) {
    && !s.lateSignal
    && (s.leader == Reaped <==> s.waiter == Closing || s.waiter == Finished)
    && (s.waiter == Killing || s.waiter == Scanning || s.scannedEmpty ==> s.leader != Live)
    && (s.waiter.Locking? && s.waiter.seen ==> s.leader == Zombie)
    && s.reaping == PastMark(s.waiter)
    && s.done == (s.waiter == Finished)
    && (WaiterHolds(s.waiter) <==> s.lock == Some(ByWaiter))
    && (s.waiter == Scanning ==> s.killed)
    && (s.scannedEmpty ==> s.killed && s.members == 0)
    && ((PastMark(s.waiter) || s.waiter == Marking) && s.cleanupOk ==> s.scannedEmpty)
    && (forall i :: i in s.terminators && (s.terminators[i].Holding? || s.terminators[i].Leaving?) ==>
        s.lock == Some(ByTerminator(i)))
    && (forall i :: i in s.terminators && s.terminators[i] == Returned(true) ==> s.done && s.cleanupOk)
  }

  ghost predicate IsSchedule(s: State, actions: seq<Action>)
    decreases |actions|
  {
    actions == [] || (Enabled(s, actions[0]) && IsSchedule(Step(s, actions[0]), actions[1..]))
  }

  ghost function Play(s: State, actions: seq<Action>): State
    requires IsSchedule(s, actions)
    decreases |actions|
  {
    if actions == [] then s else Play(Step(s, actions[0]), actions[1..])
  }

  predicate ByTerminators(a: Action) {
    a.Enter? || a.CheckDone? || a.TakeLock? || a.SendSignal? || a.ReleaseLock? || a.SeeDone? || a.TimeOut?
  }

  /** The steps of signalGroup, under the lock. */
  lemma SignalKeepsInv(s: State, a: Action)
    requires Inv(s) && Enabled(s, a) && (a.TakeLock? || a.SendSignal? || a.ReleaseLock?)
    ensures Inv(Step(s, a))
  {
  }

  lemma TerminatorKeepsInv(s: State, a: Action)
    requires Inv(s) && Enabled(s, a) && ByTerminators(a) && !a.TakeLock? && !a.SendSignal? && !a.ReleaseLock?
    ensures Inv(Step(s, a))
  {
  }

  /** The group's own life, and the waiter before it holds the lock and after it gave it up. */
  lemma UnlockedKeepsInv(s: State, a: Action)
    requires Inv(s) && Enabled(s, a) && !ByTerminators(a) && !ByHolder(a)
    ensures Inv(Step(s, a))
  {
  }

  predicate ByHolder(a: Action) {
    a.WaiterKills? || a.WaiterScans? || a.WaiterMarks? || a.WaiterUnlocks?
  }

  lemma WaiterKeepsInv(s: State, a: Action)
    requires Inv(s) && Enabled(s, a) && ByHolder(a)
    ensures Inv(Step(s, a))
  {
  }

  lemma StepKeepsInv(s: State, a: Action)
    requires Inv(s) && Enabled(s, a)
    ensures Inv(Step(s, a))
  {
    if a.TakeLock? || a.SendSignal? || a.ReleaseLock? {
      SignalKeepsInv(s, a);
    } else if ByTerminators(a) {
      TerminatorKeepsInv(s, a);
    } else if ByHolder(a) {
      WaiterKeepsInv(s, a);
    } else {
      UnlockedKeepsInv(s, a);
    }
  }

  lemma {:induction false} InvAlongSchedule(s: State, actions: seq<Action>)
    requires Inv(s) && IsSchedule(s, actions)
    ensures Inv(Play(s, actions))
    decreases |actions|
  {
    if actions != [] {
      StepKeepsInv(s, actions[0]);
      InvAlongSchedule(Step(s, actions[0]), actions[1..]);
    }
  }

  /**
  For any number of terminators and any interleaving, no group signal follows the
  reap, and `terminate` returns nil only once the leader is reaped and a scan under
  the lock found the group empty, which it still is.
  */
  lemma {:induction false} NoSignalAfterReap(actions: seq<Action>)
    requires IsSchedule(Launched(), actions)
    ensures var s := Play(Launched(), actions);
            && !s.lateSignal
            && (forall i :: i in s.terminators && s.terminators[i] == Returned(true) ==>
                s.leader == Reaped && s.scannedEmpty && s.members == 0)
  {
    InvAlongSchedule(Launched(), actions);
  }
}
