/**
Stopping the owned VMM (internal/firecracker/firecracker.go:65-78 and
process_linux.go:150-226): one wait goroutine, one stop routine started by a
sync.Once, and any number of Stop callers, of which the context watcher is one.
Timers and contexts may fire at any moment.
*/
module VmmStop {
  datatype Child = Live | Zombie | Reaped

  datatype Routine =
    | NotStarted
    | Entered                 // inside p.stop, before its first select
    | Terming                 // done was not closed; about to send SIGTERM
    | Grace                   // waiting for done, the grace timer or the context
    | Killing
    | Last                    // waiting for done or the context
    | Ended(ok: bool)         // p.stop has returned; stopDone not yet closed

  datatype Caller =
    | Calling                 // before `select <-p.done`
    | Passing                 // done was open; at stopOnce.Do
    | Waiting                 // at the final select
    | Answered(ok: bool)

  datatype State = State(
    child: Child, waits: nat, done: bool,
    routine: Routine, runs: nat, stopDone: bool, stopOk: bool,
    callers: map<nat, Caller>)

  function Started(): State {
    State(Live, 0, false, NotStarted, 0, false, false, map[])
  }

  datatype Action =
    | ChildExits
    | WaitReturns             // cmd.Wait reaps the child
    | CloseDone
    | Call(i: nat)
    | CheckDone(i: nat)
    | EnterOnce(i: nat)
    | TakeStopDone(i: nat)
    | ContextEnds(i: nat)
    | RoutineChecks
    | RoutineSignals(delivered: bool)
    | RoutineSeesDone
    | RoutineTimesOut
    | RoutineContextEnds
    | RoutinePublishes

  predicate Enabled(s: State, a: Action) {
    match a
    case ChildExits => s.child == Live
    case WaitReturns => s.child == Zombie
    case CloseDone => s.child == Reaped && !s.done
    case Call(i) => i !in s.callers
    case CheckDone(i) => i in s.callers && s.callers[i] == Calling
    case EnterOnce(i) => i in s.callers && s.callers[i] == Passing
    case TakeStopDone(i) => i in s.callers && s.callers[i] == Waiting && s.stopDone
    case ContextEnds(i) => i in s.callers && s.callers[i] == Waiting
    case RoutineChecks => s.routine == Entered
    case RoutineSignals(_) => s.routine == Terming || s.routine == Killing
    case RoutineSeesDone => (s.routine == Grace || s.routine == Last) && s.done
    case RoutineTimesOut => s.routine == Grace
    case RoutineContextEnds => s.routine == Last
    case RoutinePublishes => s.routine.Ended? && !s.stopDone
  }

  function Step(s: State, a: Action): State
    requires Enabled(s, a)
  {
    match a
    case ChildExits => s.(child := Zombie)
    case WaitReturns => s.(child := Reaped, waits := s.waits + 1)
    case CloseDone => s.(done := true)
    case Call(i) => s.(callers := s.callers[i := Calling])
    case CheckDone(i) => s.(callers := s.callers[i := if s.done then Answered(true) else Passing])
    case EnterOnce(i) =>
      var t := if s.routine == NotStarted then s.(routine := Entered, runs := s.runs + 1) else s;
      t.(callers := t.callers[i := Waiting])
    case TakeStopDone(i) => s.(callers := s.callers[i := Answered(s.stopOk)])
    case ContextEnds(i) => s.(callers := s.callers[i := Answered(false)])
    case RoutineChecks => s.(routine := if s.done then Ended(true) else Terming)
    case RoutineSignals(delivered) =>
      // A failed signal is an error unless the handle says the child is already reaped.
      if !delivered && s.child != Reaped then s.(routine := Ended(false))
      else s.(routine := if s.routine == Terming then Grace else Last)
    case RoutineSeesDone => s.(routine := Ended(true))
    case RoutineTimesOut => s.(routine := Killing)
    case RoutineContextEnds => s.(routine := Ended(false))
    case RoutinePublishes => s.(stopDone := true, stopOk := s.routine.ok)
  }

  ghost predicate Inv(s: State) {
    && s.waits == (if s.child == Reaped then 1 else 0)
    && (s.done ==> s.child == Reaped)
    && s.runs == (if s.routine == NotStarted then 0 else 1)
    && (s.routine == Ended(true) ==> s.done)
    && (s.stopDone ==> s.routine == Ended(s.stopOk))
    && (forall i :: i in s.callers && s.callers[i] == Answered(true) ==> s.done)
    && (forall i :: i in s.callers && s.callers[i] == Waiting ==> s.routine != NotStarted)
  }

  ghost predicate IsSchedule(s: State, actions: seq<Action>)
    decreases |actions|
  {
    actions == [] || (Enabled(s, actions[0]) && IsSchedule(Step(s, actions[0]), actions[1..]))
  }

  ghost function Play(s: State, actions: seq<Action>): State
    requires IsSchedule(s, actions)
    decreases |actions|
  {
    if actions == [] then s else Play(Step(s, actions[0]), actions[1..])
  }

  lemma {:induction false} InvAlongSchedule(s: State, actions: seq<Action>)
    requires Inv(s) && IsSchedule(s, actions)
    ensures Inv(Play(s, actions))
    decreases |actions|
  {
    if actions != [] {
      InvAlongSchedule(Step(s, actions[0]), actions[1..]);
    }
  }

  /**
  For every interleaving the stop routine and the wait each run at most once, and a
  caller of Stop that got nil got it after the child was reaped.
  */
  lemma {:induction false} NilMeansReaped(actions: seq<Action>)
    requires IsSchedule(Started(), actions)
    ensures var s := Play(Started(), actions);
            && s.runs <= 1 && s.waits <= 1
            && (forall i :: i in s.callers && s.callers[i] == Answered(true) ==> s.child == Reaped && s.waits == 1)
  {
    InvAlongSchedule(Started(), actions);
  }

  /** p.done is closed before action k of the schedule. */
  ghost predicate DoneBefore(s: State, actions: seq<Action>, k: nat)
    requires k < |actions| && IsSchedule(s, actions)
    decreases k
  {
    if k == 0 then s.done else DoneBefore(Step(s, actions[0]), actions[1..], k - 1)
  }

  /**
  A stop routine that failed is never retried: from then on a caller is answered nil
  only by finding, on entry, that the child has been waited for.
  */
  lemma {:induction false} FailedStopIsFinal(s: State, actions: seq<Action>, i: nat)
    requires Inv(s) && s.stopDone && !s.stopOk && IsSchedule(s, actions)
    requires i in s.callers ==> s.callers[i] != Answered(true)
    ensures var t := Play(s, actions);
            && t.stopDone && !t.stopOk && t.runs == s.runs
            && (i in t.callers && t.callers[i] == Answered(true) ==>
                  exists k :: 0 <= k < |actions| && actions[k] == CheckDone(i) && DoneBefore(s, actions, k))
    decreases |actions|
  {
    if actions != [] {
      var u := Step(s, actions[0]);
      if i in u.callers && u.callers[i] == Answered(true) {
        assert actions[0] == CheckDone(i) && DoneBefore(s, actions, 0);
        FailureStays(s, actions);
      } else {
        FailedStopIsFinal(u, actions[1..], i);
        var t := Play(s, actions);
        if i in t.callers && t.callers[i] == Answered(true) {
          var k :| 0 <= k < |actions[1..]| && actions[1..][k] == CheckDone(i) && DoneBefore(u, actions[1..], k);
          assert actions[k + 1] == CheckDone(i) && DoneBefore(s, actions, k + 1);
        }
      }
    }
  }

  lemma {:induction false} FailureStays(s: State, actions: seq<Action>)
    requires Inv(s) && s.stopDone && !s.stopOk && IsSchedule(s, actions)
    ensures var t := Play(s, actions); t.stopDone && !t.stopOk && t.runs == s.runs
    decreases |actions|
  {
    if actions != [] {
      FailureStays(Step(s, actions[0]), actions[1..]);
    }
  }
}
