/**
firecracker.StopOwned against a host that changes between any two of its system
calls (internal/firecracker/process_linux.go). Every process has a serial number
that the program never sees; a pidfd holds a serial, a PID does not.

Host assumption: a pair (PID, start ticks) is given out once per boot.
*/
module OwnedSignal {
  import opened Common

  datatype Process = Process(serial: nat, uid: nat, ticks: nat, running: bool)

  /** The persisted identity, on the current boot, and the process it was read from. */
  datatype Recorded = Recorded(pid: nat, uid: nat, ticks: nat, target: nat)

  datatype Pc =
    | Begin                     // before the first InspectProcess
    | UidRead(uid: nat)         // between its two reads of /proc
    | Verified                  // first inspection said alive
    | Opened(fd: nat)           // pidfd_open succeeded
    | UidReread(uid: nat, fd: nat)
    | Signalling(fd: nat)       // second inspection said alive
    | Returned(ok: bool)

  datatype State = State(
    table: map<nat, Process>, used: set<(nat, nat)>, nextSerial: nat, pc: Pc, signalled: seq<nat>)

  datatype Action =
    | Spawn(pid: nat, uid: nat, ticks: nat)
    | Exit(pid: nat)
    | Reap(pid: nat)
    | ReadUid
    | ReadStat
    | Open
    | Signal
    | Poll
    | GiveUp

  predicate Enabled(s: State, a: Action) {
    match a
    case Spawn(pid, _, ticks) => pid !in s.table && (pid, ticks) !in s.used
    case Exit(pid) => pid in s.table && s.table[pid].running
    case Reap(pid) => pid in s.table && !s.table[pid].running
    case ReadUid => s.pc.Begin? || s.pc.Opened?
    case ReadStat => s.pc.UidRead? || s.pc.UidReread?
    case Open => s.pc.Verified?
    case Signal => s.pc.Signalling?
    case Poll => s.pc.Signalling?
    case GiveUp => !s.pc.Returned?
  }

  /** The second half of InspectProcess; None is alive, Some(ok) is a return value. */
  function Inspection(s: State, rec: Recorded, uid: nat): Option<bool> {
    if rec.pid !in s.table then Some(true)
    else if uid != rec.uid || s.table[rec.pid].ticks != rec.ticks then Some(false)
    else if !s.table[rec.pid].running then Some(true)
    else None
  }

  predicate HasExited(s: State, serial: nat) {
    forall p :: p in s.table && s.table[p].serial == serial ==> !s.table[p].running
  }

  function Step(s: State, rec: Recorded, a: Action): State
    requires Enabled(s, a)
  {
    match a
    case Spawn(pid, uid, ticks) =>
      s.(table := s.table[pid := Process(s.nextSerial, uid, ticks, true)],
         used := s.used + {(pid, ticks)}, nextSerial := s.nextSerial + 1)
    case Exit(pid) => s.(table := s.table[pid := s.table[pid].(running := false)])
    case Reap(pid) => s.(table := s.table - {pid})
    case ReadUid =>
      if rec.pid !in s.table then s.(pc := Returned(true))
      else s.(pc := if s.pc.Begin? then UidRead(s.table[rec.pid].uid) else UidReread(s.table[rec.pid].uid, s.pc.fd))
    case ReadStat =>
      (match Inspection(s, rec, s.pc.uid)
       case Some(ok) => s.(pc := Returned(ok))
       case None => s.(pc := if s.pc.UidRead? then Verified else Signalling(s.pc.fd)))
    case Open => s.(pc := if rec.pid in s.table then Opened(s.table[rec.pid].serial) else Returned(false))
    case Signal => s.(signalled := s.signalled + [s.pc.fd])
    case Poll => if HasExited(s, s.pc.fd) then s.(pc := Returned(true)) else s
    case GiveUp => s.(pc := Returned(false))
  }

  /** The recorded identity belongs to `target` and to no other process, now or later. */
  ghost predicate Owns(s: State, rec: Recorded) {
    && (rec.pid, rec.ticks) in s.used && rec.target < s.nextSerial
    && (forall p :: p in s.table ==> (p, s.table[p].ticks) in s.used && s.table[p].serial < s.nextSerial)
    && (forall p, q :: p in s.table && q in s.table && s.table[p].serial == s.table[q].serial ==> p == q)
    && (forall p :: p in s.table ==>
          (s.table[p].serial == rec.target <==> p == rec.pid && s.table[p].ticks == rec.ticks))
  }

  ghost predicate Inv(s: State, rec: Recorded) {
    && Owns(s, rec)
    && (s.pc.Opened? || s.pc.UidReread? ==>
          rec.pid in s.table && s.table[rec.pid].serial == rec.target ==> s.pc.fd == rec.target)
    && (s.pc.Signalling? ==> s.pc.fd == rec.target)
    && (s.pc == Returned(true) ==> HasExited(s, rec.target))
    && (forall i :: 0 <= i < |s.signalled| ==> s.signalled[i] == rec.target)
  }

  ghost predicate IsSchedule(s: State, rec: Recorded, actions: seq<Action>)
    decreases |actions|
  {
    actions == [] || (Enabled(s, actions[0]) && IsSchedule(Step(s, rec, actions[0]), rec, actions[1..]))
  }

  ghost function Play(s: State, rec: Recorded, actions: seq<Action>): State
    requires IsSchedule(s, rec, actions)
    decreases |actions|
  {
    if actions == [] then s else Play(Step(s, rec, actions[0]), rec, actions[1..])
  }

  lemma SpawnKeepsInv(s: State, rec: Recorded, pid: nat, uid: nat, ticks: nat)
    requires Inv(s, rec) && Enabled(s, Spawn(pid, uid, ticks))
    ensures Inv(Step(s, rec, Spawn(pid, uid, ticks)), rec)
  {
    var t := Step(s, rec, Spawn(pid, uid, ticks));
    assert forall p :: p in t.table && p != pid ==> p in s.table && t.table[p] == s.table[p];
  }

  lemma ExitKeepsInv(s: State, rec: Recorded, a: Action)
    requires Inv(s, rec) && Enabled(s, a) && (a.Exit? || a.Reap?)
    ensures Inv(Step(s, rec, a), rec)
  {
    var t := Step(s, rec, a);
    assert forall p :: p in t.table ==> p in s.table && t.table[p].(running := true) == s.table[p].(running := true);
  }

  /** The program's own steps leave the process table alone. */
  lemma ProgramKeepsInv(s: State, rec: Recorded, a: Action)
    requires Inv(s, rec) && Enabled(s, a) && !a.Spawn? && !a.Exit? && !a.Reap?
    ensures Inv(Step(s, rec, a), rec)
  {
  }

  lemma StepKeepsInv(s: State, rec: Recorded, a: Action)
    requires Inv(s, rec) && Enabled(s, a)
    ensures Inv(Step(s, rec, a), rec)
  {
    match a {
      case Spawn(pid, uid, ticks) => SpawnKeepsInv(s, rec, pid, uid, ticks);
      case Exit(pid) => ExitKeepsInv(s, rec, a);
      case Reap(pid) => ExitKeepsInv(s, rec, a);
      case _ => ProgramKeepsInv(s, rec, a);
    }
  }

  /**
  Whatever exits, spawns and PID reuse happen between the calls of StopOwned, every
  signal goes to the recorded process, and a nil result means it no longer runs.
  */
  lemma {:induction false} SignalsOnlyTheRecordedProcess(s: State, rec: Recorded, actions: seq<Action>)
    requires Owns(s, rec) && s.pc == Begin && s.signalled == []
    requires IsSchedule(s, rec, actions)
    ensures var t := Play(s, rec, actions);
            && (forall i :: 0 <= i < |t.signalled| ==> t.signalled[i] == rec.target)
            && (t.pc == Returned(true) ==> HasExited(t, rec.target))
  {
    InvAlongSchedule(s, rec, actions);
  }

  lemma {:induction false} InvAlongSchedule(s: State, rec: Recorded, actions: seq<Action>)
    requires Inv(s, rec) && IsSchedule(s, rec, actions)
    ensures Inv(Play(s, rec, actions), rec)
    decreases |actions|
  {
    if actions != [] {
      StepKeepsInv(s, rec, actions[0]);
      InvAlongSchedule(Step(s, rec, actions[0]), rec, actions[1..]);
    }
  }

  /**
  The second inspection is what makes this so: an open pidfd can name a stranger,
  and in that case the second inspection never lets a signal through.
  */
  lemma PidfdAloneIsNotEnough() returns (s: State, rec: Recorded, actions: seq<Action>)
    ensures Owns(s, rec) && s.pc == Begin && IsSchedule(s, rec, actions)
    ensures Play(s, rec, actions).pc.Opened? && Play(s, rec, actions).pc.fd != rec.target
  {
    rec := Recorded(10, 1, 5, 0);
    s := Demo(map[10 := Process(0, 1, 5, true)], {(10, 5)}, 1, Begin);
    var tail := [Exit(10), Reap(10), Spawn(10, 1, 6), Open];
    StrangerTakesPid(rec);
    PlayStep(Demo(s.table, s.used, 1, UidRead(1)), rec, ReadStat, tail);
    PlayStep(s, rec, ReadUid, [ReadStat] + tail);
    actions := [ReadUid] + ([ReadStat] + tail);
  }

  function Demo(table: map<nat, Process>, used: set<(nat, nat)>, nextSerial: nat, pc: Pc): State {
    State(table, used, nextSerial, pc, [])
  }

  /** After the first inspection the recorded process goes, and a stranger gets its PID. */
  lemma StrangerTakesPid(rec: Recorded)
    requires rec == Recorded(10, 1, 5, 0)
    ensures var s := Demo(map[10 := Process(0, 1, 5, true)], {(10, 5)}, 1, Verified);
            var actions := [Exit(10), Reap(10), Spawn(10, 1, 6), Open];
            IsSchedule(s, rec, actions) && Play(s, rec, actions).pc == Opened(1)
  {
    var s := Demo(map[10 := Process(0, 1, 5, true)], {(10, 5)}, 1, Verified);
    var zombie := Demo(map[10 := Process(0, 1, 5, false)], {(10, 5)}, 1, Verified);
    var gone := Demo(map[], {(10, 5)}, 1, Verified);
    var stranger := Demo(map[10 := Process(1, 1, 6, true)], {(10, 5), (10, 6)}, 2, Verified);
    assert Step(gone, rec, Spawn(10, 1, 6)) == stranger;
    assert Step(zombie, rec, Reap(10)) == gone;
    assert Step(s, rec, Exit(10)) == zombie;
    PlayStep(stranger, rec, Open, []);
    PlayStep(gone, rec, Spawn(10, 1, 6), [Open]);
    PlayStep(zombie, rec, Reap(10), [Spawn(10, 1, 6), Open]);
    PlayStep(s, rec, Exit(10), [Reap(10), Spawn(10, 1, 6), Open]);
  }

  lemma PlayStep(s: State, rec: Recorded, a: Action, rest: seq<Action>)
    requires Enabled(s, a) && IsSchedule(Step(s, rec, a), rec, rest)
    ensures IsSchedule(s, rec, [a] + rest) && Play(s, rec, [a] + rest) == Play(Step(s, rec, a), rec, rest)
  {
    assert ([a] + rest)[1..] == rest;
  }
}
