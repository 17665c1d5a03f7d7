/**
What an overtaken recovery leads to: it files COMPLETE over a live VMM
(internal/engine/recover.go:268-299), `admit` lets the next run in
(internal/engine/recover.go:113-140), and a second VMM starts. Exactly when, and a schedule
on which it happens.
*/
module TwoVmms {
  import opened Common
  import opened RunProtocol
  import opened LiveVmms
  import opened OvertakenRecovery
  import RunSafety

  // ---- The next run ----------------------------------------------------------------------

  /** A run that goes from the lock to its VMM without a failure. */
  function NextRun(d: nat, run: nat, pid: nat, ticks: nat): seq<Action> {
    [Run(d, RunLocks), Run(d, RunAdmits(run)), Run(d, RunSaves(Saved)), Run(d, RunSaves(Saved)), Run(d, RunMakesDir),
     Run(d, RunCopiesDisk), Run(d, RunSaves(Saved)), Run(d, RunLaunches(pid, ticks))]
  }

  /** Nothing stands in the way of a new run. */
  ghost predicate Open(w: World, d: nat, run: nat, pid: nat, ticks: nat) {
    w.lock == None && Admissible(w) && d !in w.controllers && run !in w.evidence && FreshProcess(w, pid, ticks)
  }

  function At(w: World, stage: Stage): Manifest {
    Manifest(w.boot, stage, None, Incomplete)
  }

  /** w with the run under way in controller d, its directory as given. */
  function Under(w: World, d: nat, run: nat, m: Manifest, runtime: map<nat, bool>, pc: RunPc): World {
    w.(lock := Some(d), evidence := w.evidence + {run}, manifests := w.manifests[run := m], runtime := runtime,
       controllers := w.controllers[d := Runner(run, pc, m, None, false)])
  }

  /** The actions lead from w to x, and none of them files falsely. */
  ghost predicate Leads(w: World, s: seq<Action>, x: World) {
    IsSchedule(w, s) && NeverFilesFalsely(w, s) && Play(w, s) == x
  }

  lemma {:induction false} LeadsOn(w: World, s: seq<Action>, x: World, t: seq<Action>, y: World)
    requires Leads(w, s, x) && Leads(x, t, y)
    ensures Leads(w, s + t, y)
    decreases |s|
  {
    if s == [] {
      assert s + t == t;
    } else {
      LeadsOn(Step(w, s[0]), s[1..], x, t, y);
      assert (s + t)[1..] == s[1..] + t;
    }
  }

  lemma LeadsOne(w: World, a: Action, x: World)
    requires Enabled(w, a) && !FilesFalsely(w, a) && Step(w, a) == x
    ensures Leads(w, [a], x)
  {
    assert [a][1..] == [];
  }

  /** One more action of s. */
  lemma LeadsNext(w: World, s: seq<Action>, n: nat, x: World, y: World)
    requires n < |s| && Leads(w, s[..n], x) && Enabled(x, s[n]) && !FilesFalsely(x, s[n]) && Step(x, s[n]) == y
    ensures Leads(w, s[..n + 1], y)
  {
    LeadsOne(x, s[n], y);
    LeadsOn(w, s[..n], x, [s[n]], y);
    assert s[..n] + [s[n]] == s[..n + 1];
  }

  lemma Admission(w: World, d: nat, run: nat, pid: nat, ticks: nat)
    requires Open(w, d, run, pid, ticks)
    ensures Leads(w, NextRun(d, run, pid, ticks)[..2], Admitted(w, d, run))
  {
    var s := NextRun(d, run, pid, ticks);
    var w1 := w.(lock := Some(d), controllers := w.controllers[d := Admitting]);
    assert s[..0] == [];
    LeadsNext(w, s, 0, w, w1);
    LeadsNext(w, s, 1, w1, Admitted(w, d, run));
  }

  function Admitted(w: World, d: nat, run: nat): World {
    w.(lock := Some(d), evidence := w.evidence + {run},
       controllers := w.controllers[d := Runner(run, SaveValidating, At(w, Validating), None, false)])
  }

  lemma FirstSave(w: World, d: nat, run: nat)
    ensures Enabled(Admitted(w, d, run), Run(d, RunSaves(Saved)))
    ensures Step(Admitted(w, d, run), Run(d, RunSaves(Saved))) ==
            Under(w, d, run, At(w, Validating), w.runtime, SavePreparing)
  {
  }

  lemma LaterSave(w: World, d: nat, run: nat, stage: Stage, runtime: map<nat, bool>, pc: RunPc)
    requires pc == SavePreparing || pc == SaveBooting
    ensures var x := Under(w, d, run, At(w, stage), runtime, pc);
            && Enabled(x, Run(d, RunSaves(Saved)))
            && Step(x, Run(d, RunSaves(Saved))) == Under(w, d, run, At(w, StageAt(pc)), runtime, AfterSave(pc, Saved))
  {
  }

  lemma DirStep(w: World, d: nat, run: nat, m: Manifest)
    ensures var x := Under(w, d, run, m, w.runtime, MakeDir);
            && Enabled(x, Run(d, RunMakesDir))
            && Step(x, Run(d, RunMakesDir)) == Under(w, d, run, m, w.runtime[run := false], CopyDisk)
  {
  }

  lemma DiskStep(w: World, d: nat, run: nat, m: Manifest)
    ensures var x := Under(w, d, run, m, w.runtime[run := false], CopyDisk);
            && Enabled(x, Run(d, RunCopiesDisk))
            && Step(x, Run(d, RunCopiesDisk)) == Under(w, d, run, m, w.runtime[run := true], SaveBooting)
  {
  }

  lemma LaunchStep(w: World, d: nat, run: nat, pid: nat, ticks: nat)
    requires FreshProcess(w, pid, ticks)
    ensures var x := Under(w, d, run, At(w, Booting), w.runtime[run := true], Launch);
            && Enabled(x, Run(d, RunLaunches(pid, ticks)))
            && Step(x, Run(d, RunLaunches(pid, ticks))) == LaunchVmm(x, d, pid, ticks)
            && LaunchVmm(x, d, pid, ticks).procs == w.procs[pid := Process(ticks, Some(run), true)]
  {
  }

  lemma NextRunPrepares(w: World, d: nat, run: nat, pid: nat, ticks: nat)
    requires Open(w, d, run, pid, ticks)
    ensures Leads(w, NextRun(d, run, pid, ticks)[..4], Under(w, d, run, At(w, Preparing), w.runtime, MakeDir))
  {
    var s := NextRun(d, run, pid, ticks);
    var w3 := Under(w, d, run, At(w, Validating), w.runtime, SavePreparing);
    Admission(w, d, run, pid, ticks);
    FirstSave(w, d, run);
    LeadsNext(w, s, 2, Admitted(w, d, run), w3);
    LaterSave(w, d, run, Validating, w.runtime, SavePreparing);
    LeadsNext(w, s, 3, w3, Under(w, d, run, At(w, Preparing), w.runtime, MakeDir));
  }

  lemma NextRunHasDisk(w: World, d: nat, run: nat, pid: nat, ticks: nat)
    requires Open(w, d, run, pid, ticks)
    ensures Leads(w, NextRun(d, run, pid, ticks)[..6],
                  Under(w, d, run, At(w, Preparing), w.runtime[run := true], SaveBooting))
  {
    var s := NextRun(d, run, pid, ticks);
    var m := At(w, Preparing);
    var w5 := Under(w, d, run, m, w.runtime[run := false], CopyDisk);
    NextRunPrepares(w, d, run, pid, ticks);
    DirStep(w, d, run, m);
    LeadsNext(w, s, 4, Under(w, d, run, m, w.runtime, MakeDir), w5);
    DiskStep(w, d, run, m);
    LeadsNext(w, s, 5, w5, Under(w, d, run, m, w.runtime[run := true], SaveBooting));
  }

  /** The new run starts its VMM, beside whatever else lives. */
  lemma NextRunLaunches(w: World, d: nat, run: nat, pid: nat, ticks: nat) returns (x: World)
    requires Open(w, d, run, pid, ticks)
    ensures Leads(w, NextRun(d, run, pid, ticks), x) && x.procs == w.procs[pid := Process(ticks, Some(run), true)]
  {
    var s := NextRun(d, run, pid, ticks);
    var w6 := Under(w, d, run, At(w, Preparing), w.runtime[run := true], SaveBooting);
    var w7 := Under(w, d, run, At(w, Booting), w.runtime[run := true], Launch);
    NextRunHasDisk(w, d, run, pid, ticks);
    LaterSave(w, d, run, Preparing, w.runtime[run := true], SaveBooting);
    LeadsNext(w, s, 6, w6, w7);
    x := LaunchVmm(w7, d, pid, ticks);
    LaunchStep(w, d, run, pid, ticks);
    LeadsNext(w, s, 7, w7, x);
    assert s[..8] == s;
  }

  lemma SecondVmmLives(w: World, x: World, run: nat, next: nat, pid: nat, ticks: nat)
    requires HasLiveVmm(w, run) && pid !in w.procs && x.procs == w.procs[pid := Process(ticks, Some(next), true)]
    ensures !OneVmm(x)
  {
    var p :| p in w.procs && IsLive(w.procs, p) && IsVmm(w.procs, p, run);
    assert IsLive(x.procs, p) && IsLive(x.procs, pid) && p != pid;
  }

  // ---- A false filing opens the door -------------------------------------------------------

  /** The recovery has filed its report, and returns. */
  function Filed(w: World, c: nat, outcome: SaveOutcome): World
    requires IsRecoverer(w, c)
  {
    ControllerDies(PublishRecoveredReport(w, c, outcome), c)
  }

  /** All runs but the one with the live VMM were COMPLETE when that one was admitted, and this one is now. */
  lemma FalseFilingAdmits(w: World, c: nat, outcome: SaveOutcome)
    requires Inv(w) && IsRecovererAt(w, c, RecoverReport) && outcome != Lost && HasLiveVmm(w, w.controllers[c].run)
    ensures var x := Filed(w, c, outcome); x.lock == None && Admissible(x) && x.procs == w.procs
  {
    var run := w.controllers[c].run;
    var p :| p in w.procs && IsLive(w.procs, p) && IsVmm(w.procs, p, run);
    assert Alone(w, run) && RecovererOk(w, w.controllers[c]);
    var x := Filed(w, c, outcome);
    assert x.runtime.Keys == {};
  }

  /** A number above all of the set. */
  ghost function Above(taken: set<nat>): (n: nat)
    ensures forall k :: k in taken ==> k < n
  {
    if taken == {} then 0
    else
      var k :| k in taken;
      var rest := Above(taken - {k});
      assert forall j :: j in taken ==> j == k || j in taken - {k};
      if k < rest then rest else k + 1
  }

  function TicksOf(used: set<Identity>): (s: set<nat>)
    ensures forall id :: id in used ==> id.ticks in s
  {
    set id | id in used :: id.ticks
  }

  /** The rest of the story, once the report is filed: the recovery returns and the next run starts its VMM. */
  lemma SecondVmmFollows(w: World, c: nat, outcome: SaveOutcome) returns (t: seq<Action>)
    requires Inv(w) && IsRecovererAt(w, c, RecoverReport) && outcome != Lost && HasLiveVmm(w, w.controllers[c].run)
    ensures var x := PublishRecoveredReport(w, c, outcome);
            IsSchedule(x, t) && NeverFilesFalsely(x, t) && !OneVmm(Play(x, t))
  {
    var x, y := PublishRecoveredReport(w, c, outcome), Filed(w, c, outcome);
    FalseFilingAdmits(w, c, outcome);
    LeadsOne(x, Host(Dying(c)), y);
    var d, run, pid := Above(y.controllers.Keys), Above(y.evidence), Above(y.procs.Keys);
    var ticks := Above(TicksOf(y.used));
    assert Identity(pid, ticks, y.boot) in y.used ==> ticks in TicksOf(y.used);
    var z := NextRunLaunches(y, d, run, pid, ticks);
    LeadsOn(x, [Host(Dying(c))], y, NextRun(d, run, pid, ticks), z);
    SecondVmmLives(y, z, w.controllers[c].run, run, pid, ticks);
    t := [Host(Dying(c))] + NextRun(d, run, pid, ticks);
  }

  ghost predicate MayEndWithTwo(x: World) {
    exists t :: IsSchedule(x, t) && NeverFilesFalsely(x, t) && !OneVmm(Play(x, t))
  }

  /**
  Exactly what endangers "at most one VMM": after a schedule without a false filing, an action lets
  two VMMs live, without a further false filing, if and only if it files COMPLETE over a live VMM.
  */
  lemma FalseFilingExactly(boot: nat, s: seq<Action>, a: Action)
    requires IsSchedule(Initial(boot), s) && NeverFilesFalsely(Initial(boot), s) && Enabled(Play(Initial(boot), s), a)
    ensures FilesFalsely(Play(Initial(boot), s), a) <==> MayEndWithTwo(Step(Play(Initial(boot), s), a))
  {
    var w := Play(Initial(boot), s);
    LiveVmms.InvInitial(boot);
    LiveVmms.InvAlongSchedule(Initial(boot), s);
    if FilesFalsely(w, a) {
      var t := SecondVmmFollows(w, a.c, a.recovery.outcome);
    } else {
      LiveVmms.StepKeepsInv(w, a);
      forall t | IsSchedule(Step(w, a), t) && NeverFilesFalsely(Step(w, a), t) ensures OneVmm(Play(Step(w, a), t)) {
        LiveVmms.InvAlongSchedule(Step(w, a), t);
      }
    }
  }

  // ---- From an overtaken lock to the second VMM ----------------------------------------------

  /** In a world that RunSafety accounts for, no action but an overtaken lock does any harm. */
  lemma {:induction false} TimelyIsHarmless(w: World, s: seq<Action>)
    requires RunSafety.Inv(w) && IsSchedule(w, s) && IsTimely(w, s)
    ensures NeverFilesFalsely(w, s) && NeverRemovesBlindly(w, s)
    decreases |s|
  {
    if s != [] {
      OverIsHarmless(w, s[0]);
      RunSafety.StepKeepsInv(w, s[0]);
      TimelyIsHarmless(Step(w, s[0]), s[1..]);
    }
  }

  lemma OverIsHarmless(w: World, a: Action)
    requires RunSafety.Inv(w) && Enabled(w, a)
    ensures !FilesFalsely(w, a) && !RemovesBlindly(w, a)
  {
    if a.Recovery? && (a.recovery.RecoveryPublishes? || a.recovery.RecoveryRemovesDisk?) {
      assert RunSafety.RecovererOk(w, w.controllers[a.c]);
    }
  }

  /** The overtaken recovery from the lock until it is about to file its report. */
  function UntilFiling(c: nat): seq<Action> {
    [Recovery(c, RecoveryLocks), Recovery(c, RecoveryDecides), Recovery(c, RecoveryRemovesDisk),
     Recovery(c, RecoveryRemovesDir), Recovery(c, RecoverySaves(Saved))]
  }

  lemma OvertakenUntilFiling(w: World, c: nat) returns (x: World)
    requires IsRecovererAt(w, c, WantLock) && w.lock == None && w.controllers[c].apply
    requires PredatesBoot(w, w.controllers[c].snap)
    ensures Leads(w, UntilFiling(c), x) && x.procs == w.procs
    ensures IsRecovererAt(x, c, RecoverReport) && x.controllers[c].run == w.controllers[c].run
    ensures IsRecoverer(LockDecideRemove(w, c), c)
    ensures x == SaveRecoveredManifest(RemoveRecoveredDir(LockDecideRemove(w, c), c), c, Saved)
  {
    var s := UntilFiling(c);
    LockDecideRemoveIsASchedule(w, c);
    var w3 := LockDecideRemove(w, c);
    WithoutFiling(w, LockAndRemove(c));
    assert s[..3] == LockAndRemove(c);
    var w4 := RemoveRecoveredDir(w3, c);
    x := SaveRecoveredManifest(w4, c, Saved);
    LeadsNext(w, s, 3, w3, w4);
    LeadsNext(w, s, 4, w4, x);
    assert s[..5] == s;
  }

  /** Only a publication files anything. */
  lemma {:induction false} WithoutFiling(w: World, s: seq<Action>)
    requires IsSchedule(w, s) && forall i :: 0 <= i < |s| ==> !(s[i].Recovery? && s[i].recovery.RecoveryPublishes?)
    ensures NeverFilesFalsely(w, s)
    decreases |s|
  {
    if s != [] { WithoutFiling(Step(w, s[0]), s[1..]); }
  }

  /**
  Every schedule that lets an overtaken recovery take the lock can go on to two live VMMs: the
  recovery finishes, returns, and the next run starts.
  */
  lemma UntimelyLockLeadsToTwo(boot: nat, s: seq<Action>, c: nat) returns (t: seq<Action>)
    requires IsSchedule(Initial(boot), s) && IsTimely(Initial(boot), s)
    requires Enabled(Play(Initial(boot), s), Recovery(c, RecoveryLocks))
    requires !Timely(Play(Initial(boot), s), Recovery(c, RecoveryLocks))
    ensures t != [] && t[0] == Recovery(c, RecoveryLocks)
    ensures IsSchedule(Initial(boot), s + t) && !OneVmm(Play(Initial(boot), s + t))
  {
    var w := Play(Initial(boot), s);
    RunSafety.InvInitial(boot);
    TimelyIsHarmless(Initial(boot), s);
    var x := OvertakenUntilFiling(w, c);
    LeadsOn(Initial(boot), s, w, UntilFiling(c), x);
    LiveVmms.InvInitial(boot);
    LiveVmms.InvAlongSchedule(Initial(boot), s + UntilFiling(c));
    var filing := Recovery(c, RecoveryPublishes(Saved));
    var rest := SecondVmmFollows(x, c, Saved);
    PlayStep(x, [filing] + rest, Step(x, filing));
    PlayConcat(w, UntilFiling(c), [filing] + rest);
    PlayConcat(Initial(boot), s, UntilFiling(c) + ([filing] + rest));
    t := UntilFiling(c) + ([filing] + rest);
  }

  // ---- An instance -----------------------------------------------------------------------

  /** Recovery 2 has filed run 7 COMPLETE and returned; VMM 100 of that run lives. */
  function WorldAfterFiling(): World {
    World(0, {Identity(100, 5, 0)}, map[100 := Process(5, Some(7), true)], None, {7},
          map[7 := Manifest(0, Finished, None, Complete)], map[7 := Complete], map[], map[])
  }

  function UntilReturn(): seq<Action> {
    UntilFiling(2) + [Recovery(2, RecoveryPublishes(Saved)), Host(Dying(2))]
  }

  /** What recovery 2 has done when it is about to file. */
  function WorldAtFiling(): World {
    WorldAfterFiling().(lock := Some(2), reports := map[],
                        controllers := map[2 := Recoverer(7, true, RecoverReport, Prepared())])
  }

  lemma PlayUntilFiling()
    ensures Leads(WorldAtCrash(), UntilFiling(2), WorldAtFiling())
  {
    var x := OvertakenUntilFiling(WorldAtCrash(), 2);
    assert x == WorldAtFiling();
  }

  lemma PlayUntilReturn()
    ensures IsSchedule(WorldAtCrash(), UntilReturn()) && Play(WorldAtCrash(), UntilReturn()) == WorldAfterFiling()
  {
    var tail := [Recovery(2, RecoveryPublishes(Saved)), Host(Dying(2))];
    var y := PublishRecoveredReport(WorldAtFiling(), 2, Saved);
    PlayUntilFiling();
    PlayStep(y, tail[1..], WorldAfterFiling());
    PlayStep(WorldAtFiling(), tail, y);
    PlayConcat(WorldAtCrash(), UntilFiling(2), tail);
  }

  lemma PlayFromCrashToSecond() returns (x: World)
    ensures var s := UntilReturn() + NextRun(1, 8, 101, 6);
            IsSchedule(WorldAtCrash(), s) && Play(WorldAtCrash(), s) == x
    ensures x.procs == map[100 := Process(5, Some(7), true), 101 := Process(6, Some(8), true)]
  {
    PlayUntilReturn();
    x := NextRunLaunches(WorldAfterFiling(), 1, 8, 101, 6);
    PlayConcat(WorldAtCrash(), UntilReturn(), NextRun(1, 8, 101, 6));
  }

  /** Processes 100 and 101 are both live VMMs: run 7 lost its disk to recovery 2, and run 8 was admitted. */
  lemma TwoVmmsLive() returns (s: seq<Action>)
    ensures IsSchedule(Initial(0), s)
    ensures IsLive(Play(Initial(0), s).procs, 100) && IsVmm(Play(Initial(0), s).procs, 100, 7)
    ensures IsLive(Play(Initial(0), s).procs, 101) && IsVmm(Play(Initial(0), s).procs, 101, 8)
  {
    PlayUntilLoad();
    PlayFromLoadToCrash();
    var x := PlayFromCrashToSecond();
    var t := UntilReturn() + NextRun(1, 8, 101, 6);
    PlayConcat(WorldAtLoad(), UntilCrash(), t);
    PlayConcat(Initial(0), UntilLoad(), UntilCrash() + t);
    s := UntilLoad() + (UntilCrash() + t);
  }
}
