/**
What `Recover` could still find out under the lock: its loaded manifest and the one now on
disk (internal/engine/recover.go:200, 226). Exactly which pairs of the two rule out a live
VMM, over the worlds that schedules from an empty host reach.
*/
module OvertakenPairs {
  import opened Common
  import opened RunProtocol
  import opened RunSafety
  import opened OvertakenRecovery

  /** Some schedule without an overtaken recovery leads from an empty host to w. */
  ghost predicate Reached(w: World) {
    exists boot, s :: IsSchedule(Initial(boot), s) && IsTimely(Initial(boot), s) && Play(Initial(boot), s) == w
  }

  lemma {:induction false} TimelySnoc(w: World, s: seq<Action>, a: Action)
    requires IsSchedule(w, s) && IsTimely(w, s) && Enabled(Play(w, s), a) && Timely(Play(w, s), a)
    ensures IsSchedule(w, s + [a]) && IsTimely(w, s + [a]) && Play(w, s + [a]) == Step(Play(w, s), a)
    decreases |s|
  {
    if s == [] {
      assert s + [a] == [a] && [a][1..] == [];
    } else {
      TimelySnoc(Step(w, s[0]), s[1..], a);
      assert (s + [a])[1..] == s[1..] + [a];
    }
  }

  lemma ReachedStep(w: World, a: Action, x: World)
    requires Reached(w) && Enabled(w, a) && Timely(w, a) && x == Step(w, a)
    ensures Reached(x)
  {
    var boot, s :| IsSchedule(Initial(boot), s) && IsTimely(Initial(boot), s) && Play(Initial(boot), s) == w;
    TimelySnoc(Initial(boot), s, a);
    assert Play(Initial(boot), s + [a]) == x;
  }

  lemma ReachedIsOk(w: World)
    requires Reached(w)
    ensures Inv(w)
  {
    var boot, s :| IsSchedule(Initial(boot), s) && IsTimely(Initial(boot), s) && Play(Initial(boot), s) == w;
    InvInitial(boot);
    InvAlongSchedule(Initial(boot), s);
  }

  /** Recovery c holds `snap` of a run and could take the lock; the run's manifest is now `m`. */
  ghost predicate HoldsPair(w: World, run: nat, c: nat, snap: Manifest, m: Manifest) {
    && w.lock == None && run in w.manifests && w.manifests[run] == m
    && c in w.controllers && w.controllers[c] == Recoverer(run, true, WantLock, snap)
  }

  /** The manifest does not say that the VMM is gone, or that it never started. */
  predicate MayLive(m: Manifest) {
    m.cleanup == Incomplete && Rank(m.stage) >= Rank(Booting) && (m.process.Some? || m.stage == Booting)
  }

  /** Any other manifest proves that the run is over, so the recovery is safe. */
  lemma OtherPairsAreClear(w: World, run: nat, c: nat, snap: Manifest, m: Manifest)
    requires Inv(w) && HoldsPair(w, run, c, snap, m) && PredatesBoot(w, snap) && !MayLive(m)
    ensures Over(w, run) && Safe(LockDecideRemove(w, c))
  {
    assert ManifestOk(w, run, m);
    assert RecovererOk(w, w.controllers[c]);
    assert CannotLaunch(w, run);
    RecoveryUnsafeExactly(w, c);
  }

  // ---- Reaching every pair that may live -----------------------------------------------

  /** A run d under way, watched by a recovery c that loaded `snap`. */
  datatype Scene = Scene(boot: nat, run: nat, c: nat, d: nat, snap: Manifest)

  ghost predicate Plausible(z: Scene) {
    && z.c != z.d && z.snap.boot == z.boot && z.snap.process == None && z.snap.cleanup == Incomplete
    && Rank(z.snap.stage) < Rank(Booting)
  }

  function Early(z: Scene, m: Manifest, pc: RunPc): Controller {
    Runner(z.run, pc, m, None, false)
  }

  /** Before recovery c has loaded. */
  function Unwatched(z: Scene, m: Manifest, pc: RunPc): World {
    World(z.boot, {}, map[], Some(z.d), {z.run}, map[z.run := m], map[], map[], map[z.d := Early(z, m, pc)])
  }

  function Watched(z: Scene, m: Manifest, runtime: map<nat, bool>, pc: RunPc): World {
    World(z.boot, {}, map[], Some(z.d), {z.run}, map[z.run := m], map[], runtime,
          map[z.d := Early(z, m, pc), z.c := Recoverer(z.run, true, WantLock, z.snap)])
  }

  /** After the launch of the VMM named id. */
  function Launched(z: Scene, id: Identity, m: Manifest, k: Controller): World {
    World(z.boot, {id}, map[id.pid := Process(id.ticks, Some(z.run), true)], Some(z.d), {z.run}, map[z.run := m],
          map[], map[z.run := true], map[z.d := k, z.c := Recoverer(z.run, true, WantLock, z.snap)])
  }

  function At(z: Scene, stage: Stage): Manifest {
    Manifest(z.boot, stage, None, Incomplete)
  }

  lemma ReachAdmitted(z: Scene)
    ensures Reached(Admitted(z))
  {
    var w0 := Initial(z.boot);
    var w1 := w0.(lock := Some(z.d), controllers := map[z.d := Admitting]);
    assert IsSchedule(w0, []) && IsTimely(w0, []) && Play(w0, []) == w0;
    ReachedStep(w0, Run(z.d, RunLocks), w1);
    ReachedStep(w1, Run(z.d, RunAdmits(z.run)), Admitted(z));
  }

  function Admitted(z: Scene): World {
    World(z.boot, {}, map[], Some(z.d), {z.run}, map[], map[], map[],
        map[z.d := Early(z, At(z, Validating), SaveValidating)])
  }

  lemma ReachValidating(z: Scene)
    ensures Reached(Unwatched(z, At(z, Validating), SavePreparing))
  {
    ReachAdmitted(z);
    ReachedStep(Admitted(z), Run(z.d, RunSaves(Saved)), Unwatched(z, At(z, Validating), SavePreparing));
  }

  lemma ReachLoaded(z: Scene, pc: RunPc)
    requires Plausible(z) && z.snap == At(z, z.snap.stage) && Reached(Unwatched(z, z.snap, pc))
    ensures Reached(Watched(z, z.snap, map[], pc))
  {
    ReachedStep(Unwatched(z, z.snap, pc), Recovery(z.c, RecoveryLoads(z.run, true)), Watched(z, z.snap, map[], pc));
  }

  lemma ReachPreparing(z: Scene)
    requires Plausible(z)
    ensures Reached(Watched(z, At(z, Preparing), map[], MakeDir))
  {
    ReachValidating(z);
    if z.snap.stage == Validating {
      ReachLoaded(z, SavePreparing);
      ReachEarlySave(z, At(z, Validating), map[], SavePreparing);
    } else {
      var early, later := Unwatched(z, At(z, Validating), SavePreparing), Unwatched(z, At(z, Preparing), MakeDir);
      ReachedStep(early, Run(z.d, RunSaves(Saved)), later);
      ReachLoaded(z, MakeDir);
    }
  }

  lemma ReachEarlySave(z: Scene, m: Manifest, runtime: map<nat, bool>, pc: RunPc)
    requires z.c != z.d && Reached(Watched(z, m, runtime, pc)) && m.cleanup == Incomplete
    requires pc == SavePreparing || pc == SaveBooting
    ensures Reached(Watched(z, m.(stage := StageAt(pc)), runtime, AfterSave(pc, Saved)))
  {
    ReachedStep(Watched(z, m, runtime, pc), Run(z.d, RunSaves(Saved)),
                Watched(z, m.(stage := StageAt(pc)), runtime, AfterSave(pc, Saved)));
  }

  lemma ReachDir(z: Scene)
    requires Plausible(z)
    ensures Reached(Watched(z, At(z, Preparing), map[z.run := false], CopyDisk))
  {
    ReachPreparing(z);
    ReachedStep(Watched(z, At(z, Preparing), map[], MakeDir), Run(z.d, RunMakesDir),
                Watched(z, At(z, Preparing), map[z.run := false], CopyDisk));
  }

  lemma ReachDisk(z: Scene)
    requires Plausible(z)
    ensures Reached(Watched(z, At(z, Preparing), map[z.run := true], SaveBooting))
  {
    ReachDir(z);
    ReachedStep(Watched(z, At(z, Preparing), map[z.run := false], CopyDisk), Run(z.d, RunCopiesDisk),
                Watched(z, At(z, Preparing), map[z.run := true], SaveBooting));
  }

  lemma ReachLaunched(z: Scene, id: Identity)
    requires Plausible(z) && id.boot == z.boot
    ensures Reached(Launched(z, id, At(z, Booting), Runner(z.run, Spawned, At(z, Booting), Some(id), false)))
  {
    ReachDisk(z);
    ReachEarlySave(z, At(z, Preparing), map[z.run := true], SaveBooting);
    ReachStart(z, id);
  }

  lemma ReachStart(z: Scene, id: Identity)
    requires z.c != z.d && id.boot == z.boot && Reached(Watched(z, At(z, Booting), map[z.run := true], Launch))
    ensures Reached(Launched(z, id, At(z, Booting), Runner(z.run, Spawned, At(z, Booting), Some(id), false)))
  {
    ReachedStep(Watched(z, At(z, Booting), map[z.run := true], Launch), Run(z.d, RunLaunches(id.pid, id.ticks)),
                Launched(z, id, At(z, Booting), Runner(z.run, Spawned, At(z, Booting), Some(id), false)));
  }

  /** One successful save of the running controller. */
  lemma ReachSaved(z: Scene, id: Identity, m: Manifest, k: Controller)
    requires k.Runner? && k.run == z.run && IsSave(k.pc) && z.c != z.d
    requires Reached(Launched(z, id, m, k))
    ensures Reached(Launched(z, id, SavedManifest(k), k.(pc := AfterSave(k.pc, Saved), mem := SavedManifest(k))))
  {
    ReachedStep(Launched(z, id, m, k), Run(z.d, RunSaves(Saved)),
                Launched(z, id, SavedManifest(k), k.(pc := AfterSave(k.pc, Saved), mem := SavedManifest(k))));
  }

  /** The controller as it is once the given stage is persisted with the identity. */
  function Named(z: Scene, id: Identity, stage: Stage): Manifest {
    Manifest(z.boot, stage, Some(id), Incomplete)
  }

  function Past(stage: Stage): RunPc {
    match stage
    case Ready => SaveRunning
    case Running => SaveCollecting
    case Collecting => SaveCleaning
    case Cleaning => StopVmm
    case Finished => PublishReport
    case _ => SaveReady
  }

  function Before(stage: Stage): Stage {
    match stage
    case Finished => Cleaning
    case Cleaning => Collecting
    case Collecting => Running
    case Running => Ready
    case _ => Booting
  }

  function Holding(z: Scene, id: Identity, stage: Stage): Controller {
    Runner(z.run, Past(stage), Named(z, id, stage), Some(id), false)
  }

  lemma ReachNamed(z: Scene, id: Identity)
    requires Plausible(z) && id.boot == z.boot
    ensures Reached(Launched(z, id, Named(z, id, Booting), Holding(z, id, Booting)))
  {
    ReachLaunched(z, id);
    var k := Runner(z.run, Spawned, At(z, Booting), Some(id), false);
    var named := Runner(z.run, SaveIdentity, Named(z, id, Booting), Some(id), false);
    ReachedStep(Launched(z, id, At(z, Booting), k), Run(z.d, RunConfirms), Launched(z, id, At(z, Booting), named));
    ReachSaved(z, id, At(z, Booting), named);
  }

  lemma ReachFailedStop(z: Scene, id: Identity)
    requires z.c != z.d && Reached(Launched(z, id, Named(z, id, Cleaning), Holding(z, id, Cleaning)))
    ensures Reached(Launched(z, id, Named(z, id, Finished), Holding(z, id, Finished)))
  {
    var m, k := Named(z, id, Cleaning), Holding(z, id, Cleaning);
    ReachStopFailed(z, id, m, k);
    SavesFinished(z, id);
    ReachSaved(z, id, m, k.(pc := SaveFinished));
  }

  lemma SavesFinished(z: Scene, id: Identity)
    ensures var k := Runner(z.run, SaveFinished, Named(z, id, Cleaning), Some(id), false);
            && SavedManifest(k) == Named(z, id, Finished)
            && k.(pc := AfterSave(k.pc, Saved), mem := SavedManifest(k)) == Holding(z, id, Finished)
  {
  }

  lemma ReachStopFailed(z: Scene, id: Identity, m: Manifest, k: Controller)
    requires z.c != z.d && k.Runner? && k.pc == StopVmm && k.mem.process.Some? && Reached(Launched(z, id, m, k))
    ensures Reached(Launched(z, id, m, k.(pc := SaveFinished)))
  {
    ReachedStep(Launched(z, id, m, k), Run(z.d, RunStopReturns(false)), Launched(z, id, m, k.(pc := SaveFinished)));
  }

  lemma {:induction false} ReachStage(z: Scene, id: Identity, stage: Stage)
    requires Plausible(z) && id.boot == z.boot && Rank(stage) >= Rank(Booting)
    ensures Reached(Launched(z, id, Named(z, id, stage), Holding(z, id, stage)))
    decreases Rank(stage)
  {
    if stage == Booting {
      ReachNamed(z, id);
    } else {
      ReachStage(z, id, Before(stage));
      if stage == Finished {
        ReachFailedStop(z, id);
      } else {
        ReachNextStage(z, id, stage);
      }
    }
  }

  lemma ReachNextStage(z: Scene, id: Identity, stage: Stage)
    requires z.c != z.d && Rank(Booting) < Rank(stage) < Rank(Finished)
    requires Reached(Launched(z, id, Named(z, id, Before(stage)), Holding(z, id, Before(stage))))
    ensures Reached(Launched(z, id, Named(z, id, stage), Holding(z, id, stage)))
  {
    NextStage(z, id, stage);
    ReachSaved(z, id, Named(z, id, Before(stage)), Holding(z, id, Before(stage)));
  }

  lemma NextStage(z: Scene, id: Identity, stage: Stage)
    requires Rank(Booting) < Rank(stage) < Rank(Finished)
    ensures var k := Holding(z, id, Before(stage));
            && IsSave(k.pc) && SavedManifest(k) == Named(z, id, stage)
            && k.(pc := AfterSave(k.pc, Saved), mem := SavedManifest(k)) == Holding(z, id, stage)
  {
  }

  /** The controller dies and leaves the VMM running. */
  lemma ReachOrphan(z: Scene, id: Identity, m: Manifest, k: Controller)
    requires z.c != z.d && Reached(Launched(z, id, m, k))
    ensures exists w :: Reached(w) && HoldsPair(w, z.run, z.c, z.snap, m) && HasLiveVmm(w, z.run) && w.boot == z.boot
  {
    var w := Launched(z, id, m, k);
    var x := w.(lock := None, controllers := map[z.c := Recoverer(z.run, true, WantLock, z.snap)]);
    ReachedStep(w, Host(Dying(z.d)), x);
    assert IsLive(x.procs, id.pid) && IsVmm(x.procs, id.pid, z.run);
    assert HoldsPair(x, z.run, z.c, z.snap, m);
  }

  /**
  Exactly which pairs leave the question open: a live VMM occurs with a plausible loaded manifest
  and a current one if and only if the current one is INCOMPLETE, at least BOOTING, and names a
  process or still says BOOTING.
  */
  lemma PairIsUnclearExactly(run: nat, c: nat, snap: Manifest, m: Manifest)
    requires snap.boot == m.boot && snap.process == None
    requires Rank(snap.stage) < Rank(Booting) && snap.cleanup == Incomplete
    requires m.process.Some? ==> m.process.value.boot == m.boot
    ensures MayLive(m) <==>
            exists w :: Reached(w) && HoldsPair(w, run, c, snap, m) && HasLiveVmm(w, run) && w.boot == m.boot
  {
    var z := Scene(m.boot, run, c, c + 1, snap);
    if MayLive(m) {
      var id := if m.process.Some? then m.process.value else Identity(1, 1, m.boot);
      if m.process.Some? {
        ReachStage(z, id, m.stage);
        assert m == Named(z, id, m.stage);
        ReachOrphan(z, id, m, Holding(z, id, m.stage));
      } else {
        ReachLaunched(z, id);
        assert m == At(z, Booting);
        ReachOrphan(z, id, m, Runner(run, Spawned, m, Some(id), false));
      }
    }
    forall w | Reached(w) && HoldsPair(w, run, c, snap, m) && HasLiveVmm(w, run) && w.boot == m.boot
      ensures MayLive(m)
    {
      ReachedIsOk(w);
      if !MayLive(m) { OtherPairsAreClear(w, run, c, snap, m); }
    }
  }
}
