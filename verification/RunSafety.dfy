/**
Safety of the run protocol: an inductive invariant over every interleaving, kept by each
durable effect of `run` and `Recover` and by everything the host may do. It rests on the
order of the effects in internal/engine/run.go:171-182 and 289-357 and
internal/engine/recover.go:234-302.
*/
module RunSafety {
  import opened Common
  import opened RunProtocol

  // ---- Inductive invariant --------------------------------------------------

  function IdentityOf(w: World, p: nat): Identity
    requires p in w.procs
  {
    Identity(p, w.procs[p].ticks, w.boot)
  }

  predicate MayLaunch(w: World, c: nat, run: nat) {
    c in w.controllers && w.controllers[c].Runner? && w.controllers[c].run == run && BeforeLaunch(w.controllers[c].pc)
  }

  ghost predicate CannotLaunch(w: World, run: nat) {
    forall c :: c in w.controllers ==> !MayLaunch(w, c, run)
  }

  /** The run has no running VMM and never will have one. */
  ghost predicate Over(w: World, run: nat) {
    && CannotLaunch(w, run)
    && forall p :: IsLive(w.procs, p) ==> !IsVmm(w.procs, p, run)
  }

  /** `id` names the one process of the run, and no other process can carry it. */
  ghost predicate Names(w: World, run: nat, id: Identity) {
    && id in w.used
    && CannotLaunch(w, run)
    && (forall p :: IsVmm(w.procs, p, run) ==> IdentityOf(w, p) == id)
    && (id.boot == w.boot && id.pid in w.procs && w.procs[id.pid].ticks == id.ticks ==> IsVmm(w.procs, id.pid, run))
  }

  ghost predicate RecordOk(w: World, run: nat, m: Manifest) {
    && run in w.manifests && m.boot == w.manifests[run].boot
    && (m.process.Some? ==> m.process.value.boot == m.boot && Names(w, run, m.process.value))
    && (m.cleanup == Complete ==> Over(w, run))
  }

  ghost predicate ProcsOk(w: World) {
    && (forall id :: id in w.used ==> id.boot <= w.boot)
    && (forall p :: p in w.procs ==> IdentityOf(w, p) in w.used)
    && (forall p :: p in w.procs && w.procs[p].vmmOf.Some? ==>
          var r := w.procs[p].vmmOf.value;
          r in w.manifests && w.manifests[r].boot == w.boot && Rank(w.manifests[r].stage) >= Rank(Booting))
    && (forall p, q, r :: IsVmm(w.procs, p, r) && IsVmm(w.procs, q, r) ==> p == q)
  }

  /** A process is recorded from BOOTING on; past BOOTING none means that no VMM ever started. */
  ghost predicate ManifestOk(w: World, r: nat, m: Manifest) {
    && r in w.evidence && m.boot <= w.boot && RecordOk(w, r, m)
    && (m.process.Some? ==> Rank(m.stage) >= Rank(Booting))
    && (m.process.None? && Rank(m.stage) > Rank(Booting) ==> Over(w, r))
  }

  ghost predicate ManifestsOk(w: World) {
    forall r :: r in w.manifests ==> ManifestOk(w, r, w.manifests[r])
  }

  /** The highest stage a controller can hold in memory at each point. */
  function StageBound(pc: RunPc): Stage {
    match pc
    case SaveValidating => Validating
    case SavePreparing => Validating
    case MakeDir => Preparing
    case CopyDisk => Preparing
    case SaveBooting => Preparing
    case Launch => Booting
    case Spawned => Booting
    case SaveIdentity => Booting
    case SaveReady => Booting
    case SaveRunning => Ready
    case SaveCollecting => Running
    case SaveCleaning => Collecting
    case PublishReport => Finished
    case Release => Finished
    case _ => Cleaning
  }

  ghost predicate RunnerOk(w: World, k: Controller)
    requires k.Runner?
  {
    && k.run in w.evidence
    && k.mem.boot == w.boot
    && k.mem.cleanup == (if k.removed && (k.pc == PublishReport || k.pc == Release) then Complete else Incomplete)
    && (k.run in w.manifests ==>
          w.manifests[k.run].boot == w.boot && Rank(w.manifests[k.run].stage) <= Rank(k.mem.stage))
    && Rank(k.mem.stage) <= Rank(StageBound(k.pc))
    && (k.pc != SaveValidating && !InCleanup(k.pc) ==> k.run in w.manifests)
    && (BeforeLaunch(k.pc) ==>
          && k.mem.process == None && !k.removed
          && (forall p :: !IsLive(w.procs, p)) && (forall p :: !IsVmm(w.procs, p, k.run)))
    && (forall p :: IsLive(w.procs, p) ==> IsVmm(w.procs, p, k.run))
    && (k.pc == SaveBooting ==> HasDisk(w, k.run))
    && (k.pc == Launch ==> HasDisk(w, k.run) && Rank(w.manifests[k.run].stage) >= Rank(Booting))
    && (k.pc == Spawned ==>
          && k.mem.process == None && !k.removed && Rank(w.manifests[k.run].stage) >= Rank(Booting)
          && (k.child.Some? ==> k.child.value.boot == w.boot && Names(w, k.run, k.child.value)))
    && (k.mem.process.Some? ==> RecordOk(w, k.run, k.mem) && Rank(w.manifests[k.run].stage) >= Rank(Booting))
    && (!BeforeLaunch(k.pc) && k.pc != Spawned && k.mem.process == None ==> Over(w, k.run))
    && (k.removed || (k.pc == RemoveDisk || k.pc == RemoveDir) ==> Over(w, k.run))
  }

  ghost predicate RecovererOk(w: World, k: Controller)
    requires k.Recoverer?
  {
    && RecordOk(w, k.run, k.snap)
    && (k.rpc == Decide && k.apply && PredatesBoot(w, k.snap) ==> Over(w, k.run))
    && ((k.rpc == RecoverDisk || k.rpc == RecoverDir || k.rpc == RecoverManifest || k.rpc == RecoverReport) ==>
        Over(w, k.run))
  }

  ghost predicate ControllersOk(w: World) {
    && (w.lock.Some? ==> w.lock.value in w.controllers)
    && forall c :: c in w.controllers ==>
         var k := w.controllers[c];
         && (!(k.Recoverer? && k.rpc == WantLock) ==> w.lock == Some(c))
         && (k.Runner? ==> RunnerOk(w, k))
         && (k.Recoverer? ==> RecovererOk(w, k))
  }

  ghost predicate Inv(w: World) {
    Safe(w) && ProcsOk(w) && ManifestsOk(w) && ControllersOk(w)
  }

  lemma InvInitial(boot: nat)
    ensures Inv(Initial(boot))
  {
  }

  // ---- Frame lemmas -----------------------------------------------------------

  /** Nothing between w and x can start run r again or give its identity away. */
  ghost predicate Settled(w: World, x: World, r: nat) {
    && x.boot == w.boot
    && w.used <= x.used
    && (forall p :: p in x.procs ==>
          || (p in w.procs && x.procs[p].ticks == w.procs[p].ticks && x.procs[p].vmmOf == w.procs[p].vmmOf
              && (x.procs[p].running ==> w.procs[p].running))
          || (x.procs[p].vmmOf != Some(r) && IdentityOf(x, p) !in w.used))
    && (CannotLaunch(w, r) ==> CannotLaunch(x, r))
  }

  lemma OverStays(w: World, x: World, r: nat)
    requires Settled(w, x, r) && Over(w, r)
    ensures Over(x, r)
  {
    forall p | IsLive(x.procs, p) ensures !IsVmm(x.procs, p, r) {
      if IsVmm(x.procs, p, r) {
        assert IsLive(w.procs, p) && IsVmm(w.procs, p, r);
      }
    }
  }

  lemma NameStays(w: World, x: World, r: nat, id: Identity)
    requires Settled(w, x, r) && Names(w, r, id)
    ensures Names(x, r, id)
  {
    forall p | IsVmm(x.procs, p, r) ensures IdentityOf(x, p) == id {
      assert IsVmm(w.procs, p, r);
    }
    if id.boot == x.boot && id.pid in x.procs && x.procs[id.pid].ticks == id.ticks {
      assert IdentityOf(x, id.pid) == id;
      assert IsVmm(w.procs, id.pid, r);
    }
  }

  lemma RecordStays(w: World, x: World, r: nat, m: Manifest)
    requires Settled(w, x, r) && RecordOk(w, r, m)
    requires r in x.manifests && x.manifests[r].boot == w.manifests[r].boot
    ensures RecordOk(x, r, m)
  {
    if m.process.Some? { NameStays(w, x, r, m.process.value); }
    if m.cleanup == Complete { OverStays(w, x, r); }
  }

  ghost predicate SameBoots(w: World, x: World) {
    forall r :: r in w.manifests ==> r in x.manifests && x.manifests[r].boot == w.manifests[r].boot
  }

  lemma ManifestStays(w: World, x: World, r: nat)
    requires Inv(w) && r in w.manifests && Settled(w, x, r) && r in x.evidence && x.boot == w.boot
    requires r in x.manifests && x.manifests[r].boot == w.manifests[r].boot
    ensures ManifestOk(x, r, w.manifests[r])
  {
    assert ManifestOk(w, r, w.manifests[r]);
    RecordStays(w, x, r, w.manifests[r]);
    if Over(w, r) { OverStays(w, x, r); }
  }

  lemma ManifestsStay(w: World, x: World)
    requires Inv(w) && x.manifests == w.manifests && w.evidence <= x.evidence && x.boot == w.boot
    requires forall r :: r in w.manifests ==> Settled(w, x, r)
    ensures ManifestsOk(x)
  {
    forall r | r in x.manifests ensures ManifestOk(x, r, x.manifests[r]) {
      assert ManifestOk(w, r, w.manifests[r]);
      ManifestStays(w, x, r);
    }
  }

  /** A step of the lock holder leaves every other controller in order. */
  lemma OthersStay(w: World, x: World, c: nat)
    requires Inv(w) && w.lock == Some(c) && x.lock == Some(c) && c in x.controllers
    requires forall d :: d in x.controllers && d != c ==> d in w.controllers && x.controllers[d] == w.controllers[d]
    requires forall r :: r in w.manifests ==> Settled(w, x, r)
    requires SameBoots(w, x)
    requires x.controllers[c].Runner? ==> RunnerOk(x, x.controllers[c])
    requires x.controllers[c].Recoverer? ==> RecovererOk(x, x.controllers[c])
    ensures ControllersOk(x)
  {
    forall d | d in x.controllers && d != c
      ensures x.controllers[d].Recoverer? && x.controllers[d].rpc == WantLock && RecovererOk(x, x.controllers[d])
    {
      var k := w.controllers[d];
      assert k.Recoverer? && k.rpc == WantLock;
      RecordStays(w, x, k.run, k.snap);
    }
  }

  /** A controller step that leaves the process table alone and opens no new launch. */
  lemma SettledByGoto(w: World, x: World, c: nat)
    requires x.boot == w.boot && x.used == w.used && x.procs == w.procs && c in x.controllers
    requires forall d :: d in x.controllers && d != c ==> d in w.controllers && x.controllers[d] == w.controllers[d]
    requires x.controllers[c].Runner? && BeforeLaunch(x.controllers[c].pc) ==>
               x.controllers[c].run !in w.manifests || MayLaunch(w, c, x.controllers[c].run)
    ensures forall r :: r in w.manifests ==> Settled(w, x, r)
  {
    forall r | r in w.manifests ensures Settled(w, x, r) {
      if CannotLaunch(w, r) {
        forall d | d in x.controllers ensures !MayLaunch(x, d, r) {
          if d != c { assert !MayLaunch(w, d, r); }
        }
      }
    }
  }

  /** A step of the lock holder that starts no process. */
  lemma HolderWrites(w: World, x: World, c: nat)
    requires Inv(w) && w.lock == Some(c) && c in w.controllers && c in x.controllers
    requires x == w.(runtime := x.runtime, reports := x.reports, manifests := x.manifests,
                     controllers := w.controllers[c := x.controllers[c]])
    requires x.controllers[c].Runner? ==> RunnerOk(x, x.controllers[c])
    requires x.controllers[c].Recoverer? ==> RecovererOk(x, x.controllers[c])
    requires x.controllers[c].Runner? && BeforeLaunch(x.controllers[c].pc) ==>
               x.controllers[c].run !in w.manifests || MayLaunch(w, c, x.controllers[c].run)
    requires Safe(x) && ManifestsOk(x) && SameBoots(w, x) && StagesRise(w, x)
    ensures Inv(x)
  {
    SettledByGoto(w, x, c);
    ProcsStay(w, x);
    OthersStay(w, x, c);
  }

  /** ... and writes no manifest. */
  lemma HolderMoves(w: World, x: World, c: nat)
    requires Inv(w) && w.lock == Some(c) && c in w.controllers && c in x.controllers
    requires x == w.(runtime := x.runtime, reports := x.reports, controllers := w.controllers[c := x.controllers[c]])
    requires x.controllers[c].Runner? ==> RunnerOk(x, x.controllers[c])
    requires x.controllers[c].Recoverer? ==> RecovererOk(x, x.controllers[c])
    requires x.controllers[c].Runner? && BeforeLaunch(x.controllers[c].pc) ==> MayLaunch(w, c, x.controllers[c].run)
    requires Safe(x)
    ensures Inv(x)
  {
    SettledByGoto(w, x, c);
    ManifestsStay(w, x);
    HolderWrites(w, x, c);
  }

  ghost predicate StagesRise(w: World, x: World) {
    forall r :: r in w.manifests ==> r in x.manifests && Rank(x.manifests[r].stage) >= Rank(w.manifests[r].stage)
  }

  /** Once the lock holder is past its launch, nobody can launch its run. */
  lemma NoLaunchLeft(w: World, x: World, c: nat)
    requires ControllersOk(w) && w.lock == Some(c) && c in w.controllers && w.controllers[c].Runner?
    requires c in x.controllers && x.controllers == w.controllers[c := x.controllers[c]]
    requires x.controllers[c].Runner? && !BeforeLaunch(x.controllers[c].pc)
    ensures CannotLaunch(x, w.controllers[c].run)
  {
    forall d | d in x.controllers ensures !MayLaunch(x, d, w.controllers[c].run) {
      if d != c { assert d in w.controllers && !w.controllers[d].Runner?; }
    }
  }

  /** Writing later stages into manifests leaves the process facts in place. */
  lemma ProcsStay(w: World, x: World)
    requires ProcsOk(w) && x.procs == w.procs && x.used == w.used && x.boot == w.boot && SameBoots(w, x)
    requires StagesRise(w, x)
    ensures ProcsOk(x)
  {
  }

  lemma KeepsRunLock(w: World, c: nat)
    requires Inv(w) && c !in w.controllers && w.lock == None
    ensures Inv(TakeLockForRun(w, c))
  {
    var x := TakeLockForRun(w, c);
    SettledByGoto(w, x, c);
    ManifestsStay(w, x);
    forall d | d in x.controllers && d != c ensures RecovererOk(x, x.controllers[d]) {
      RecordStays(w, x, w.controllers[d].run, w.controllers[d].snap);
    }
  }

  lemma KeepsAdmit(w: World, c: nat, run: nat)
    requires Inv(w) && c in w.controllers && w.controllers[c].Admitting? && Admissible(w) && run !in w.evidence
    ensures Inv(Admit(w, c, run))
  {
    var x := Admit(w, c, run);
    SettledByGoto(w, x, c);
    ManifestsStay(w, x);
    OthersStay(w, x, c);
  }

  lemma KeepsMakeDir(w: World, c: nat)
    requires Inv(w) && IsRunnerAt(w, c, MakeDir)
    ensures Inv(MakeRuntimeDir(w, c))
  {
    assert RunnerOk(w, w.controllers[c]);
    HolderMoves(w, MakeRuntimeDir(w, c), c);
  }

  lemma KeepsCopy(w: World, c: nat)
    requires Inv(w) && IsRunnerAt(w, c, CopyDisk)
    ensures Inv(CopyPrivateDisk(w, c))
  {
    assert RunnerOk(w, w.controllers[c]);
    HolderMoves(w, CopyPrivateDisk(w, c), c);
  }

  /** A runner that only advances its program counter within cleanup. */
  lemma RunnerAdvances(w: World, x: World, k: Controller, pc: RunPc)
    requires k.Runner? && RunnerOk(w, k) && k.pc != Spawned && InCleanup(pc)
    requires x.boot == w.boot && x.used == w.used && x.procs == w.procs && x.manifests == w.manifests &&
               x.evidence == w.evidence
    requires CannotLaunch(x, k.run)
    requires Rank(StageBound(k.pc)) <= Rank(StageBound(pc))
    requires pc == RemoveDisk || pc == RemoveDir ==> Over(x, k.run)
    requires (pc == PublishReport || pc == Release) == (k.pc == PublishReport || k.pc == Release)
    ensures RunnerOk(x, k.(pc := pc))
  {
    if k.mem.process.Some? {
      assert Names(x, k.run, k.mem.process.value);
    } else {
      assert Over(x, k.run);
    }
  }

  lemma KeepsAbort(w: World, c: nat)
    requires Inv(w) && IsRunner(w, c) && InExecute(w.controllers[c].pc)
    ensures Inv(AbortToCleanup(w, c))
  {
    var x := AbortToCleanup(w, c);
    NoLaunchLeft(w, x, c);
    RunnerAdvances(w, x, w.controllers[c], SaveCleaning);
    HolderMoves(w, x, c);
  }

  // A save call.

  lemma KeepsSave(w: World, c: nat, outcome: SaveOutcome)
    requires Inv(w) && IsRunner(w, c) && IsSave(w.controllers[c].pc)
    ensures Inv(Save(w, c, outcome))
  {
    SaveRaisesStages(w, c, outcome);
    SavedManifestsOk(w, c, outcome);
    RunnerAfterSave(w, c, outcome);
    SaveShape(w, c, outcome);
    HolderWrites(w, Save(w, c, outcome), c);
  }

  lemma SaveShape(w: World, c: nat, outcome: SaveOutcome)
    requires IsRunner(w, c) && IsSave(w.controllers[c].pc)
    ensures var x := Save(w, c, outcome);
            && IsRunner(x, c)
            && x == w.(manifests := x.manifests, controllers := w.controllers[c := x.controllers[c]])
            && (BeforeLaunch(x.controllers[c].pc) ==> MayLaunch(w, c, x.controllers[c].run))
            && (Safe(w) ==> Safe(x))
  {
  }

  lemma SaveRaisesStages(w: World, c: nat, outcome: SaveOutcome)
    requires IsRunner(w, c) && IsSave(w.controllers[c].pc) && RunnerOk(w, w.controllers[c])
    ensures SameBoots(w, Save(w, c, outcome)) && StagesRise(w, Save(w, c, outcome))
  {
  }

  lemma SavedManifestsOk(w: World, c: nat, outcome: SaveOutcome)
    requires Inv(w) && IsRunner(w, c) && IsSave(w.controllers[c].pc)
    ensures ManifestsOk(Save(w, c, outcome))
  {
    var x := Save(w, c, outcome);
    var k := w.controllers[c];
    SaveShape(w, c, outcome);
    SaveRaisesStages(w, c, outcome);
    SettledByGoto(w, x, c);
    forall r | r in x.manifests ensures ManifestOk(x, r, x.manifests[r]) {
      if r != k.run || outcome == Lost {
        assert ManifestOk(w, r, w.manifests[r]);
        ManifestStays(w, x, r);
      } else {
        SavedRecordOk(w, c, outcome);
        SaverIsOk(w, c);
        if k.mem.process.None? && !BeforeLaunch(k.pc) {
          LateWithoutProcess(w, c);
          NoLaunchLeft(w, x, c);
          NoVmmEverStarted(w, c, outcome);
        }
        WrittenManifestOk(w, c, outcome);
      }
    }
  }

  lemma WrittenManifestOk(w: World, c: nat, outcome: SaveOutcome)
    requires IsRunner(w, c) && IsSave(w.controllers[c].pc) && outcome != Lost && SaverOk(w, w.controllers[c])
    requires RecordOk(Save(w, c, outcome), w.controllers[c].run, SavedManifest(w.controllers[c]))
    requires w.controllers[c].mem.process.None? && !BeforeLaunch(w.controllers[c].pc) ==>
               Over(Save(w, c, outcome), w.controllers[c].run)
    ensures var x := Save(w, c, outcome);
            var k := x.controllers[c];
            k.run in x.manifests && ManifestOk(x, k.run, x.manifests[k.run])
  {
  }

  predicate SaverOk(w: World, k: Controller)
    requires k.Runner?
  {
    k.run in w.evidence && k.mem.boot == w.boot && (k.mem.process.Some? ==> !BeforeLaunch(k.pc))
  }

  lemma SaverIsOk(w: World, c: nat)
    requires ControllersOk(w) && IsRunner(w, c)
    ensures SaverOk(w, w.controllers[c])
  {
    assert RunnerOk(w, w.controllers[c]);
  }

  /** A stage past BOOTING is saved without a process only if `start` failed. */
  lemma NoVmmEverStarted(w: World, c: nat, outcome: SaveOutcome)
    requires IsRunner(w, c) && CannotLaunch(Save(w, c, outcome), w.controllers[c].run)
    requires forall p :: IsLive(w.procs, p) ==> !IsVmm(w.procs, p, w.controllers[c].run)
    ensures Over(Save(w, c, outcome), w.controllers[c].run)
  {
  }

  lemma LateWithoutProcess(w: World, c: nat)
    requires ControllersOk(w) && IsRunner(w, c) && IsSave(w.controllers[c].pc)
    requires w.controllers[c].mem.process.None? && !BeforeLaunch(w.controllers[c].pc)
    ensures forall p :: IsLive(w.procs, p) ==> !IsVmm(w.procs, p, w.controllers[c].run)
  {
    assert RunnerOk(w, w.controllers[c]);
  }

  lemma RunnerAfterSave(w: World, c: nat, outcome: SaveOutcome)
    requires Inv(w) && IsRunner(w, c) && IsSave(w.controllers[c].pc)
    ensures RunnerOk(Save(w, c, outcome), Save(w, c, outcome).controllers[c])
  {
    var x := Save(w, c, outcome);
    if BeforeLaunch(x.controllers[c].pc) {
      RunnerSavesEarly(w, c, outcome);
    } else {
      NoLaunchLeft(w, x, c);
      SavedRecordOk(w, c, outcome);
      RunnerSavesLate(w, c, outcome);
    }
  }

  lemma RunnerSavesEarly(w: World, c: nat, outcome: SaveOutcome)
    requires IsRunner(w, c) && IsSave(w.controllers[c].pc) && RunnerOk(w, w.controllers[c])
    requires BeforeLaunch(AfterSave(w.controllers[c].pc, outcome))
    ensures RunnerOk(Save(w, c, outcome), Save(w, c, outcome).controllers[c])
  {
  }

  lemma RunnerSavesLate(w: World, c: nat, outcome: SaveOutcome)
    requires IsRunner(w, c) && IsSave(w.controllers[c].pc) && RunnerOk(w, w.controllers[c])
    requires !BeforeLaunch(AfterSave(w.controllers[c].pc, outcome))
    requires CannotLaunch(Save(w, c, outcome), w.controllers[c].run)
    requires var x := Save(w, c, outcome);
             var k := x.controllers[c];
             (k.run in x.manifests ==> RecordOk(x, k.run, k.mem)) &&
                 (outcome != Lost ==> k.run in x.manifests && x.manifests[k.run] == k.mem)
    ensures RunnerOk(Save(w, c, outcome), Save(w, c, outcome).controllers[c])
  {
  }

  lemma SavedRecordOk(w: World, c: nat, outcome: SaveOutcome)
    requires Inv(w) && IsRunner(w, c) && IsSave(w.controllers[c].pc)
    ensures var x := Save(w, c, outcome);
            var k := x.controllers[c];
            (k.run in x.manifests ==> RecordOk(x, k.run, k.mem))
            && (outcome != Lost ==> k.run in x.manifests && x.manifests[k.run] == k.mem)
  {
    var x := Save(w, c, outcome);
    var k := w.controllers[c];
    assert RunnerOk(w, k);
    if k.run in x.manifests && !BeforeLaunch(k.pc) {
      NoLaunchLeft(w, x, c);
      if k.mem.process.Some? { assert Names(x, k.run, k.mem.process.value); }
    }
  }

  // The launch.

  lemma KeepsLaunch(w: World, c: nat, pid: nat, ticks: nat)
    requires Inv(w) && IsRunnerAt(w, c, Launch) && FreshProcess(w, pid, ticks)
    ensures Inv(LaunchVmm(w, c, pid, ticks))
  {
    var x := LaunchVmm(w, c, pid, ticks);
    var k := w.controllers[c];
    LaunchFacts(w, c, pid, ticks);
    forall r | r in x.manifests ensures RecordOk(x, r, x.manifests[r]) {
      if r != k.run { RecordStays(w, x, r, w.manifests[r]); }
    }
    forall d | d in x.controllers && d != c ensures x.controllers[d].Recoverer? && RecovererOk(x, x.controllers[d]) {
      var j := w.controllers[d];
      assert j.Recoverer? && j.rpc == WantLock;
      if j.run != k.run { RecordStays(w, x, j.run, j.snap); }
    }
    RunnerLaunches(w, c, pid, ticks);
  }

  lemma LaunchedProcs(w: World, c: nat, pid: nat, ticks: nat)
    requires IsRunner(w, c) && pid !in w.procs
    ensures var x := LaunchVmm(w, c, pid, ticks);
            && (forall p :: p != pid ==> IsLive(x.procs, p) == IsLive(w.procs, p))
            && (forall p, r :: p != pid ==> IsVmm(x.procs, p, r) == IsVmm(w.procs, p, r))
  {
  }

  lemma LaunchFacts(w: World, c: nat, pid: nat, ticks: nat)
    requires Inv(w) && IsRunnerAt(w, c, Launch) && FreshProcess(w, pid, ticks)
    ensures var x := LaunchVmm(w, c, pid, ticks);
            var k := w.controllers[c];
            && Safe(x) && ProcsOk(x)
            && RunnerOk(w, k) && CannotLaunch(x, k.run) && !CannotLaunch(w, k.run)
            && (forall r :: r in w.manifests && r != k.run ==> Settled(w, x, r))
  {
    var x := LaunchVmm(w, c, pid, ticks);
    var k := w.controllers[c];
    assert RunnerOk(w, k) && MayLaunch(w, c, k.run);
    NoLaunchLeft(w, x, c);
    LaunchedProcs(w, c, pid, ticks);
    LaunchSettlesOthers(w, c, pid, ticks);
  }

  lemma LaunchSettlesOthers(w: World, c: nat, pid: nat, ticks: nat)
    requires ProcsOk(w) && IsRunnerAt(w, c, Launch) && FreshProcess(w, pid, ticks)
    ensures forall r :: r in w.manifests && r != w.controllers[c].run ==> Settled(w, LaunchVmm(w, c, pid, ticks), r)
  {
    var x := LaunchVmm(w, c, pid, ticks);
    forall r | r in w.manifests && r != w.controllers[c].run ensures Settled(w, x, r) {
      if CannotLaunch(w, r) {
        forall d | d in x.controllers ensures !MayLaunch(x, d, r) { assert !MayLaunch(w, d, r); }
      }
    }
  }

  lemma RunnerLaunches(w: World, c: nat, pid: nat, ticks: nat)
    requires IsRunnerAt(w, c, Launch) && FreshProcess(w, pid, ticks) && RunnerOk(w, w.controllers[c])
    requires CannotLaunch(LaunchVmm(w, c, pid, ticks), w.controllers[c].run)
    ensures RunnerOk(LaunchVmm(w, c, pid, ticks), LaunchVmm(w, c, pid, ticks).controllers[c])
  {
    LaunchedProcs(w, c, pid, ticks);
  }

  lemma KeepsConfirm(w: World, c: nat)
    requires Inv(w) && IsRunnerAt(w, c, Spawned) && w.controllers[c].child.Some?
    ensures Inv(ConfirmLaunch(w, c))
  {
    var x := ConfirmLaunch(w, c);
    NoLaunchLeft(w, x, c);
    RunnerConfirms(w, c);
    HolderMoves(w, x, c);
  }

  lemma RunnerConfirms(w: World, c: nat)
    requires IsRunnerAt(w, c, Spawned) && w.controllers[c].child.Some? && RunnerOk(w, w.controllers[c])
    requires CannotLaunch(ConfirmLaunch(w, c), w.controllers[c].run)
    ensures RunnerOk(ConfirmLaunch(w, c), ConfirmLaunch(w, c).controllers[c])
  {
    var k := w.controllers[c];
    assert Names(ConfirmLaunch(w, c), k.run, k.child.value);
  }

  lemma KeepsLostLaunch(w: World, c: nat)
    requires Inv(w) && IsRunnerAt(w, c, Spawned) && !HasVmm(w, w.controllers[c].run)
    ensures Inv(AbortToCleanup(w, c))
  {
    var x := AbortToCleanup(w, c);
    NoLaunchLeft(w, x, c);
    assert RunnerOk(w, w.controllers[c]);
    HolderMoves(w, x, c);
  }

  // Cleanup of a run.

  lemma KeepsStop(w: World, c: nat, ok: bool)
    requires Inv(w) && IsRunnerAt(w, c, StopVmm) && (ok ==> !HasLiveVmm(w, w.controllers[c].run))
    ensures Inv(StopReturned(w, c, ok))
  {
    var x := StopReturned(w, c, ok);
    NoLaunchLeft(w, x, c);
    RunnerAdvances(w, x, w.controllers[c], x.controllers[c].pc);
    HolderMoves(w, x, c);
  }

  lemma KeepsRemoveDisk(w: World, c: nat)
    requires Inv(w) && IsRunnerAt(w, c, RemoveDisk)
    ensures Inv(RemoveRunDisk(w, c))
  {
    var x := RemoveRunDisk(w, c);
    NoLaunchLeft(w, x, c);
    RunnerAdvances(w, x, w.controllers[c], RemoveDir);
    HolderMoves(w, x, c);
  }

  lemma KeepsRemovalFailed(w: World, c: nat)
    requires Inv(w) && (IsRunnerAt(w, c, RemoveDisk) || IsRunnerAt(w, c, RemoveDir))
    ensures Inv(RemovalFailed(w, c))
  {
    var x := RemovalFailed(w, c);
    NoLaunchLeft(w, x, c);
    RunnerAdvances(w, x, w.controllers[c], SaveFinished);
    HolderMoves(w, x, c);
  }

  lemma KeepsRemoveDir(w: World, c: nat)
    requires Inv(w) && IsRunnerAt(w, c, RemoveDir)
    ensures Inv(RemoveRunDir(w, c))
  {
    var x := RemoveRunDir(w, c);
    NoLaunchLeft(w, x, c);
    RunnerAdvances(w, x, w.controllers[c], SaveFinished);
    HolderMoves(w, x, c);
  }

  lemma KeepsRunReport(w: World, c: nat, outcome: SaveOutcome)
    requires Inv(w) && IsRunnerAt(w, c, PublishReport)
    ensures Inv(PublishRunReport(w, c, outcome))
  {
    var x := PublishRunReport(w, c, outcome);
    assert x == w.(reports := x.reports, controllers := w.controllers[c := w.controllers[c].(pc := Release)]);
    RunnerPublishes(w, c, outcome);
    HolderMoves(w, x, c);
  }

  lemma RunnerPublishes(w: World, c: nat, outcome: SaveOutcome)
    requires ControllersOk(w) && IsRunnerAt(w, c, PublishReport)
    ensures var x := PublishRunReport(w, c, outcome); RunnerOk(x, x.controllers[c])
  {
    var x := PublishRunReport(w, c, outcome);
    assert x == w.(reports := x.reports, controllers := w.controllers[c := w.controllers[c].(pc := Release)]);
    NoLaunchLeft(w, x, c);
    RunnerAdvances(w, x, w.controllers[c], Release);
  }

  /** A controller untouched by a step that starts nothing stays in order. */
  lemma ControllerStays(w: World, x: World, d: nat)
    requires Inv(w) && d in w.controllers && SameBoots(w, x) && x.manifests == w.manifests && x.boot == w.boot
    requires x.evidence == w.evidence && x.runtime == w.runtime && d in x.controllers &&
               x.controllers[d] == w.controllers[d]
    requires forall r :: Settled(w, x, r)
    requires forall p :: IsLive(x.procs, p) ==> IsLive(w.procs, p) && x.procs[p].vmmOf == w.procs[p].vmmOf
    requires forall p, r :: IsVmm(x.procs, p, r) ==> IsVmm(w.procs, p, r)
    ensures x.controllers[d].Runner? ==> RunnerOk(x, x.controllers[d])
    ensures x.controllers[d].Recoverer? ==> RecovererOk(x, x.controllers[d])
  {
    var k := w.controllers[d];
    if k.Recoverer? {
      RecordStays(w, x, k.run, k.snap);
      if Over(w, k.run) { OverStays(w, x, k.run); }
    } else if k.Runner? {
      assert RunnerOk(w, k);
      if k.mem.process.Some? { RecordStays(w, x, k.run, k.mem); }
      if k.child.Some? && k.pc == Spawned { NameStays(w, x, k.run, k.child.value); }
      if Over(w, k.run) { OverStays(w, x, k.run); }
    }
  }

  lemma SettledByRecoverer(w: World, x: World)
    requires x.boot == w.boot && x.used == w.used && x.procs == w.procs
    requires forall d :: d in x.controllers && x.controllers[d].Runner? ==>
               d in w.controllers && x.controllers[d] == w.controllers[d]
    ensures forall r :: Settled(w, x, r)
  {
    forall r ensures Settled(w, x, r) {
      if CannotLaunch(w, r) {
        forall d | d in x.controllers ensures !MayLaunch(x, d, r) {
          if MayLaunch(x, d, r) { assert MayLaunch(w, d, r); }
        }
      }
    }
  }

  lemma KeepsLoad(w: World, c: nat, run: nat, apply: bool)
    requires Inv(w) && c !in w.controllers && run in w.manifests
    ensures Inv(LoadForRecovery(w, c, run, apply))
  {
    var x := LoadForRecovery(w, c, run, apply);
    SettledByRecoverer(w, x);
    ManifestsStay(w, x);
    forall d | d in x.controllers && d != c
      ensures (x.controllers[d].Runner? ==> RunnerOk(x, x.controllers[d])) &&
                (x.controllers[d].Recoverer? ==> RecovererOk(x, x.controllers[d]))
    {
      ControllerStays(w, x, d);
    }
    assert RecovererOk(x, x.controllers[c]);
  }

  lemma KeepsRecoveryLock(w: World, c: nat)
    requires Inv(w) && IsRecovererAt(w, c, WantLock) && w.lock == None && !Overtaken(w, c)
    ensures Inv(TakeLockForRecovery(w, c))
  {
    var x := TakeLockForRecovery(w, c);
    SettledByRecoverer(w, x);
    ManifestsStay(w, x);
    ProcsStay(w, x);
    RecoverersStay(w, x, c);
    TimelySnapshot(w, x, c);
    OneHolder(x, c);
  }

  lemma RecoverersStay(w: World, x: World, c: nat)
    requires Inv(w) && IsRecovererAt(w, c, WantLock) && w.lock == None && x == TakeLockForRecovery(w, c)
    requires forall r :: Settled(w, x, r)
    ensures RecordOk(x, w.controllers[c].run, w.controllers[c].snap)
    ensures forall d :: d in x.controllers && d != c ==>
              IsRecovererAt(x, d, WantLock) && RecovererOk(x, x.controllers[d])
  {
    forall d | d in x.controllers ensures RecordOk(x, w.controllers[d].run, w.controllers[d].snap) {
      assert w.controllers[d].Recoverer? && w.controllers[d].rpc == WantLock;
      RecordStays(w, x, w.controllers[d].run, w.controllers[d].snap);
    }
  }

  /** One recovery holds the lock, and all others wait for it. */
  lemma OneHolder(x: World, c: nat)
    requires x.lock == Some(c) && IsRecoverer(x, c) && RecovererOk(x, x.controllers[c])
    requires forall d :: d in x.controllers && d != c ==>
               IsRecovererAt(x, d, WantLock) && RecovererOk(x, x.controllers[d])
    ensures ControllersOk(x)
  {
  }

  /** With the lock free, a snapshot that is not overtaken tells whether a VMM can exist. */
  lemma TimelySnapshot(w: World, x: World, c: nat)
    requires Inv(w) && IsRecovererAt(w, c, WantLock) && w.lock == None && !Overtaken(w, c)
    requires x.procs == w.procs && x.boot == w.boot && forall r :: Settled(w, x, r)
    ensures w.controllers[c].apply && PredatesBoot(w, w.controllers[c].snap) ==> Over(x, w.controllers[c].run)
  {
    var k := w.controllers[c];
    if k.apply && PredatesBoot(w, k.snap) {
      assert Over(w, k.run);
      OverStays(w, x, k.run);
    }
  }

  lemma DecidedOver(w: World, k: Controller)
    requires Inv(w) && k.Recoverer? && RecovererOk(w, k)
    ensures k.rpc == Decide && k.apply && Decision(w, k.snap) == RecoverDisk ==> Over(w, k.run)
    ensures k.snap.process.Some? && Inspect(w, k.snap.process.value) == Gone ==> Over(w, k.run)
  {
  }

  lemma RecovererMoves(w: World, x: World, c: nat, pc: RecoverPc)
    requires IsRecoverer(w, c) && RecovererOk(w, w.controllers[c])
    requires x == w.(runtime := x.runtime, reports := x.reports,
                     controllers := w.controllers[c := w.controllers[c].(rpc := pc)])
    requires pc != Decide && pc != WantLock
    requires Over(w, w.controllers[c].run) || pc == Stopping || pc == Done
    ensures RecovererOk(x, x.controllers[c])
  {
    var k := w.controllers[c];
    SettledByRecoverer(w, x);
    RecordStays(w, x, k.run, k.snap);
    if Over(w, k.run) { OverStays(w, x, k.run); }
  }

  lemma KeepsMoveRecovery(w: World, c: nat, pc: RecoverPc)
    requires Inv(w) && IsRecoverer(w, c) && w.controllers[c].rpc != WantLock
    requires pc != Decide && pc != WantLock
    requires Over(w, w.controllers[c].run) || pc == Stopping || pc == Done
    ensures Inv(MoveRecovery(w, c, pc))
  {
    RecovererMoves(w, MoveRecovery(w, c, pc), c, pc);
    HolderMoves(w, MoveRecovery(w, c, pc), c);
  }

  lemma KeepsDecide(w: World, c: nat)
    requires Inv(w) && IsRecovererAt(w, c, Decide)
    ensures Inv(MoveRecovery(w, c, DecideNext(w, c)))
  {
    DecidedOver(w, w.controllers[c]);
    KeepsMoveRecovery(w, c, DecideNext(w, c));
  }

  lemma KeepsStopReturn(w: World, c: nat)
    requires Inv(w) && IsRecovererAt(w, c, Stopping) && w.controllers[c].snap.process.Some?
    ensures Inv(MoveRecovery(w, c, AfterStopOwned(w, c)))
  {
    DecidedOver(w, w.controllers[c]);
    KeepsMoveRecovery(w, c, AfterStopOwned(w, c));
  }

  lemma KeepsRecoverDisk(w: World, c: nat)
    requires Inv(w) && IsRecovererAt(w, c, RecoverDisk)
    ensures Inv(RemoveRecoveredDisk(w, c))
  {
    RecovererMoves(w, RemoveRecoveredDisk(w, c), c, RecoverDir);
    HolderMoves(w, RemoveRecoveredDisk(w, c), c);
  }

  lemma KeepsRecoverDir(w: World, c: nat)
    requires Inv(w) && IsRecovererAt(w, c, RecoverDir)
    ensures Inv(RemoveRecoveredDir(w, c))
  {
    RecovererMoves(w, RemoveRecoveredDir(w, c), c, RecoverManifest);
    HolderMoves(w, RemoveRecoveredDir(w, c), c);
  }

  lemma KeepsRecoveredReport(w: World, c: nat, outcome: SaveOutcome)
    requires Inv(w) && IsRecovererAt(w, c, RecoverReport)
    ensures Inv(PublishRecoveredReport(w, c, outcome))
  {
    RecovererMoves(w, PublishRecoveredReport(w, c, outcome), c, Done);
    HolderMoves(w, PublishRecoveredReport(w, c, outcome), c);
  }

  lemma KeepsRecoveredManifest(w: World, c: nat, outcome: SaveOutcome)
    requires Inv(w) && IsRecovererAt(w, c, RecoverManifest)
    ensures Inv(SaveRecoveredManifest(w, c, outcome))
  {
    var x := SaveRecoveredManifest(w, c, outcome);
    SettledByRecoverer(w, x);
    RecoveredRecordsOk(w, c, outcome);
    HolderWrites(w, x, c);
  }

  lemma RecoveredRecordsOk(w: World, c: nat, outcome: SaveOutcome)
    requires Inv(w) && IsRecovererAt(w, c, RecoverManifest)
    requires forall r :: Settled(w, SaveRecoveredManifest(w, c, outcome), r)
    ensures var x := SaveRecoveredManifest(w, c, outcome);
            ManifestsOk(x) && SameBoots(w, x) && StagesRise(w, x) && RecovererOk(x, x.controllers[c])
  {
    var x := SaveRecoveredManifest(w, c, outcome);
    var k := w.controllers[c];
    OverStays(w, x, k.run);
    RecordStays(w, x, k.run, k.snap);
    assert ManifestOk(w, k.run, w.manifests[k.run]);
    forall r | r in x.manifests ensures ManifestOk(x, r, x.manifests[r]) {
      if r != k.run || outcome == Lost {
        assert ManifestOk(w, r, w.manifests[r]);
        ManifestStays(w, x, r);
      }
    }
  }

  // The host.

  /** A process table that only lost processes or gained strangers. */
  ghost predicate QuieterHost(w: World, x: World) {
    && x == w.(procs := x.procs, used := x.used)
    && (forall r :: Settled(w, x, r))
    && (forall p :: p in x.procs ==> IdentityOf(x, p) in x.used)
    && (forall id :: id in x.used ==> id.boot <= x.boot)
    && (forall p :: IsLive(x.procs, p) ==> IsLive(w.procs, p) && x.procs[p].vmmOf == w.procs[p].vmmOf)
    && (forall p, r :: IsVmm(x.procs, p, r) ==> IsVmm(w.procs, p, r))
  }

  lemma KeepsQuieterHost(w: World, x: World)
    requires Inv(w) && QuieterHost(w, x)
    ensures Inv(x)
  {
    ManifestsStay(w, x);
    forall p | p in x.procs && x.procs[p].vmmOf.Some? ensures IsVmm(w.procs, p, x.procs[p].vmmOf.value) {
      assert IsVmm(x.procs, p, x.procs[p].vmmOf.value);
    }
    forall d | d in x.controllers
      ensures (x.controllers[d].Runner? ==> RunnerOk(x, x.controllers[d])) &&
                (x.controllers[d].Recoverer? ==> RecovererOk(x, x.controllers[d]))
    {
      ControllerStays(w, x, d);
    }
  }

  lemma ExitIsQuiet(w: World, pid: nat)
    requires ProcsOk(w) && pid in w.procs
    ensures QuieterHost(w, ProcessExits(w, pid))
  {
  }

  lemma ReapIsQuiet(w: World, pid: nat)
    requires ProcsOk(w) && pid in w.procs
    ensures QuieterHost(w, ProcessReaped(w, pid))
  {
  }

  lemma StrangerIsQuiet(w: World, pid: nat, ticks: nat)
    requires ProcsOk(w) && FreshProcess(w, pid, ticks)
    ensures QuieterHost(w, StrangerStarts(w, pid, ticks))
  {
  }

  lemma KeepsControllerDies(w: World, c: nat)
    requires Inv(w) && c in w.controllers
    ensures Inv(ControllerDies(w, c))
  {
    var x := ControllerDies(w, c);
    SettledByRecoverer(w, x);
    ManifestsStay(w, x);
    forall d | d in x.controllers
      ensures (x.controllers[d].Runner? ==> RunnerOk(x, x.controllers[d])) &&
                (x.controllers[d].Recoverer? ==> RecovererOk(x, x.controllers[d]))
    {
      ControllerStays(w, x, d);
    }
  }

  lemma KeepsReboot(w: World, kept: set<nat>)
    requires Inv(w)
    ensures Inv(Reboot(w, kept))
  {
  }

  // ---- Theorems ---------------------------------------------------------------

  lemma HostKeepsInv(w: World, e: HostEvent)
    requires Inv(w) && HostEnabled(w, e)
    ensures Inv(HostStep(w, e))
  {
    match e
    case Rebooting(kept) => KeepsReboot(w, kept);
    case StrangerStarting(pid, ticks) => StrangerIsQuiet(w, pid, ticks); KeepsQuieterHost(w, HostStep(w, e));
    case Exiting(pid) => ExitIsQuiet(w, pid); KeepsQuieterHost(w, HostStep(w, e));
    case Reaping(pid) => ReapIsQuiet(w, pid); KeepsQuieterHost(w, HostStep(w, e));
    case Dying(c) => KeepsControllerDies(w, c);
  }

  lemma RunKeepsInv(w: World, c: nat, e: RunEvent)
    requires Inv(w) && RunEnabled(w, c, e)
    ensures Inv(RunStep(w, c, e))
  {
    match e
    case RunLocks => KeepsRunLock(w, c);
    case RunAdmits(run) => KeepsAdmit(w, c, run);
    case RunSaves(outcome) => KeepsSave(w, c, outcome);
    case RunMakesDir => KeepsMakeDir(w, c);
    case RunCopiesDisk => KeepsCopy(w, c);
    case RunAborts => KeepsAbort(w, c);
    case RunLaunches(pid, ticks) => KeepsLaunch(w, c, pid, ticks);
    case RunConfirms => KeepsConfirm(w, c);
    case RunLosesLaunch => KeepsLostLaunch(w, c);
    case RunStopReturns(ok) => KeepsStop(w, c, ok);
    case RunRemovesDisk => KeepsRemoveDisk(w, c);
    case RunRemovesDir => KeepsRemoveDir(w, c);
    case RunRemovalFails => KeepsRemovalFailed(w, c);
    case RunPublishes(outcome) => KeepsRunReport(w, c, outcome);
  }

  lemma RecoveryKeepsInv(w: World, c: nat, e: RecoveryEvent)
    requires Inv(w) && RecoveryEnabled(w, c, e) && Timely(w, Recovery(c, e))
    ensures Inv(RecoveryStep(w, c, e))
  {
    match e
    case RecoveryLoads(run, apply) => KeepsLoad(w, c, run, apply);
    case RecoveryLocks => KeepsRecoveryLock(w, c);
    case RecoveryDecides => KeepsDecide(w, c);
    case RecoveryStopReturns => KeepsStopReturn(w, c);
    case RecoveryRemovesDisk => KeepsRecoverDisk(w, c);
    case RecoveryRemovesDir => KeepsRecoverDir(w, c);
    case RecoverySaves(outcome) => KeepsRecoveredManifest(w, c, outcome);
    case RecoveryPublishes(outcome) => KeepsRecoveredReport(w, c, outcome);
    case RecoveryGivesUp => KeepsMoveRecovery(w, c, Done);
  }

  lemma StepKeepsInv(w: World, a: Action)
    requires Inv(w) && Enabled(w, a) && Timely(w, a)
    ensures Inv(Step(w, a))
  {
    match a
    case Host(e) => HostKeepsInv(w, e);
    case Run(c, e) => RunKeepsInv(w, c, e);
    case Recovery(c, e) => RecoveryKeepsInv(w, c, e);
  }

  lemma {:induction false} InvAlongSchedule(w: World, actions: seq<Action>)
    requires Inv(w) && IsSchedule(w, actions) && IsTimely(w, actions)
    ensures Inv(Play(w, actions))
    decreases |actions|
  {
    if actions != [] {
      StepKeepsInv(w, actions[0]);
      InvAlongSchedule(Step(w, actions[0]), actions[1..]);
    }
  }

  /**
  What a recovery could check when it takes the lock is enough: over every interleaving of runs,
  recoveries, crashes, reboots and PID reuse on which no applied recovery locks when overtaken,
  at most one VMM runs and no running VMM has lost its disk.
  */
  lemma {:induction false} TimelyRecoveriesAreSafe(boot: nat, actions: seq<Action>)
    requires IsSchedule(Initial(boot), actions) && IsTimely(Initial(boot), actions)
    ensures Safe(Play(Initial(boot), actions))
  {
    InvInitial(boot);
    InvAlongSchedule(Initial(boot), actions);
  }

  lemma OnlySavesWriteManifests(w: World, c: nat, e: RunEvent)
    requires RunEnabled(w, c, e) && !e.RunSaves?
    ensures RunStep(w, c, e).manifests == w.manifests
  {
  }

  lemma RunStagesRise(w: World, c: nat, e: RunEvent)
    requires ControllersOk(w) && RunEnabled(w, c, e)
    ensures StagesRise(w, RunStep(w, c, e))
  {
    if e.RunSaves? {
      SaveRaisesStages(w, c, e.outcome);
    } else {
      OnlySavesWriteManifests(w, c, e);
    }
  }

  lemma RecoveryStagesRise(w: World, c: nat, e: RecoveryEvent)
    requires RecoveryEnabled(w, c, e)
    ensures StagesRise(w, RecoveryStep(w, c, e))
  {
  }

  /** The persisted stage of a run never falls, whoever writes the manifest. */
  lemma StageNeverFalls(w: World, a: Action)
    requires Inv(w) && Enabled(w, a)
    ensures StagesRise(w, Step(w, a))
  {
    match a
    case Host(e) =>
    case Run(c, e) => RunStagesRise(w, c, e);
    case Recovery(c, e) => RecoveryStagesRise(w, c, e);
  }

  /** A recovery that goes on to signal has verified the run's own VMM. */
  lemma RecoveryStopsOnlyItsVmm(w: World, c: nat)
    requires Inv(w) && IsRecovererAt(w, c, Decide) && w.controllers[c].apply
    requires Decision(w, w.controllers[c].snap) == Stopping
    ensures w.controllers[c].snap.process.Some?
    ensures IsLive(w.procs, w.controllers[c].snap.process.value.pid)
    ensures IsVmm(w.procs, w.controllers[c].snap.process.value.pid, w.controllers[c].run)
  {
    assert RecovererOk(w, w.controllers[c]);
  }
}
