/**
How many VMMs live, and what they live on, over every schedule, overtaken recoveries
included. It rests on less than RunSafety: the operator lock, the order of `admit`, `start`
and the confirmed stop in a run (internal/engine/run.go:76-81, 171-182, 336-357), and what a
recovery removes and files (internal/engine/recover.go:268-302). Two exact conditions: a
second VMM needs a recovery that files COMPLETE over a live one, and a lost disk needs a
recovery that removes it under a live one.
*/
module LiveVmms {
  import opened Common
  import opened RunProtocol

  ghost predicate OneVmm(w: World) {
    forall p, q :: IsLive(w.procs, p) && IsLive(w.procs, q) ==> p == q
  }

  ghost predicate DisksKept(w: World) {
    forall p :: IsLive(w.procs, p) ==> HasDisk(w, w.procs[p].vmmOf.value)
  }

  ghost predicate NoneLive(w: World) {
    forall p :: !IsLive(w.procs, p)
  }

  /** A recovery reports its run COMPLETE although the run's VMM lives. */
  predicate FilesFalsely(w: World, a: Action) {
    && a.Recovery? && a.recovery.RecoveryPublishes? && a.recovery.outcome != Lost
    && IsRecoverer(w, a.c) && HasLiveVmm(w, w.controllers[a.c].run)
  }

  /** A recovery removes its run's disk although the run's VMM lives. */
  predicate RemovesBlindly(w: World, a: Action) {
    && a.Recovery? && a.recovery.RecoveryRemovesDisk?
    && IsRecoverer(w, a.c) && HasLiveVmm(w, w.controllers[a.c].run)
  }

  ghost predicate NeverFilesFalsely(w: World, s: seq<Action>)
    requires IsSchedule(w, s)
    decreases |s|
  {
    s == [] || (!FilesFalsely(w, s[0]) && NeverFilesFalsely(Step(w, s[0]), s[1..]))
  }

  ghost predicate NeverRemovesBlindly(w: World, s: seq<Action>)
    requires IsSchedule(w, s)
    decreases |s|
  {
    s == [] || (!RemovesBlindly(w, s[0]) && NeverRemovesBlindly(Step(w, s[0]), s[1..]))
  }

  /** Safe now and after every action. */
  ghost predicate SafeThroughout(w: World, s: seq<Action>)
    requires IsSchedule(w, s)
    decreases |s|
  {
    Safe(w) && (s == [] || SafeThroughout(Step(w, s[0]), s[1..]))
  }

  // ---- The invariant behind one VMM ----------------------------------------------------

  /** All runs but r are COMPLETE, and no other run has a runtime directory. */
  ghost predicate Alone(w: World, r: nat) {
    && r in w.evidence
    && (forall o :: o in w.evidence && o != r ==> o in w.reports && w.reports[o] == Complete)
    && (forall o :: o in w.runtime ==> o == r)
  }

  ghost predicate LiveOk(w: World) {
    && OneVmm(w)
    && (forall p :: IsLive(w.procs, p) ==>
          var r := w.procs[p].vmmOf.value;
          Alone(w, r) && !(r in w.reports && w.reports[r] == Complete))
  }

  /** The runner has not launched, or knows that what it launched is dead. */
  predicate Quiet(k: Controller)
    requires k.Runner?
  {
    || BeforeLaunch(k.pc) || k.removed || k.pc == RemoveDisk || k.pc == RemoveDir
    || (k.pc != Spawned && k.mem.process == None)
  }

  ghost predicate RunnerOk(w: World, k: Controller)
    requires k.Runner?
  {
    && Alone(w, k.run)
    && (k.pc != Release ==> k.run !in w.reports)
    && (BeforeLaunch(k.pc) || k.pc == Spawned ==> !k.removed)
    && (Quiet(k) ==> NoneLive(w))
    && (forall p :: IsLive(w.procs, p) ==> IsVmm(w.procs, p, k.run))
  }

  ghost predicate RecovererOk(w: World, k: Controller)
    requires k.Recoverer?
  {
    k.run in w.evidence && (k.rpc == RecoverManifest || k.rpc == RecoverReport ==> k.run !in w.runtime)
  }

  ghost predicate ControllersOk(w: World) {
    forall c :: c in w.controllers ==>
      var k := w.controllers[c];
      && (!(k.Recoverer? && k.rpc == WantLock) ==> w.lock == Some(c))
      && (k.Runner? ==> RunnerOk(w, k))
      && (k.Recoverer? ==> RecovererOk(w, k))
  }

  ghost predicate Inv(w: World) {
    LiveOk(w) && ControllersOk(w) && w.reports.Keys <= w.evidence && w.manifests.Keys <= w.evidence
  }

  lemma InvInitial(boot: nat)
    ensures Inv(Initial(boot)) && DiskInv(Initial(boot))
  {
  }

  // ---- Frame -----------------------------------------------------------------------------

  /** A step that starts nothing, adds no run and no directory, and takes no report back. */
  ghost predicate Calm(w: World, x: World) {
    && x.evidence == w.evidence && x.runtime.Keys <= w.runtime.Keys && w.reports.Keys <= x.reports.Keys <= x.evidence
    && x.manifests.Keys <= x.evidence
    && (forall r :: r in w.reports && w.reports[r] == Complete ==> x.reports[r] == Complete)
    && (forall p :: IsLive(x.procs, p) ==> IsLive(w.procs, p) && x.procs[p].vmmOf == w.procs[p].vmmOf)
  }

  lemma AloneStays(w: World, x: World, r: nat)
    requires Alone(w, r) && Calm(w, x)
    ensures Alone(x, r)
  {
  }

  /** ... keeps the live VMMs in order, if it completes no run that has one. */
  lemma LiveStays(w: World, x: World)
    requires LiveOk(w) && Calm(w, x)
    requires forall p :: IsLive(x.procs, p) ==>
               var r := x.procs[p].vmmOf.value; r in x.reports && x.reports[r] == Complete ==>
                 r in w.reports && w.reports[r] == Complete
    ensures LiveOk(x)
  {
    forall p | IsLive(x.procs, p) ensures Alone(x, x.procs[p].vmmOf.value) {
      AloneStays(w, x, w.procs[p].vmmOf.value);
    }
  }

  lemma RunnerStays(w: World, x: World, k: Controller)
    requires k.Runner? && RunnerOk(w, k) && Calm(w, x) && x.reports == w.reports
    ensures RunnerOk(x, k)
  {
    AloneStays(w, x, k.run);
  }

  /** A calm step of the lock holder c, who is in order after it. */
  lemma HolderStays(w: World, x: World, c: nat)
    requires Inv(w) && Calm(w, x) && LiveOk(x) && w.lock == Some(c) && x.lock == Some(c)
    requires c in w.controllers && x.controllers.Keys == w.controllers.Keys
    requires forall d :: d in x.controllers && d != c ==> x.controllers[d] == w.controllers[d]
    requires x.controllers[c].Runner? ==> RunnerOk(x, x.controllers[c])
    requires x.controllers[c].Recoverer? ==> RecovererOk(x, x.controllers[c])
    ensures Inv(x)
  {
    forall d | d in x.controllers && d != c ensures x.controllers[d].Recoverer? && x.controllers[d].rpc == WantLock {
      assert w.lock != Some(d);
    }
  }

  // ---- The host --------------------------------------------------------------------------

  lemma HostKeepsInv(w: World, e: HostEvent)
    requires Inv(w) && HostEnabled(w, e)
    ensures Inv(HostStep(w, e))
  {
    var x := HostStep(w, e);
    if !e.Rebooting? {
      assert Calm(w, x);
      LiveStays(w, x);
      forall c | c in x.controllers && x.controllers[c].Runner? ensures RunnerOk(x, x.controllers[c]) {
        RunnerStays(w, x, w.controllers[c]);
      }
    }
  }

  // ---- Recoveries ------------------------------------------------------------------------

  lemma RecoveryWaitsKeepsInv(w: World, c: nat, e: RecoveryEvent)
    requires Inv(w) && RecoveryEnabled(w, c, e) && (e.RecoveryLoads? || e.RecoveryLocks?)
    ensures Inv(RecoveryStep(w, c, e))
  {
    var x := RecoveryStep(w, c, e);
    LiveStays(w, x);
    forall d | d in x.controllers && x.controllers[d].Runner? ensures RunnerOk(x, x.controllers[d]) {
      RunnerStays(w, x, w.controllers[d]);
    }
  }

  lemma RecoveryHoldsKeepsInv(w: World, c: nat, e: RecoveryEvent)
    requires Inv(w) && RecoveryEnabled(w, c, e) && !e.RecoveryLoads? && !e.RecoveryLocks? && !e.RecoveryPublishes?
    ensures Inv(RecoveryStep(w, c, e))
  {
    var x := RecoveryStep(w, c, e);
    assert Calm(w, x);
    LiveStays(w, x);
    HolderStays(w, x, c);
  }

  lemma PublicationKeepsInv(w: World, c: nat, outcome: SaveOutcome)
    requires Inv(w) && IsRecovererAt(w, c, RecoverReport)
    requires outcome != Lost ==> !HasLiveVmm(w, w.controllers[c].run)
    ensures Inv(PublishRecoveredReport(w, c, outcome))
  {
    var x := PublishRecoveredReport(w, c, outcome);
    forall p | IsLive(x.procs, p) && outcome != Lost ensures x.procs[p].vmmOf.value != w.controllers[c].run {
      assert IsVmm(w.procs, p, x.procs[p].vmmOf.value);
    }
    LiveStays(w, x);
    HolderStays(w, x, c);
  }

  lemma RecoveryKeepsInv(w: World, c: nat, e: RecoveryEvent)
    requires Inv(w) && RecoveryEnabled(w, c, e) && !FilesFalsely(w, Recovery(c, e))
    ensures Inv(RecoveryStep(w, c, e))
  {
    if e.RecoveryLoads? || e.RecoveryLocks? {
      RecoveryWaitsKeepsInv(w, c, e);
    } else if e.RecoveryPublishes? {
      PublicationKeepsInv(w, c, e.outcome);
    } else {
      RecoveryHoldsKeepsInv(w, c, e);
    }
  }

  // ---- Runs ------------------------------------------------------------------------------

  lemma RunLockKeepsInv(w: World, c: nat)
    requires Inv(w) && RunEnabled(w, c, RunLocks)
    ensures Inv(TakeLockForRun(w, c))
  {
    var x := TakeLockForRun(w, c);
    LiveStays(w, x);
    forall d | d in w.controllers ensures !w.controllers[d].Runner? { assert w.lock != Some(d); }
  }

  /** `admit` lets nobody in while a VMM lives: its run is not COMPLETE. */
  lemma AdmittedAlone(w: World)
    requires LiveOk(w) && Admissible(w)
    ensures NoneLive(w)
  {
    assert forall p :: IsLive(w.procs, p) ==> w.procs[p].vmmOf.value in w.evidence;
  }

  lemma AdmitKeepsInv(w: World, c: nat, run: nat)
    requires Inv(w) && RunEnabled(w, c, RunAdmits(run))
    ensures Inv(Admit(w, c, run))
  {
    var x := Admit(w, c, run);
    AdmittedAlone(w);
    assert NoneLive(x);
    forall d | d in x.controllers && d != c ensures x.controllers[d].Recoverer? && x.controllers[d].rpc == WantLock {
      assert w.lock != Some(d);
    }
  }

  lemma LaunchKeepsInv(w: World, c: nat, pid: nat, ticks: nat)
    requires Inv(w) && RunEnabled(w, c, RunLaunches(pid, ticks))
    ensures Inv(LaunchVmm(w, c, pid, ticks))
  {
    var x, k := LaunchVmm(w, c, pid, ticks), w.controllers[c];
    assert RunnerOk(w, k);
    forall p | IsLive(x.procs, p) ensures p == pid { assert !IsLive(w.procs, p); }
    assert Alone(x, k.run);
    forall d | d in x.controllers && d != c ensures x.controllers[d].Recoverer? && x.controllers[d].rpc == WantLock {
      assert w.lock != Some(d);
    }
  }

  predicate Quietly(e: RunEvent) {
    !e.RunLocks? && !e.RunAdmits? && !e.RunLaunches? && !e.RunPublishes? && !e.RunMakesDir? && !e.RunCopiesDisk?
  }

  /** Saves, failures, the confirmed launch, the stop and the removal. */
  lemma QuietRunKeepsInv(w: World, c: nat, e: RunEvent)
    requires Inv(w) && RunEnabled(w, c, e) && Quietly(e)
    ensures Inv(RunStep(w, c, e))
  {
    var x := RunStep(w, c, e);
    assert RunnerOk(w, w.controllers[c]);
    QuietShape(w, c, e);
    LiveStays(w, x);
    QuietRunner(w, c, e);
    RunnerMoves(w, x, w.controllers[c], x.controllers[c]);
    HolderStays(w, x, c);
  }

  lemma QuietShape(w: World, c: nat, e: RunEvent)
    requires RunEnabled(w, c, e) && Quietly(e) && w.controllers[c].run in w.evidence
    requires w.reports.Keys <= w.evidence && w.manifests.Keys <= w.evidence
    ensures var x := RunStep(w, c, e);
            && Calm(w, x) && x.reports == w.reports && x.procs == w.procs && x.lock == w.lock
            && IsRunner(x, c) && x.controllers == w.controllers[c := x.controllers[c]]
  {
  }

  lemma QuietRunner(w: World, c: nat, e: RunEvent)
    requires RunEnabled(w, c, e) && Quietly(e) && RunnerOk(w, w.controllers[c])
    ensures IsRunner(RunStep(w, c, e), c) && MayMove(w, w.controllers[c], RunStep(w, c, e).controllers[c])
  {
    if e.RunSaves? {
      SavingRunner(w, c, e.outcome);
    } else {
      var run := w.controllers[c].run;
      assert forall p :: IsLive(w.procs, p) ==> IsVmm(w.procs, p, run);
    }
  }

  lemma SavingRunner(w: World, c: nat, outcome: SaveOutcome)
    requires IsRunner(w, c) && IsSave(w.controllers[c].pc) && RunnerOk(w, w.controllers[c])
    ensures MayMove(w, w.controllers[c], Save(w, c, outcome).controllers[c])
  {
  }

  /** A runner that goes on with the same run, and is quiet only if no VMM lives. */
  ghost predicate MayMove(w: World, k: Controller, next: Controller) {
    && k.Runner? && next.Runner? && next.run == k.run && k.pc != Release
    && (BeforeLaunch(next.pc) || next.pc == Spawned ==> !next.removed)
    && (Quiet(next) ==> NoneLive(w))
  }

  lemma RunnerMoves(w: World, x: World, k: Controller, next: Controller)
    requires MayMove(w, k, next) && RunnerOk(w, k) && Calm(w, x) && x.reports == w.reports
    ensures RunnerOk(x, next)
  {
    AloneStays(w, x, k.run);
  }

  lemma DirectoryKeepsInv(w: World, c: nat, e: RunEvent)
    requires Inv(w) && RunEnabled(w, c, e) && (e.RunMakesDir? || e.RunCopiesDisk?)
    ensures Inv(RunStep(w, c, e))
  {
    var x := RunStep(w, c, e);
    assert RunnerOk(w, w.controllers[c]);
    assert NoneLive(x);
    forall d | d in x.controllers && d != c ensures x.controllers[d].Recoverer? && x.controllers[d].rpc == WantLock {
      assert w.lock != Some(d);
    }
  }

  lemma ReportKeepsInv(w: World, c: nat, outcome: SaveOutcome)
    requires Inv(w) && RunEnabled(w, c, RunPublishes(outcome))
    ensures Inv(PublishRunReport(w, c, outcome))
  {
    var x, k := PublishRunReport(w, c, outcome), w.controllers[c];
    assert RunnerOk(w, k);
    LiveStays(w, x);
    AloneStays(w, x, k.run);
    HolderStays(w, x, c);
  }

  lemma RunKeepsInv(w: World, c: nat, e: RunEvent)
    requires Inv(w) && RunEnabled(w, c, e)
    ensures Inv(RunStep(w, c, e))
  {
    match e {
      case RunLocks => RunLockKeepsInv(w, c);
      case RunAdmits(run) => AdmitKeepsInv(w, c, run);
      case RunLaunches(pid, ticks) => LaunchKeepsInv(w, c, pid, ticks);
      case RunMakesDir => DirectoryKeepsInv(w, c, e);
      case RunCopiesDisk => DirectoryKeepsInv(w, c, e);
      case RunPublishes(outcome) => ReportKeepsInv(w, c, outcome);
      case _ => QuietRunKeepsInv(w, c, e);
    }
  }

  lemma StepKeepsInv(w: World, a: Action)
    requires Inv(w) && Enabled(w, a) && !FilesFalsely(w, a)
    ensures Inv(Step(w, a))
  {
    match a {
      case Host(e) => HostKeepsInv(w, e);
      case Run(c, e) => RunKeepsInv(w, c, e);
      case Recovery(c, e) => RecoveryKeepsInv(w, c, e);
    }
  }

  lemma {:induction false} InvAlongSchedule(w: World, s: seq<Action>)
    requires Inv(w) && IsSchedule(w, s) && NeverFilesFalsely(w, s)
    ensures Inv(Play(w, s))
    decreases |s|
  {
    if s != [] {
      StepKeepsInv(w, s[0]);
      InvAlongSchedule(Step(w, s[0]), s[1..]);
    }
  }

  /**
  Over every interleaving of runs, recoveries, crashes, reboots and PID reuse on which no
  recovery files COMPLETE over a live VMM, at most one VMM lives.
  */
  lemma AtMostOneVmm(boot: nat, s: seq<Action>)
    requires IsSchedule(Initial(boot), s) && NeverFilesFalsely(Initial(boot), s)
    ensures OneVmm(Play(Initial(boot), s))
  {
    InvInitial(boot);
    InvAlongSchedule(Initial(boot), s);
  }

  // ---- The disks -------------------------------------------------------------------------

  /** What a controller must still know, so that no live VMM loses its disk. */
  ghost predicate HoldsDisk(w: World, k: Controller) {
    && (k.Runner? && (k.pc == SaveBooting || k.pc == Launch) ==> HasDisk(w, k.run))
    && (k.Recoverer? && (k.rpc == RecoverDir || k.rpc == RecoverManifest || k.rpc == RecoverReport) ==>
          !HasLiveVmm(w, k.run))
  }

  ghost predicate DiskInv(w: World) {
    DisksKept(w) && forall c :: c in w.controllers ==> HoldsDisk(w, w.controllers[c])
  }

  /** A removal takes the disk of no live VMM but, blindly, its own run's. */
  lemma DroppingKeepsDisks(w: World, x: World, run: nat)
    requires DisksKept(w) && x.procs == w.procs && !HasLiveVmm(w, run)
    requires forall r :: r != run && HasDisk(w, r) ==> HasDisk(x, r)
    ensures DisksKept(x)
  {
    forall p | IsLive(x.procs, p) ensures HasDisk(x, x.procs[p].vmmOf.value) {
      assert IsVmm(w.procs, p, w.procs[p].vmmOf.value);
    }
  }

  lemma NoneLiveKeepsDisks(x: World)
    requires NoneLive(x)
    ensures DisksKept(x) && forall run :: !HasLiveVmm(x, run)
  {
  }

  lemma RemovalKeepsDisks(w: World, c: nat, e: RecoveryEvent)
    requires Inv(w) && DiskInv(w) && RecoveryEnabled(w, c, e) && (e.RecoveryRemovesDisk? || e.RecoveryRemovesDir?)
    requires !RemovesBlindly(w, Recovery(c, e))
    ensures DiskInv(RecoveryStep(w, c, e))
  {
    assert HoldsDisk(w, w.controllers[c]);
    DroppingKeepsDisks(w, RecoveryStep(w, c, e), w.controllers[c].run);
    OthersWait(w, c);
  }

  lemma RecoveryKeepsDisks(w: World, c: nat, e: RecoveryEvent)
    requires DiskInv(w) && RecoveryEnabled(w, c, e) && !e.RecoveryRemovesDisk? && !e.RecoveryRemovesDir?
    ensures DiskInv(RecoveryStep(w, c, e)) && !FilesFalsely(w, Recovery(c, e))
  {
    var x := RecoveryStep(w, c, e);
    assert x.procs == w.procs && x.runtime == w.runtime;
    assert forall d :: d in w.controllers ==> HoldsDisk(w, w.controllers[d]);
  }

  /** While c holds the lock, all others are recoveries that wait for it. */
  lemma OthersWait(w: World, c: nat)
    requires ControllersOk(w) && w.lock == Some(c)
    ensures forall d :: d in w.controllers && d != c ==> w.controllers[d].Recoverer? && w.controllers[d].rpc == WantLock
  {
    forall d | d in w.controllers && d != c ensures w.controllers[d].Recoverer? && w.controllers[d].rpc == WantLock {
      assert w.lock != Some(d);
    }
  }

  lemma RunKeepsDisks(w: World, c: nat, e: RunEvent)
    requires Inv(w) && DiskInv(w) && RunEnabled(w, c, e) && !e.RunLocks? && !e.RunAdmits? && !e.RunLaunches?
    ensures DiskInv(RunStep(w, c, e))
  {
    var x, k := RunStep(w, c, e), w.controllers[c];
    assert RunnerOk(w, k) && HoldsDisk(w, k) && x.procs == w.procs;
    OthersWait(w, c);
    if e.RunMakesDir? || e.RunCopiesDisk? || e.RunRemovesDisk? || e.RunRemovesDir? {
      NoneLiveKeepsDisks(x);
    }
  }

  lemma LaunchKeepsDisks(w: World, c: nat, pid: nat, ticks: nat)
    requires Inv(w) && DiskInv(w) && RunEnabled(w, c, RunLaunches(pid, ticks))
    ensures DiskInv(LaunchVmm(w, c, pid, ticks))
  {
    var k := w.controllers[c];
    assert RunnerOk(w, k) && HoldsDisk(w, k);
    OthersWait(w, c);
  }

  lemma AdmissionKeepsDisks(w: World, c: nat, e: RunEvent)
    requires Inv(w) && DiskInv(w) && RunEnabled(w, c, e) && (e.RunLocks? || e.RunAdmits?)
    ensures DiskInv(RunStep(w, c, e))
  {
    var x := RunStep(w, c, e);
    forall d | d in x.controllers && d != c ensures HoldsDisk(x, x.controllers[d]) {
      assert HoldsDisk(w, w.controllers[d]);
    }
  }

  lemma HostKeepsDisks(w: World, e: HostEvent)
    requires DiskInv(w) && HostEnabled(w, e)
    ensures DiskInv(HostStep(w, e))
  {
    var x := HostStep(w, e);
    if !e.Rebooting? {
      forall d | d in x.controllers ensures HoldsDisk(x, x.controllers[d]) {
        assert HoldsDisk(w, w.controllers[d]);
        StillNoLiveVmm(w, x);
      }
    }
  }

  lemma StillNoLiveVmm(w: World, x: World)
    requires forall p :: IsLive(x.procs, p) ==> IsLive(w.procs, p) && x.procs[p].vmmOf == w.procs[p].vmmOf
    ensures forall run :: HasLiveVmm(x, run) ==> HasLiveVmm(w, run)
  {
    forall run | HasLiveVmm(x, run) ensures HasLiveVmm(w, run) {
      var p :| p in x.procs && IsLive(x.procs, p) && IsVmm(x.procs, p, run);
      assert p in w.procs && IsLive(w.procs, p) && IsVmm(w.procs, p, run);
    }
  }

  lemma StepKeepsDisks(w: World, a: Action)
    requires Inv(w) && DiskInv(w) && Enabled(w, a) && !RemovesBlindly(w, a)
    ensures DiskInv(Step(w, a)) && !FilesFalsely(w, a)
  {
    match a {
      case Host(e) => HostKeepsDisks(w, e);
      case Recovery(c, e) =>
        if e.RecoveryRemovesDisk? || e.RecoveryRemovesDir? {
          RemovalKeepsDisks(w, c, e);
        } else {
          RecoveryKeepsDisks(w, c, e);
        }
      case Run(c, e) =>
        if e.RunLocks? || e.RunAdmits? {
          AdmissionKeepsDisks(w, c, e);
        } else if e.RunLaunches? {
          LaunchKeepsDisks(w, c, e.pid, e.ticks);
        } else {
          RunKeepsDisks(w, c, e);
        }
    }
  }

  /** A blind removal takes the disk of a live VMM there and then. */
  lemma BlindRemovalIsUnsafe(w: World, a: Action)
    requires Enabled(w, a) && RemovesBlindly(w, a)
    ensures !Safe(Step(w, a))
  {
    var x, run := Step(w, a), w.controllers[a.c].run;
    var p :| p in w.procs && IsLive(w.procs, p) && IsVmm(w.procs, p, run);
    assert IsLive(x.procs, p) && !HasDisk(x, run);
  }

  lemma {:induction false} SafeFrom(w: World, s: seq<Action>)
    requires Inv(w) && DiskInv(w) && IsSchedule(w, s)
    ensures SafeThroughout(w, s) <==> NeverRemovesBlindly(w, s)
    ensures NeverRemovesBlindly(w, s) ==> NeverFilesFalsely(w, s)
    decreases |s|
  {
    if s != [] {
      if RemovesBlindly(w, s[0]) {
        BlindRemovalIsUnsafe(w, s[0]);
      } else {
        StepKeepsDisks(w, s[0]);
        StepKeepsInv(w, s[0]);
        SafeFrom(Step(w, s[0]), s[1..]);
      }
    }
  }

  /**
  Over every interleaving of runs, recoveries, crashes, reboots and PID reuse: at every moment at
  most one VMM lives and every live VMM has its disk, if and only if no recovery removes a disk
  under a live VMM.
  */
  lemma OneVmmAndItsDiskExactly(boot: nat, s: seq<Action>)
    requires IsSchedule(Initial(boot), s)
    ensures SafeThroughout(Initial(boot), s) <==> NeverRemovesBlindly(Initial(boot), s)
  {
    InvInitial(boot);
    SafeFrom(Initial(boot), s);
  }
}
