/**
The run / crash / recover protocol of internal/engine and internal/firecracker.

Any number of `run` and `recover` controllers act on one host. A controller is a
program counter over the durable side effects of the Go code, in their order, and
may die between any two of them. The host may reboot, processes may exit and their
PIDs may be reused. A VMM may outlive its controller by any amount of time: the
parent-death signal is delivered some time after the controller's lock is released.

Host assumptions: the operator lock is exclusive and dies with its holder, a
publication is an atomic rename, a reboot kills every process, and a pair (PID,
start ticks) is given out at most once per boot. Run IDs are fresh.
*/
module RunProtocol {
  import opened Common

  datatype Stage = Validating | Preparing | Booting | Ready | Running | Collecting | Cleaning | Finished

  function Rank(s: Stage): nat {
    match s
    case Validating => 0
    case Preparing => 1
    case Booting => 2
    case Ready => 3
    case Running => 4
    case Collecting => 5
    case Cleaning => 6
    case Finished => 7
  }

  datatype Identity = Identity(pid: nat, ticks: nat, boot: nat)
  datatype Process = Process(ticks: nat, vmmOf: Option<nat>, running: bool)
  datatype CleanupStatus = Incomplete | Complete
  datatype Manifest = Manifest(boot: nat, stage: Stage, process: Option<Identity>, cleanup: CleanupStatus)

  datatype RunPc =
    | SaveValidating | SavePreparing | MakeDir | CopyDisk | SaveBooting | Launch
    | Spawned | SaveIdentity | SaveReady | SaveRunning | SaveCollecting
    | SaveCleaning | StopVmm | RemoveDisk | RemoveDir | SaveFinished | PublishReport | Release

  datatype RecoverPc =
    | WantLock | Decide | Stopping | RecoverDisk | RecoverDir | RecoverManifest | RecoverReport | Done

  datatype Controller =
    | Admitting
    | Runner(run: nat, pc: RunPc, mem: Manifest, child: Option<Identity>, removed: bool)
    | Recoverer(run: nat, apply: bool, rpc: RecoverPc, snap: Manifest)

  /** `runtime[r]` says whether the private disk is still in run r's directory. */
  datatype World = World(
    boot: nat,
    used: set<Identity>,
    procs: map<nat, Process>,
    lock: Option<nat>,
    evidence: set<nat>,
    manifests: map<nat, Manifest>,
    reports: map<nat, CleanupStatus>,
    runtime: map<nat, bool>,
    controllers: map<nat, Controller>)

  function Initial(boot: nat): World {
    World(boot, {}, map[], None, {}, map[], map[], map[], map[])
  }

  datatype HostEvent =
    | Rebooting(kept: set<nat>)
    | StrangerStarting(pid: nat, ticks: nat)
    | Exiting(pid: nat)
    | Reaping(pid: nat)
    | Dying(controller: nat)

  datatype RunEvent =
    | RunLocks
    | RunAdmits(run: nat)
    | RunSaves(outcome: SaveOutcome)
    | RunMakesDir
    | RunCopiesDisk
    | RunAborts
    | RunLaunches(pid: nat, ticks: nat)
    | RunConfirms
    | RunLosesLaunch
    | RunStopReturns(ok: bool)
    | RunRemovesDisk
    | RunRemovesDir
    | RunRemovalFails
    | RunPublishes(outcome: SaveOutcome)

  datatype RecoveryEvent =
    | RecoveryLoads(run: nat, apply: bool)
    | RecoveryLocks
    | RecoveryDecides
    | RecoveryStopReturns
    | RecoveryRemovesDisk
    | RecoveryRemovesDir
    | RecoverySaves(outcome: SaveOutcome)
    | RecoveryPublishes(outcome: SaveOutcome)
    | RecoveryGivesUp

  datatype Action =
    | Host(host: HostEvent)
    | Run(c: nat, run: RunEvent)
    | Recovery(c: nat, recovery: RecoveryEvent)

  // ---- Program counters -------------------------------------------------

  /** Stage written by each `stage(...)` call; the identity is saved under BOOTING. */
  function StageAt(pc: RunPc): Stage {
    match pc
    case SaveValidating => Validating
    case SavePreparing => Preparing
    case SaveBooting => Booting
    case SaveIdentity => Booting
    case SaveReady => Ready
    case SaveRunning => Running
    case SaveCollecting => Collecting
    case SaveFinished => Finished
    case _ => Cleaning
  }

  predicate IsSave(pc: RunPc) {
    (pc == SaveValidating || pc == SavePreparing || pc == SaveBooting || pc == SaveIdentity || pc == SaveReady ||
        pc == SaveRunning || pc == SaveCollecting || pc == SaveCleaning || pc == SaveFinished)
  }

  function AfterSave(pc: RunPc, outcome: SaveOutcome): RunPc {
    if pc == SaveCleaning then StopVmm
    else if pc == SaveFinished then PublishReport
    else if outcome != Saved then SaveCleaning
    else match pc
      case SaveValidating => SavePreparing
      case SavePreparing => MakeDir
      case SaveBooting => Launch
      case SaveIdentity => SaveReady
      case SaveReady => SaveRunning
      case SaveRunning => SaveCollecting
      case _ => SaveCleaning
  }

  /** The controller may still reach `deps.start`. */
  predicate BeforeLaunch(pc: RunPc) {
    (pc == SaveValidating || pc == SavePreparing || pc == MakeDir || pc == CopyDisk || pc == SaveBooting ||
        pc == Launch)
  }

  predicate InExecute(pc: RunPc) {
    BeforeLaunch(pc) || (pc == SaveIdentity || pc == SaveReady || pc == SaveRunning || pc == SaveCollecting)
  }

  predicate InCleanup(pc: RunPc) {
    pc == SaveCleaning || pc == StopVmm || pc == RemoveDisk || pc == RemoveDir || pc == SaveFinished ||
        pc == PublishReport || pc == Release
  }

  // ---- Host observations --------------------------------------------------

  /** firecracker.InspectProcess on a well-formed identity of this operator. */
  function Inspect(w: World, id: Identity): Inspection {
    if id.boot != w.boot || id.pid !in w.procs then Gone
    else if w.procs[id.pid].ticks != id.ticks then Foreign
    else if !w.procs[id.pid].running then Gone
    else Alive
  }

  predicate Admissible(w: World) {
    w.runtime.Keys == {} && forall r :: r in w.evidence ==> r in w.reports && w.reports[r] == Complete
  }

  /** What Recover does with the manifest it holds, before it touches anything. */
  function Decision(w: World, m: Manifest): RecoverPc {
    match m.process
    case Some(id) =>
      (match Inspect(w, id) case Gone => RecoverDisk case Foreign => Done case Alive => Stopping)
    case None =>
      if m.boot != w.boot || m.stage == Validating || m.stage == Preparing || m.cleanup == Complete
      then RecoverDisk else Done
  }

  // ---- Transitions --------------------------------------------------------

  predicate IsRunner(w: World, c: nat) {
    c in w.controllers && w.controllers[c].Runner?
  }

  predicate IsRecoverer(w: World, c: nat) {
    c in w.controllers && w.controllers[c].Recoverer?
  }

  predicate IsRunnerAt(w: World, c: nat, pc: RunPc) {
    IsRunner(w, c) && w.controllers[c].pc == pc
  }

  predicate IsRecovererAt(w: World, c: nat, pc: RecoverPc) {
    IsRecoverer(w, c) && w.controllers[c].rpc == pc
  }

  function Goto(w: World, c: nat, ctl: Controller): World {
    w.(controllers := w.controllers[c := ctl])
  }

  function DropDisk(w: World, run: nat): World {
    w.(runtime := if run in w.runtime then w.runtime[run := false] else w.runtime)
  }

  function Publish(w: World, run: nat, m: Manifest, outcome: SaveOutcome): World {
    w.(manifests := if outcome == Lost then w.manifests else w.manifests[run := m])
  }

  function PublishVerdict(w: World, run: nat, verdict: CleanupStatus, outcome: SaveOutcome): World {
    w.(reports := if outcome == Lost then w.reports else w.reports[run := verdict])
  }

  /** The manifest a save call writes; FINISHED also carries the cleanup verdict. */
  function SavedManifest(k: Controller): Manifest
    requires k.Runner?
  {
    k.mem.(stage := StageAt(k.pc),
           cleanup := if k.pc == SaveFinished && k.removed then Complete else k.mem.cleanup)
  }

  // Each durable effect of `run`, in the order of the code.

  function TakeLockForRun(w: World, c: nat): World {
    Goto(w.(lock := Some(c)), c, Admitting)
  }

  function Admit(w: World, c: nat, run: nat): World {
    Goto(w.(evidence := w.evidence + {run}), c,
         Runner(run, SaveValidating, Manifest(w.boot, Validating, None, Incomplete), None, false))
  }

  function Save(w: World, c: nat, outcome: SaveOutcome): World
    requires IsRunner(w, c)
  {
    var k := w.controllers[c];
    Goto(Publish(w, k.run, SavedManifest(k), outcome), c,
         k.(pc := AfterSave(k.pc, outcome), mem := SavedManifest(k)))
  }

  function MakeRuntimeDir(w: World, c: nat): World
    requires IsRunner(w, c)
  {
    Goto(w.(runtime := w.runtime[w.controllers[c].run := false]), c, w.controllers[c].(pc := CopyDisk))
  }

  function CopyPrivateDisk(w: World, c: nat): World
    requires IsRunner(w, c)
  {
    Goto(w.(runtime := w.runtime[w.controllers[c].run := true]), c, w.controllers[c].(pc := SaveBooting))
  }

  /** A failure, or the failed half of a launch, sends the controller to cleanup. */
  function AbortToCleanup(w: World, c: nat): World
    requires IsRunner(w, c)
  {
    Goto(w, c, w.controllers[c].(pc := SaveCleaning))
  }

  function LaunchVmm(w: World, c: nat, pid: nat, ticks: nat): World
    requires IsRunner(w, c)
  {
    var k := w.controllers[c];
    var id := Identity(pid, ticks, w.boot);
    Goto(w.(procs := w.procs[pid := Process(ticks, Some(k.run), true)], used := w.used + {id}), c,
         k.(pc := Spawned, child := Some(id)))
  }

  function ConfirmLaunch(w: World, c: nat): World
    requires IsRunner(w, c)
  {
    var k := w.controllers[c];
    Goto(w, c, k.(pc := SaveIdentity, mem := k.mem.(process := k.child)))
  }

  function StopReturned(w: World, c: nat, ok: bool): World
    requires IsRunner(w, c)
  {
    var k := w.controllers[c];
    Goto(w, c, k.(pc := if ok || k.mem.process == None then RemoveDisk else SaveFinished))
  }

  function RemoveRunDisk(w: World, c: nat): World
    requires IsRunner(w, c)
  {
    Goto(DropDisk(w, w.controllers[c].run), c, w.controllers[c].(pc := RemoveDir))
  }

  function RemoveRunDir(w: World, c: nat): World
    requires IsRunner(w, c)
  {
    var k := w.controllers[c];
    Goto(w.(runtime := w.runtime - {k.run}), c, k.(pc := SaveFinished, removed := true))
  }

  function RemovalFailed(w: World, c: nat): World
    requires IsRunner(w, c)
  {
    Goto(w, c, w.controllers[c].(pc := SaveFinished))
  }

  function PublishRunReport(w: World, c: nat, outcome: SaveOutcome): World
    requires IsRunner(w, c)
  {
    var k := w.controllers[c];
    Goto(PublishVerdict(w, k.run, if k.removed then Complete else Incomplete, outcome), c, k.(pc := Release))
  }

  // Each durable effect of `Recover`, in the order of the code.

  function LoadForRecovery(w: World, c: nat, run: nat, apply: bool): World
    requires run in w.manifests
  {
    Goto(w, c, Recoverer(run, apply, WantLock, w.manifests[run]))
  }

  function TakeLockForRecovery(w: World, c: nat): World
    requires IsRecoverer(w, c)
  {
    Goto(w.(lock := Some(c)), c, w.controllers[c].(rpc := Decide))
  }

  /** Recover up to its first durable effect; also every return without one. */
  function MoveRecovery(w: World, c: nat, pc: RecoverPc): World
    requires IsRecoverer(w, c)
  {
    Goto(w, c, w.controllers[c].(rpc := pc))
  }

  function DecideNext(w: World, c: nat): RecoverPc
    requires IsRecoverer(w, c)
  {
    if w.controllers[c].apply then Decision(w, w.controllers[c].snap) else Done
  }

  function AfterStopOwned(w: World, c: nat): RecoverPc
    requires IsRecoverer(w, c) && w.controllers[c].snap.process.Some?
  {
    if Inspect(w, w.controllers[c].snap.process.value) == Gone then RecoverDisk else Done
  }

  function RemoveRecoveredDisk(w: World, c: nat): World
    requires IsRecoverer(w, c)
  {
    MoveRecovery(DropDisk(w, w.controllers[c].run), c, RecoverDir)
  }

  function RemoveRecoveredDir(w: World, c: nat): World
    requires IsRecoverer(w, c)
  {
    MoveRecovery(w.(runtime := w.runtime - {w.controllers[c].run}), c, RecoverManifest)
  }

  function SaveRecoveredManifest(w: World, c: nat, outcome: SaveOutcome): World
    requires IsRecoverer(w, c)
  {
    var k := w.controllers[c];
    MoveRecovery(Publish(w, k.run, k.snap.(cleanup := Complete, stage := Finished), outcome), c,
                 if outcome == Saved then RecoverReport else Done)
  }

  function PublishRecoveredReport(w: World, c: nat, outcome: SaveOutcome): World
    requires IsRecoverer(w, c)
  {
    MoveRecovery(PublishVerdict(w, w.controllers[c].run, Complete, outcome), c, Done)
  }

  // The host.

  function Reboot(w: World, kept: set<nat>): World {
    w.(boot := w.boot + 1, procs := map[], lock := None, controllers := map[],
       runtime := map r | r in w.runtime && r in kept :: w.runtime[r])
  }

  function StrangerStarts(w: World, pid: nat, ticks: nat): World {
    w.(procs := w.procs[pid := Process(ticks, None, true)], used := w.used + {Identity(pid, ticks, w.boot)})
  }

  function ProcessExits(w: World, pid: nat): World
    requires pid in w.procs
  {
    w.(procs := w.procs[pid := w.procs[pid].(running := false)])
  }

  function ProcessReaped(w: World, pid: nat): World {
    w.(procs := w.procs - {pid})
  }

  function ControllerDies(w: World, c: nat): World {
    w.(controllers := w.controllers - {c}, lock := if w.lock == Some(c) then None else w.lock)
  }

  predicate FreshProcess(w: World, pid: nat, ticks: nat) {
    pid !in w.procs && Identity(pid, ticks, w.boot) !in w.used
  }

  predicate HostEnabled(w: World, e: HostEvent) {
    match e
    case Rebooting(_) => true
    case StrangerStarting(pid, ticks) => FreshProcess(w, pid, ticks)
    case Exiting(pid) => pid in w.procs && w.procs[pid].running
    case Reaping(pid) => pid in w.procs && !w.procs[pid].running
    case Dying(c) => c in w.controllers
  }

  predicate RunEnabled(w: World, c: nat, e: RunEvent) {
    match e
    case RunLocks => c !in w.controllers && w.lock == None
    case RunAdmits(run) =>
      c in w.controllers && w.controllers[c].Admitting? && Admissible(w) && run !in w.evidence
    case RunSaves(_) => IsRunner(w, c) && IsSave(w.controllers[c].pc)
    case RunMakesDir => IsRunnerAt(w, c, MakeDir)
    case RunCopiesDisk => IsRunnerAt(w, c, CopyDisk)
    case RunAborts => IsRunner(w, c) && InExecute(w.controllers[c].pc)
    case RunLaunches(pid, ticks) => IsRunnerAt(w, c, Launch) && FreshProcess(w, pid, ticks)
    case RunConfirms => IsRunnerAt(w, c, Spawned) && w.controllers[c].child.Some?
    case RunLosesLaunch => IsRunnerAt(w, c, Spawned) && !HasVmm(w, w.controllers[c].run)
    case RunStopReturns(ok) => IsRunnerAt(w, c, StopVmm) && (ok ==> !HasLiveVmm(w, w.controllers[c].run))
    case RunRemovesDisk => IsRunnerAt(w, c, RemoveDisk)
    case RunRemovesDir => IsRunnerAt(w, c, RemoveDir)
    case RunRemovalFails => IsRunnerAt(w, c, RemoveDisk) || IsRunnerAt(w, c, RemoveDir)
    case RunPublishes(_) => IsRunnerAt(w, c, PublishReport)
  }

  predicate RecoveryEnabled(w: World, c: nat, e: RecoveryEvent) {
    match e
    case RecoveryLoads(run, _) => c !in w.controllers && run in w.manifests
    case RecoveryLocks => IsRecovererAt(w, c, WantLock) && w.lock == None
    case RecoveryDecides => IsRecovererAt(w, c, Decide)
    case RecoveryStopReturns => IsRecovererAt(w, c, Stopping) && w.controllers[c].snap.process.Some?
    case RecoveryRemovesDisk => IsRecovererAt(w, c, RecoverDisk)
    case RecoveryRemovesDir => IsRecovererAt(w, c, RecoverDir)
    case RecoverySaves(_) => IsRecovererAt(w, c, RecoverManifest)
    case RecoveryPublishes(_) => IsRecovererAt(w, c, RecoverReport)
    case RecoveryGivesUp => IsRecoverer(w, c) && w.controllers[c].rpc != WantLock
  }

  predicate Enabled(w: World, a: Action) {
    match a
    case Host(e) => HostEnabled(w, e)
    case Run(c, e) => RunEnabled(w, c, e)
    case Recovery(c, e) => RecoveryEnabled(w, c, e)
  }

  function HostStep(w: World, e: HostEvent): World
    requires HostEnabled(w, e)
  {
    match e
    case Rebooting(kept) => Reboot(w, kept)
    case StrangerStarting(pid, ticks) => StrangerStarts(w, pid, ticks)
    case Exiting(pid) => ProcessExits(w, pid)
    case Reaping(pid) => ProcessReaped(w, pid)
    case Dying(c) => ControllerDies(w, c)
  }

  function RunStep(w: World, c: nat, e: RunEvent): World
    requires RunEnabled(w, c, e)
  {
    match e
    case RunLocks => TakeLockForRun(w, c)
    case RunAdmits(run) => Admit(w, c, run)
    case RunSaves(outcome) => Save(w, c, outcome)
    case RunMakesDir => MakeRuntimeDir(w, c)
    case RunCopiesDisk => CopyPrivateDisk(w, c)
    case RunAborts => AbortToCleanup(w, c)
    case RunLaunches(pid, ticks) => LaunchVmm(w, c, pid, ticks)
    case RunConfirms => ConfirmLaunch(w, c)
    case RunLosesLaunch => AbortToCleanup(w, c)
    case RunStopReturns(ok) => StopReturned(w, c, ok)
    case RunRemovesDisk => RemoveRunDisk(w, c)
    case RunRemovesDir => RemoveRunDir(w, c)
    case RunRemovalFails => RemovalFailed(w, c)
    case RunPublishes(outcome) => PublishRunReport(w, c, outcome)
  }

  function RecoveryStep(w: World, c: nat, e: RecoveryEvent): World
    requires RecoveryEnabled(w, c, e)
  {
    match e
    case RecoveryLoads(run, apply) => LoadForRecovery(w, c, run, apply)
    case RecoveryLocks => TakeLockForRecovery(w, c)
    case RecoveryDecides => MoveRecovery(w, c, DecideNext(w, c))
    case RecoveryStopReturns => MoveRecovery(w, c, AfterStopOwned(w, c))
    case RecoveryRemovesDisk => RemoveRecoveredDisk(w, c)
    case RecoveryRemovesDir => RemoveRecoveredDir(w, c)
    case RecoverySaves(outcome) => SaveRecoveredManifest(w, c, outcome)
    case RecoveryPublishes(outcome) => PublishRecoveredReport(w, c, outcome)
    case RecoveryGivesUp => MoveRecovery(w, c, Done)
  }

  function Step(w: World, a: Action): World
    requires Enabled(w, a)
  {
    match a
    case Host(e) => HostStep(w, e)
    case Run(c, e) => RunStep(w, c, e)
    case Recovery(c, e) => RecoveryStep(w, c, e)
  }

  // ---- Safety -------------------------------------------------------------

  predicate IsVmm(procs: map<nat, Process>, p: nat, run: nat) {
    p in procs && procs[p].vmmOf == Some(run)
  }

  predicate IsLive(procs: map<nat, Process>, p: nat) {
    p in procs && procs[p].vmmOf.Some? && procs[p].running
  }

  predicate HasLiveVmm(w: World, run: nat) {
    exists p :: p in w.procs && IsLive(w.procs, p) && IsVmm(w.procs, p, run)
  }

  predicate HasVmm(w: World, run: nat) {
    exists p :: p in w.procs && IsVmm(w.procs, p, run)
  }

  predicate HasDisk(w: World, run: nat) {
    run in w.runtime && w.runtime[run]
  }

  /** At most one VMM runs, and a running VMM still has its private disk. */
  ghost predicate Safe(w: World) {
    && (forall p, q :: IsLive(w.procs, p) && IsLive(w.procs, q) ==> p == q)
    && (forall p :: IsLive(w.procs, p) ==> HasDisk(w, w.procs[p].vmmOf.value))
  }

  predicate PredatesBoot(w: World, m: Manifest) {
    m.boot == w.boot && m.process == None && Rank(m.stage) < Rank(Booting)
  }

  /**
  Recover loaded a manifest from before BOOTING and is about to act on it, but the run has
  meanwhile booted and its VMM lives. Recover reads the manifest before it takes the lock
  and never reads it again.
  */
  predicate Overtaken(w: World, c: nat) {
    && IsRecovererAt(w, c, WantLock)
    && var k := w.controllers[c];
    && k.apply && PredatesBoot(w, k.snap) && HasLiveVmm(w, k.run)
  }

  predicate Timely(w: World, a: Action) {
    a.Recovery? && a.recovery.RecoveryLocks? ==> !Overtaken(w, a.c)
  }

  /** Every action is possible where it is taken. */
  ghost predicate IsSchedule(w: World, actions: seq<Action>)
    decreases |actions|
  {
    actions == [] || (Enabled(w, actions[0]) && IsSchedule(Step(w, actions[0]), actions[1..]))
  }

  ghost function Play(w: World, actions: seq<Action>): World
    requires IsSchedule(w, actions)
    decreases |actions|
  {
    if actions == [] then w else Play(Step(w, actions[0]), actions[1..])
  }

  /** No applied recovery takes the lock when overtaken. */
  ghost predicate IsTimely(w: World, actions: seq<Action>)
    requires IsSchedule(w, actions)
    decreases |actions|
  {
    actions == [] || (Timely(w, actions[0]) && IsTimely(Step(w, actions[0]), actions[1..]))
  }
}
