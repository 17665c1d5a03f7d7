/**
The one way the protocol can fail: `Recover` reads the manifest before it takes the lock
(internal/engine/recover.go:200, 226) and never reads it again, so it can act on a
manifest that the run has overtaken. Exactly when, and a schedule on which it happens.
*/
module OvertakenRecovery {
  import opened Common
  import opened RunProtocol
  import opened RunSafety

  // ---- Exactly when a recovery is unsafe ------------------------------------------

  /** Recover from the lock to the first removal, undisturbed. */
  function LockAndRemove(c: nat): seq<Action> {
    [Recovery(c, RecoveryLocks), Recovery(c, RecoveryDecides), Recovery(c, RecoveryRemovesDisk)]
  }

  ghost function LockDecideRemove(w: World, c: nat): World
    requires IsRecovererAt(w, c, WantLock)
  {
    var x := TakeLockForRecovery(w, c);
    var y := MoveRecovery(x, c, DecideNext(x, c));
    if y.controllers[c].rpc == RecoverDisk then RemoveRecoveredDisk(y, c) else y
  }

  /** With a manifest from before BOOTING those three actions are possible, and lead there. */
  lemma LockDecideRemoveIsASchedule(w: World, c: nat)
    requires IsRecovererAt(w, c, WantLock) && w.lock == None && w.controllers[c].apply
    requires PredatesBoot(w, w.controllers[c].snap)
    ensures IsSchedule(w, LockAndRemove(c)) && Play(w, LockAndRemove(c)) == LockDecideRemove(w, c)
  {
    var s := LockAndRemove(c);
    var x := TakeLockForRecovery(w, c);
    var y := MoveRecovery(x, c, DecideNext(x, c));
    PlayStep(y, s[2..], RemoveRecoveredDisk(y, c));
    PlayStep(x, s[1..], y);
    PlayStep(w, s, x);
  }

  /** Taking the lock now makes recovery delete a disk in use exactly if it is overtaken. */
  lemma RecoveryUnsafeExactly(w: World, c: nat)
    requires Inv(w) && IsRecovererAt(w, c, WantLock) && w.lock == None && w.controllers[c].apply
    ensures !Safe(LockDecideRemove(w, c)) <==> Overtaken(w, c)
    ensures Overtaken(w, c) ==> IsSchedule(w, LockAndRemove(c)) && !Safe(Play(w, LockAndRemove(c)))
  {
    if PredatesBoot(w, w.controllers[c].snap) {
      PredatingShape(w, c);
      DroppingADisk(w, LockDecideRemove(w, c), w.controllers[c].run);
      LockDecideRemoveIsASchedule(w, c);
    } else {
      SafeRecoveryStaysSafe(w, c);
    }
  }

  lemma PredatingShape(w: World, c: nat)
    requires IsRecovererAt(w, c, WantLock) && w.controllers[c].apply && PredatesBoot(w, w.controllers[c].snap)
    ensures var y := LockDecideRemove(w, c);
            y.procs == w.procs && y.runtime == DropDisk(w, w.controllers[c].run).runtime
  {
  }

  lemma DroppingADisk(w: World, y: World, run: nat)
    requires Safe(w) && y.procs == w.procs && y.runtime == DropDisk(w, run).runtime
    ensures !Safe(y) <==> HasLiveVmm(w, run)
  {
    if HasLiveVmm(w, run) {
      var p :| p in w.procs && IsLive(w.procs, p) && IsVmm(w.procs, p, run);
      assert !HasDisk(y, run);
    }
  }

  lemma SafeRecoveryStaysSafe(w: World, c: nat)
    requires Inv(w) && IsRecovererAt(w, c, WantLock) && w.lock == None && !Overtaken(w, c)
    ensures Safe(LockDecideRemove(w, c))
  {
    KeepsRecoveryLock(w, c);
    var x := TakeLockForRecovery(w, c);
    KeepsDecide(x, c);
    var y := MoveRecovery(x, c, DecideNext(x, c));
    if y.controllers[c].rpc == RecoverDisk {
      KeepsRecoverDisk(y, c);
    }
  }

  /**
  Each lock that IsTimely excludes can be continued to harm: two more actions of that recovery
  leave a live VMM without its disk.
  */
  lemma UntimelyLockIsUnsafe(boot: nat, s: seq<Action>, c: nat)
    requires IsSchedule(Initial(boot), s) && IsTimely(Initial(boot), s)
    requires Enabled(Play(Initial(boot), s), Recovery(c, RecoveryLocks))
    requires !Timely(Play(Initial(boot), s), Recovery(c, RecoveryLocks))
    ensures IsSchedule(Initial(boot), s + LockAndRemove(c)) && !Safe(Play(Initial(boot), s + LockAndRemove(c)))
  {
    InvInitial(boot);
    InvAlongSchedule(Initial(boot), s);
    RecoveryUnsafeExactly(Play(Initial(boot), s), c);
    PlayConcat(Initial(boot), s, LockAndRemove(c));
  }

  lemma {:induction false} PlayConcat(w: World, s: seq<Action>, t: seq<Action>)
    requires IsSchedule(w, s) && IsSchedule(Play(w, s), t)
    ensures IsSchedule(w, s + t) && Play(w, s + t) == Play(Play(w, s), t)
    decreases |s|
  {
    if s == [] {
      assert s + t == t;
    } else {
      PlayConcat(Step(w, s[0]), s[1..], t);
      assert (s + t)[1..] == s[1..] + t;
    }
  }

  function Prepared(): Manifest {
    Manifest(0, Preparing, None, Incomplete)
  }

  function Booted(): Manifest {
    Manifest(0, Booting, None, Incomplete)
  }

  /** Run 7 has persisted PREPARING; recovery 2 has read that manifest. */
  function WorldAtLoad(): World {
    World(0, {}, map[], Some(1), {7}, map[7 := Prepared()], map[], map[],
          map[1 := Runner(7, MakeDir, Prepared(), None, false), 2 := Recoverer(7, true, WantLock, Prepared())])
  }

  /** Run 7 has persisted BOOTING and started its VMM; its controller has died. */
  function WorldAtCrash(): World {
    World(0, {Identity(100, 5, 0)}, map[100 := Process(5, Some(7), true)], None, {7}, map[7 := Booted()],
          map[], map[7 := true], map[2 := Recoverer(7, true, WantLock, Prepared())])
  }

  function UntilLoad(): seq<Action> {
    [Run(1, RunLocks), Run(1, RunAdmits(7)), Run(1, RunSaves(Saved)), Run(1, RunSaves(Saved)),
        Recovery(2, RecoveryLoads(7, true))]
  }

  function UntilCrash(): seq<Action> {
    [Run(1, RunMakesDir), Run(1, RunCopiesDisk), Run(1, RunSaves(Saved)), Run(1, RunLaunches(100, 5)), Host(Dying(1))]
  }

  lemma PlayStep(w: World, s: seq<Action>, x: World)
    requires s != [] && Enabled(w, s[0]) && Step(w, s[0]) == x && IsSchedule(x, s[1..])
    ensures IsSchedule(w, s) && Play(w, s) == Play(x, s[1..])
  {
  }

  lemma PlayUntilLoad()
    ensures IsSchedule(Initial(0), UntilLoad()) && Play(Initial(0), UntilLoad()) == WorldAtLoad()
  {
    var s := UntilLoad();
    var w0 := Initial(0);
    var w1 := World(0, {}, map[], Some(1), {}, map[], map[], map[], map[1 := Admitting]);
    var m := Manifest(0, Validating, None, Incomplete);
    var w2 := World(0, {}, map[], Some(1), {7}, map[], map[], map[],
        map[1 := Runner(7, SaveValidating, m, None, false)]);
    var w3 := World(0, {}, map[], Some(1), {7}, map[7 := m], map[], map[],
        map[1 := Runner(7, SavePreparing, m, None, false)]);
    var w4 := World(0, {}, map[], Some(1), {7}, map[7 := Prepared()], map[], map[],
        map[1 := Runner(7, MakeDir, Prepared(), None, false)]);
    PlayStep(w4, s[4..], WorldAtLoad());
    PlayStep(w3, s[3..], w4);
    PlayStep(w2, s[2..], w3);
    PlayStep(w1, s[1..], w2);
    PlayStep(w0, s, w1);
  }

  function WorldAtLaunch(): World {
    World(0, {}, map[], Some(1), {7}, map[7 := Booted()], map[], map[7 := true],
          map[1 := Runner(7, Launch, Booted(), None, false), 2 := Recoverer(7, true, WantLock, Prepared())])
  }

  lemma PlayUntilLaunch()
    ensures IsSchedule(WorldAtLoad(), UntilCrash()[..3]) && Play(WorldAtLoad(), UntilCrash()[..3]) == WorldAtLaunch()
  {
    var s := UntilCrash()[..3];
    var w0 := WorldAtLoad();
    var k2 := Recoverer(7, true, WantLock, Prepared());
    var w1 := World(0, {}, map[], Some(1), {7}, map[7 := Prepared()], map[], map[7 := false],
                    map[1 := Runner(7, CopyDisk, Prepared(), None, false), 2 := k2]);
    var w2 := World(0, {}, map[], Some(1), {7}, map[7 := Prepared()], map[], map[7 := true],
                    map[1 := Runner(7, SaveBooting, Prepared(), None, false), 2 := k2]);
    PlayStep(w2, s[2..], WorldAtLaunch());
    PlayStep(w1, s[1..], w2);
    PlayStep(w0, s, w1);
  }

  lemma PlayUntilCrash()
    ensures IsSchedule(WorldAtLaunch(), UntilCrash()[3..]) && Play(WorldAtLaunch(), UntilCrash()[3..]) == WorldAtCrash()
  {
    var s := UntilCrash()[3..];
    var id := Identity(100, 5, 0);
    var w1 := World(0, {id}, map[100 := Process(5, Some(7), true)], Some(1), {7}, map[7 := Booted()], map[],
                    map[7 := true],
                    map[1 := Runner(7, Spawned, Booted(), Some(id), false),
                        2 := Recoverer(7, true, WantLock, Prepared())]);
    PlayStep(w1, s[1..], WorldAtCrash());
    PlayStep(WorldAtLaunch(), s, w1);
  }

  lemma PlayUntilRemoval()
    ensures IsSchedule(WorldAtCrash(), LockAndRemove(2))
    ensures var x := Play(WorldAtCrash(), LockAndRemove(2));
            IsLive(x.procs, 100) && IsVmm(x.procs, 100, 7) && !HasDisk(x, 7)
  {
    LockDecideRemoveIsASchedule(WorldAtCrash(), 2);
  }

  lemma PlayFromLoadToCrash()
    ensures IsSchedule(WorldAtLoad(), UntilCrash()) && Play(WorldAtLoad(), UntilCrash()) == WorldAtCrash()
  {
    PlayUntilLaunch();
    PlayUntilCrash();
    var c := UntilCrash();
    PlayConcat(WorldAtLoad(), c[..3], c[3..]);
    assert c[..3] + c[3..] == c;
  }

  /** A schedule from the empty host in which recovery deletes the disk of a running VMM. */
  lemma OvertakenRecoveryDeletesLiveDisk()
    ensures exists s :: IsSchedule(Initial(0), s) && !Safe(Play(Initial(0), s))
  {
    PlayUntilLoad();
    PlayFromLoadToCrash();
    PlayUntilRemoval();
    PlayConcat(WorldAtLoad(), UntilCrash(), LockAndRemove(2));
    var t := UntilCrash() + LockAndRemove(2);
    PlayConcat(Initial(0), UntilLoad(), t);
    LostDiskIsUnsafe(Play(Initial(0), UntilLoad() + t), 100, 7);
  }

  lemma LostDiskIsUnsafe(x: World, p: nat, run: nat)
    requires IsLive(x.procs, p) && IsVmm(x.procs, p, run) && !HasDisk(x, run)
    ensures !Safe(x)
  {
  }
}
