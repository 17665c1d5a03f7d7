/**
What a run leaves in its runtime directory (internal/engine/run.go:152-162): the disk is
copied through rootfs.ext4.partial (internal/artifact/copy.go:37-64), the configuration is
written through a temporary file of its own name (internal/safefs/safefs.go:126-153), the
VMM adds its socket, and cleanup removes what it recognises
(internal/engine/recover.go:144-185). The controller may die between any two operations,
and any operation may fail.
*/
module RuntimeDir {
  import opened Common
  import Recovery

  const TEMP_PREFIX := ".epoch-json-"

  predicate IsTemp(name: string) {
    TEMP_PREFIX <= name
  }

  /** Where the controller stands. */
  datatype Pc =
    | MakeDir
    | OpenPartial          // CopyPrivate, about to create the partial copy
    | RenamePartial        // ... about to rename it
    | OpenTemp             // AtomicWrite of the configuration, about to create its temporary file
    | RenameTemp           // ... about to rename it
    | Discard              // ... which failed; about to remove it
    | Booted
    | Check                // removeOwnedRuntime, about to list the directory
    | Removing
    | Over

  /** `left` says that the removal of the temporary file failed, which AtomicWrite ignores. */
  datatype State = State(entries: Option<set<string>>, pc: Pc, alive: bool, left: bool)

  function Fresh(): State {
    State(None, MakeDir, true, false)
  }

  datatype Action =
    | Proceed                    // the next operation succeeds
    | Unsure                     // the rename succeeds and the directory's sync fails
    | Fail(removed: bool)        // it fails; `removed` is whether the deferred removal works
    | Socket                     // the VMM creates its socket, whoever lives
    | Remove(name: string)
    | Die

  predicate Enabled(s: State, a: Action) {
    match a
    case Proceed => s.alive && s.pc != Over && (s.pc == Removing ==> s.entries == Some({}))
    case Unsure => s.alive && s.pc == RenameTemp
    case Fail(_) => s.alive && s.pc != Over
    case Socket => s.pc == Booted && s.entries.Some?
    case Remove(name) => s.alive && s.pc == Removing && s.entries.Some? && name in s.entries.value
    case Die => s.alive
  }

  function Changed(s: State, added: set<string>, removed: set<string>): Option<set<string>> {
    if s.entries.Some? then Some(s.entries.value - removed + added) else None
  }

  predicate AllowedSet(entries: set<string>) {
    forall name :: name in entries ==> Recovery.AllowedEntry(name)
  }

  function Proceeding(s: State, temp: string): State {
    match s.pc
    case MakeDir => s.(entries := Some({}), pc := OpenPartial)
    case OpenPartial => s.(entries := Changed(s, {"rootfs.ext4.partial"}, {}), pc := RenamePartial)
    case RenamePartial => s.(entries := Changed(s, {"rootfs.ext4"}, {"rootfs.ext4.partial"}), pc := OpenTemp)
    case OpenTemp => s.(entries := Changed(s, {temp}, {}), pc := RenameTemp)
    case RenameTemp => s.(entries := Changed(s, {"firecracker.json"}, {temp}), pc := Booted)
    case Discard => s.(entries := Changed(s, {}, {temp}), pc := Check)
    case Booted => s.(pc := Check)
    case Check => s.(pc := if s.entries.Some? && AllowedSet(s.entries.value) then Removing else Over)
    case Removing => s.(entries := None, pc := Over)
    case Over => s
  }

  function Failing(s: State, removed: bool): State {
    match s.pc
    case RenamePartial =>
      s.(entries := if removed then Changed(s, {}, {"rootfs.ext4.partial"}) else s.entries, pc := Check)
    case RenameTemp => s.(pc := Discard)
    case Discard => s.(pc := Check, left := true)
    case Check => s.(pc := Over)
    case Removing => s.(pc := Over)
    case _ => s.(pc := Check)
  }

  function Next(s: State, temp: string, a: Action): State
    requires Enabled(s, a)
  {
    match a
    case Proceed => Proceeding(s, temp)
    case Unsure => s.(entries := Changed(s, {"firecracker.json"}, {temp}), pc := Check)
    case Fail(removed) => Failing(s, removed)
    case Socket => s.(entries := Changed(s, {"vsock.sock"}, {}))
    case Remove(name) => s.(entries := Changed(s, {}, {name}))
    case Die => s.(alive := false)
  }

  predicate IsSchedule(s: State, temp: string, actions: seq<Action>)
    decreases |actions|
  {
    actions == [] || (Enabled(s, actions[0]) && IsSchedule(Next(s, temp, actions[0]), temp, actions[1..]))
  }

  function Play(s: State, temp: string, actions: seq<Action>): State
    requires IsSchedule(s, temp, actions)
    decreases |actions|
  {
    if actions == [] then s else Play(Next(s, temp, actions[0]), temp, actions[1..])
  }

  // ---- Exactly which directories can be cleaned ----------------------------------------------

  /** The temporary file exists: between its creation and its rename or removal, or the removal failed. */
  predicate InWrite(s: State) {
    s.pc == RenameTemp || s.pc == Discard || s.left
  }

  ghost predicate Inv(s: State, temp: string) {
    && (s.entries.Some? ==>
          && (temp in s.entries.value <==> InWrite(s))
          && forall name :: name in s.entries.value && name != temp ==> Recovery.AllowedEntry(name))
    && (s.entries.None? ==> s.pc == MakeDir || s.pc == Check || s.pc == Over)
    && (s.left ==> s.pc == Check || s.pc == Over)
    && (s.pc == Removing ==> !s.left)
  }

  lemma TempIsForeign(temp: string)
    requires IsTemp(temp)
    ensures !Recovery.AllowedEntry(temp)
  {
    assert temp[0] == '.';
  }

  lemma StepKeepsInv(s: State, temp: string, a: Action)
    requires IsTemp(temp) && Inv(s, temp) && Enabled(s, a)
    ensures Inv(Next(s, temp, a), temp)
  {
    TempIsForeign(temp);
  }

  lemma {:induction false} InvAlongSchedule(s: State, temp: string, actions: seq<Action>)
    requires IsTemp(temp) && Inv(s, temp) && IsSchedule(s, temp, actions)
    ensures Inv(Play(s, temp, actions), temp)
    decreases |actions|
  {
    if actions != [] {
      StepKeepsInv(s, temp, actions[0]);
      InvAlongSchedule(Next(s, temp, actions[0]), temp, actions[1..]);
    }
  }

  /** The names os.ReadDir lists. */
  ghost predicate Lists(names: seq<string>, entries: set<string>) {
    forall name :: name in names <==> name in entries
  }

  /**
  Wherever the run stops: recovery recognises everything in its directory if and only if the run
  did not stop inside the write of the configuration, and removed the temporary file if that failed.
  */
  lemma CleanableExactly(s: State, temp: string, actions: seq<Action>, names: seq<string>)
    requires s == Fresh() && IsTemp(temp) && IsSchedule(s, temp, actions)
    requires Play(s, temp, actions).entries.Some? && Lists(names, Play(s, temp, actions).entries.value)
    ensures Recovery.AllAllowed(names) <==> !InWrite(Play(s, temp, actions))
  {
    InvAlongSchedule(s, temp, actions);
    TempIsForeign(temp);
    var t := Play(s, temp, actions);
    if InWrite(t) {
      assert temp in names;
    } else {
      assert forall i :: 0 <= i < |names| ==> names[i] in t.entries.value;
    }
  }

  /** Killed between the creation of the temporary file and its rename. */
  lemma KilledInsideTheWrite(temp: string) returns (actions: seq<Action>)
    requires IsTemp(temp)
    ensures IsSchedule(Fresh(), temp, actions)
    ensures Play(Fresh(), temp, actions) == State(Some({"rootfs.ext4", temp}), RenameTemp, false, false)
  {
    actions := [Proceed, Proceed, Proceed, Proceed, Die];
    var s1 := State(Some({}), OpenPartial, true, false);
    var s2 := State(Some({"rootfs.ext4.partial"}), RenamePartial, true, false);
    var s3 := State(Some({"rootfs.ext4"}), OpenTemp, true, false);
    var s4 := State(Some({"rootfs.ext4", temp}), RenameTemp, true, false);
    var none: set<string> := {};
    assert none - {} + {"rootfs.ext4.partial"} == {"rootfs.ext4.partial"};
    assert {"rootfs.ext4.partial"} - {"rootfs.ext4.partial"} + {"rootfs.ext4"} == {"rootfs.ext4"};
    assert {"rootfs.ext4"} - {} + {temp} == {"rootfs.ext4", temp};
    PlayFirst(s4, temp, actions[4..], s4.(alive := false));
    PlayFirst(s3, temp, actions[3..], s4);
    PlayFirst(s2, temp, actions[2..], s3);
    PlayFirst(s1, temp, actions[1..], s2);
    PlayFirst(Fresh(), temp, actions, s1);
  }

  lemma PlayFirst(s: State, temp: string, actions: seq<Action>, t: State)
    requires actions != [] && Enabled(s, actions[0]) && Next(s, temp, actions[0]) == t
    requires IsSchedule(t, temp, actions[1..])
    ensures IsSchedule(s, temp, actions) && Play(s, temp, actions) == Play(t, temp, actions[1..])
  {
  }

  /** ... and such a run is never cleaned and never admitted past, whatever is tried. */
  method NeverCleaned(temp: string, attempts: seq<Recovery.Attempt>)
    returns (s: Recovery.Store, outcomes: seq<Recovery.Outcome>)
    requires IsTemp(temp)
    ensures |outcomes| == |attempts| && forall i :: 0 <= i < |outcomes| ==> !outcomes[i].Recovered?
    ensures fresh(s) && s.runtime == Some(["rootfs.ext4", temp])
    ensures !Recovery.Admitted(s.id, s.manifest, s.report, s.runtime)
  {
    TempIsForeign(temp);
    s := new Recovery.Store(1, Recovery.ManifestFile(0, "PREPARING", false, "INCOMPLETE"), Recovery.Missing,
                            Some(["rootfs.ext4", temp]));
    assert !Recovery.AllowedEntry(s.runtime.value[1]);
    outcomes := s.RetryUnsound(attempts);
  }
}
