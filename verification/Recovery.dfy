/**
Applied recovery of one run (internal/engine/recover.go), as the sequence of its
durable effects: files removed one at a time, the directory, the manifest, the
report. Recovery may die before any of them and be started again.
*/
module Recovery {
  import opened Common

  const MAX_REPORT: nat := 2 * 1024 * 1024

  datatype Report = Report(
    runId: nat, execution: string, assertion: string, cleanup: string, stage: string, results: seq<string>)

  /** report.json: missing, present but not decodable, or a document of `size` bytes. */
  datatype ReportFile = Missing | Garbled | Document(report: Report, size: nat)

  datatype ManifestFile = ManifestFile(boot: nat, stage: string, process: bool, cleanup: string)

  datatype Removal = Removed | Retained | Died

  datatype Outcome = Crashed | Refused | Inspected | Recovered(report: Report)

  /** A report as ReadReport returns it, and whether it came from report.json. */
  datatype Reading = Reading(report: Report, saved: bool)

  predicate ValidOutcomes(r: Report) {
    && (r.execution == "COMPLETED" || r.execution == "ERROR" || r.execution == "CANCELLED" ||
        r.execution == "INTERRUPTED")
    && (r.assertion == "PASS" || r.assertion == "FAIL" || r.assertion == "NOT_EVALUATED")
    && (r.cleanup == "COMPLETE" || r.cleanup == "INCOMPLETE")
    && (r.execution == "COMPLETED" && r.assertion == "PASS" ==>
          r.results != [] && forall i :: 0 <= i < |r.results| ==> r.results[i] == "PASS")
  }

  predicate AllowedEntry(name: string) {
    name == "rootfs.ext4" || name == "rootfs.ext4.partial" || name == "firecracker.json" || name == "vsock.sock"
  }

  predicate AllAllowed(names: seq<string>) {
    forall i :: 0 <= i < |names| ==> AllowedEntry(names[i])
  }

  function ReadReport(id: nat, m: ManifestFile, f: ReportFile): Option<Reading> {
    match f
    case Missing => Some(Reading(Report(id, "INTERRUPTED", "NOT_EVALUATED", m.cleanup, m.stage, []), false))
    case Garbled => None
    case Document(r, size) =>
      if size > MAX_REPORT || r.runId != id || r.stage != "FINISHED" || !ValidOutcomes(r) then None
      else Some(Reading(r, true))
  }

  /** admit's condition on one evidence entry and its runtime directory. */
  predicate Admitted(id: nat, m: ManifestFile, f: ReportFile, runtime: Option<seq<string>>) {
    && runtime == None
    && var r := ReadReport(id, m, f);
    && r.Some? && r.value.saved && r.value.report.cleanup == "COMPLETE"
  }

  /** The execution and assertion outcome a recovery of this evidence must report. */
  function Verdict(f: ReportFile): (string, string) {
    if f.Document? then (f.report.execution, f.report.assertion) else ("INTERRUPTED", "NOT_EVALUATED")
  }

  /** No live VMM is possible: the recorded process, the boot, or the stage says so. */
  predicate NothingCanLive(m: ManifestFile, boot: nat) {
    m.boot != boot || m.stage == "VALIDATING" || m.stage == "PREPARING" || m.cleanup == "COMPLETE"
  }

  /** The inspections a recovery will see, and whether StopOwned succeeds. */
  datatype Host = Host(boot: nat, first: Inspection, stopped: bool, second: Inspection)

  predicate MayClean(m: ManifestFile, h: Host) {
    if m.process then h.first == Gone || (h.first == Alive && h.stopped && h.second == Gone)
    else NothingCanLive(m, h.boot)
  }

  function RecoveredReport(r: Reading): Report {
    var outcome := if r.saved then r.report else r.report.(execution := "INTERRUPTED", assertion := "NOT_EVALUATED");
    outcome.(cleanup := "COMPLETE", stage := "FINISHED")
  }

  lemma RecoveredReportIsValid(id: nat, m: ManifestFile, f: ReportFile)
    requires ReadReport(id, m, f).Some?
    ensures ValidOutcomes(RecoveredReport(ReadReport(id, m, f).value))
  {
  }

  class Store {
    const id: nat
    var manifest: ManifestFile
    var report: ReportFile
    var runtime: Option<seq<string>>

    constructor (id: nat, manifest: ManifestFile, report: ReportFile, runtime: Option<seq<string>>)
      ensures this.id == id && this.manifest == manifest && this.report == report && this.runtime == runtime
    {
      this.id, this.manifest, this.report, this.runtime := id, manifest, report, runtime;
    }

    /** How many durable effects a complete application still needs. */
    function Remaining(): nat
      reads this
    {
      (if runtime.Some? then |runtime.value| + 1 else 0) + 2
    }

    /** Nothing foreign in the runtime directory, and a report, if any, that can be read. */
    predicate Sound()
      reads this
    {
      (runtime.Some? ==> AllAllowed(runtime.value)) && ReadReport(id, manifest, report).Some?
    }

    /** The application can run to its end, given time. */
    predicate Recoverable(h: Host, encoded: nat)
      reads this
    {
      MayClean(manifest, h) && Sound() && encoded <= MAX_REPORT
    }

    /** A dry run reports that cleanup is possible; otherwise manual review is required. */
    predicate ReportsCleanable(h: Host)
      reads this
    {
      if manifest.process then h.first != Foreign else NothingCanLive(manifest, h.boot)
    }

    /** removeOwnedRuntime with `budget` effects left; `left` of them remain on return. */
    method RemoveOwnedRuntime(budget: nat) returns (o: Removal, left: nat)
      modifies this`runtime
      ensures o == Retained <==> old(runtime.Some?) && !old(AllAllowed(runtime.value))
      ensures o == Retained ==> runtime == old(runtime)
      ensures o == Removed ==> runtime == None && left + old(Remaining()) == budget + 2
      ensures o == Died ==>
                old(runtime.Some?) && budget <= |old(runtime).value| && runtime == Some(old(runtime).value[budget..])
    {
      if runtime == None { return Removed, budget; }
      var entries := runtime.value;
      var i := 0;
      while i < |entries|
        invariant 0 <= i <= |entries|
        invariant AllAllowed(entries[..i])
      {
        if !AllowedEntry(entries[i]) { return Retained, budget; }
        i := i + 1;
      }
      assert entries[..|entries|] == entries;
      left := budget;
      i := 0;
      while i < |entries|
        invariant 0 <= i <= |entries|
        invariant runtime == Some(entries[i..])
        invariant left == budget - i
      {
        if left == 0 { return Died, 0; }
        runtime := Some(runtime.value[1..]);
        left := left - 1;
        i := i + 1;
      }
      if left == 0 { return Died, 0; }
      runtime := None;
      return Removed, left - 1;
    }

    /**
    One application (or dry run) that dies once `budget` durable effects are spent.
    `encoded` is the length of the re-encoded report without its newline.
    */
    method Recover(apply: bool, h: Host, encoded: nat, budget: nat) returns (o: Outcome)
      modifies this`runtime, this`manifest, this`report
      // Refusals and dry runs touch nothing.
      ensures !apply ==> unchanged(this) && o == (if old(ReportsCleanable(h)) then Inspected else Refused)
      ensures !old(MayClean(manifest, h)) || old(runtime.Some? && !AllAllowed(runtime.value)) ==>
                unchanged(this) && (apply ==> o == Refused)
      // The verdict, and the permission to clean, survive every crash.
      ensures Verdict(report) == old(Verdict(report))
      ensures manifest == old(manifest) || manifest == old(manifest).(cleanup := "COMPLETE", stage := "FINISHED")
      ensures forall g: Host :: old(MayClean(manifest, g)) ==> MayClean(manifest, g)
      // A store that is not sound stays as it is, but for recognised files that are removed.
      ensures !old(Sound()) ==> !o.Recovered? && !Sound() && report == old(report) && manifest == old(manifest)
      // Whatever fails, a sound store stays sound, and no effect has to be done twice.
      ensures old(Sound()) && !o.Recovered? ==> Sound()
      ensures Remaining() <= old(Remaining())
      // An application succeeds exactly when it may clean and is given its effects.
      ensures o.Recovered? <==> apply && old(Recoverable(h, encoded)) && budget >= old(Remaining())
      ensures apply && old(Recoverable(h, encoded)) && budget < old(Remaining()) ==>
                && o == Crashed
                && Recoverable(h, encoded)
                && Remaining() == (if old(Remaining()) - budget > 2 then old(Remaining()) - budget else 2)
      ensures o.Recovered? ==>
                && runtime == None
                && manifest == old(manifest).(cleanup := "COMPLETE", stage := "FINISHED")
                && report == Document(o.report, encoded + 1)
                && o.report.runId == id && o.report.cleanup == "COMPLETE" && o.report.stage == "FINISHED"
                && (o.report.execution, o.report.assertion) == old(Verdict(report))
                && (old(report.Document?) ==> o.report == old(report).report.(cleanup := "COMPLETE"))
                // The file is one byte longer than what was measured against the limit.
                && (Admitted(id, manifest, report, runtime) <==> encoded < MAX_REPORT)
    {
      if manifest.process {
        if h.first == Foreign { return Refused; }
      } else if !NothingCanLive(manifest, h.boot) {
        return Refused;
      }
      if !apply { return Inspected; }
      if manifest.process && h.first == Alive {
        if !h.stopped || h.second != Gone { return Refused; }
      }
      var removal, left := RemoveOwnedRuntime(budget);
      if removal == Retained { return Refused; }
      if removal == Died { return Crashed; }
      var reading := ReadReport(id, manifest, report);
      if reading == None { return Refused; }
      var r := RecoveredReport(reading.value);
      RecoveredReportIsValid(id, manifest, report);
      if left == 0 { return Crashed; }
      manifest := manifest.(cleanup := "COMPLETE", stage := "FINISHED");
      if encoded > MAX_REPORT { return Refused; }
      if left == 1 { return Crashed; }
      report := Document(r, encoded + 1);
      return Recovered(r);
    }

    /**
    Any attempts, each dry or applied, under hosts of their own, refused, dying somewhere or with
    a report that encodes too long, until one succeeds. The last is given what it needs.
    */
    method RecoverThroughCrashes(attempts: seq<Attempt>) returns (o: Outcome, i: nat)
      requires attempts != [] && Sound()
      requires var last := attempts[|attempts| - 1];
               last.apply && MayClean(manifest, last.host) && last.encoded <= MAX_REPORT && last.budget >= Remaining()
      modifies this`runtime, this`manifest, this`report
      ensures o.Recovered? && i < |attempts| && attempts[i].apply
      ensures runtime == None
      ensures manifest == old(manifest).(cleanup := "COMPLETE", stage := "FINISHED")
      ensures report == Document(o.report, attempts[i].encoded + 1)
      ensures (o.report.execution, o.report.assertion) == old(Verdict(report))
      ensures Admitted(id, manifest, report, runtime) <==> attempts[i].encoded < MAX_REPORT
    {
      i := 0;
      while true
        invariant i < |attempts| && Sound() && Remaining() <= old(Remaining())
        invariant forall h: Host :: old(MayClean(manifest, h)) ==> MayClean(manifest, h)
        invariant Verdict(report) == old(Verdict(report))
        invariant manifest == old(manifest) || manifest == old(manifest).(cleanup := "COMPLETE", stage := "FINISHED")
        decreases |attempts| - i
      {
        var a := attempts[i];
        o := Recover(a.apply, a.host, a.encoded, a.budget);
        if o.Recovered? { return; }
        i := i + 1;
      }
    }

    /** Every further attempt on a store that is not sound leaves it so: none recovers, and no run is admitted. */
    method RetryUnsound(attempts: seq<Attempt>) returns (outcomes: seq<Outcome>)
      requires !Sound()
      modifies this`runtime, this`manifest, this`report
      ensures |outcomes| == |attempts| && forall i :: 0 <= i < |outcomes| ==> !outcomes[i].Recovered?
      ensures !Sound() && report == old(report) && manifest == old(manifest)
      ensures old(runtime.Some? && !AllAllowed(runtime.value)) ==> runtime == old(runtime)
      ensures !Admitted(id, manifest, report, runtime)
    {
      outcomes := [];
      for i := 0 to |attempts|
        invariant |outcomes| == i && forall j :: 0 <= j < i ==> !outcomes[j].Recovered?
        invariant !Sound() && report == old(report) && manifest == old(manifest)
        invariant old(runtime.Some? && !AllAllowed(runtime.value)) ==> runtime == old(runtime)
      {
        var o := Recover(attempts[i].apply, attempts[i].host, attempts[i].encoded, attempts[i].budget);
        outcomes := outcomes + [o];
      }
    }
  }

  datatype Attempt = Attempt(apply: bool, host: Host, encoded: nat, budget: nat)

  /**
  A recovery that succeeds and leaves its run refused for good: its encoding is exactly 2 MiB, the
  file one byte longer, and no further attempt can read it.
  */
  method RecoveredButNotAdmitted(attempts: seq<Attempt>) returns (s: Store, o: Outcome, later: seq<Outcome>)
    ensures |later| == |attempts| && forall i :: 0 <= i < |later| ==> !later[i].Recovered?
    ensures fresh(s) && o.Recovered? && s.report == Document(o.report, MAX_REPORT + 1)
    ensures !Admitted(s.id, s.manifest, s.report, s.runtime)
  {
    s := new Store(1, ManifestFile(0, "PREPARING", false, "INCOMPLETE"), Missing, None);
    o := s.Recover(true, Host(0, Gone, true, Gone), MAX_REPORT, 2);
    later := s.RetryUnsound(attempts);
  }
}
