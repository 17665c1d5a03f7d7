/**
From steps to verdict: the step loop (internal/engine/run.go:204-277), the outcome and
cleanup logic after it (internal/engine/run.go:289-390) and the exit code
(internal/engine/types.go:58-75). Everything that can go wrong outside this logic is an
environment value.
*/
module Verdict {
  import opened Common
  import opened Results
  import Assertions
  import Json
  import Recovery
  import Scenario

  const MAX_OBSERVATION: nat := 1024 * 1024

  /** The loop meets nothing that stops it. */
  ghost predicate Smooth(assertions: seq<Assertion>, steps: seq<Scenario.Step>, envs: seq<StepEnv>)
    requires |steps| == |envs|
  {
    AllFine(Owed(assertions, steps, envs), |steps|) && Total(Owed(assertions, steps, envs), |steps|) <= MAX_OBSERVATION
  }

  lemma PrefixOfPrefix<T>(a: seq<T>, b: seq<T>, c: seq<T>)
    requires a <= b <= c
    ensures a <= c
  {
  }

  method Select(assertions: seq<Assertion>, step: string) returns (selected: seq<Assertion>)
    ensures selected == Selected(assertions, step)
  {
    selected := [];
    for i := 0 to |assertions|
      invariant selected == Selected(assertions[..i], step)
    {
      assert assertions[..i + 1][..i] == assertions[..i];
      if assertions[i].step == step { selected := selected + [assertions[i]]; }
    }
    assert assertions[..|assertions|] == assertions;
  }

  /** What the decoder gave: the expected values, and the step's observation. */
  ghost predicate Decoded(assertions: seq<Assertion>, e: StepEnv) {
    && (forall i :: 0 <= i < |assertions| && assertions[i].value.Given? ==> Json.Decoded(assertions[i].value.json))
    && (e.observation.Some? ==> Json.Decoded(e.observation.value))
  }

  /** ... for the first n steps. */
  ghost predicate DecodedBy(assertions: seq<Assertion>, envs: seq<StepEnv>, n: nat)
    requires n <= |envs|
  {
    n == 0 || (DecodedBy(assertions, envs, n - 1) && Decoded(assertions, envs[n - 1]))
  }

  lemma {:induction false} DecodedAt(assertions: seq<Assertion>, envs: seq<StepEnv>, i: nat, n: nat)
    requires i < n <= |envs| && DecodedBy(assertions, envs, n)
    ensures Decoded(assertions, envs[i])
  {
    if i < n - 1 { DecodedAt(assertions, envs, i, n - 1); }
  }

  /** Evaluate on the assertions of a step gives the results owed, up to the first it cannot judge. */
  method EvaluateSelected(assertions: seq<Assertion>, selected: seq<Assertion>, step: string, e: StepEnv,
                          ghost judge: Judge)
    returns (judged: seq<AssertionResult>, failed: bool)
    requires selected == Selected(assertions, step) && Decoded(assertions, e) && judge == Judging(step, e)
    ensures |judged| <= |selected| && (failed <==> |judged| < |selected|)
    ensures forall i :: 0 <= i < |judged| ==> judge(selected[i]).Some? && judged[i] == ResultFor(selected[i], judge)
    ensures failed ==> judge(selected[|judged|]).None?
  {
    SelectedAre(assertions, step);
    assert forall i :: 0 <= i < |selected| ==> selected[i] in assertions;
    judged, failed := Assertions.Evaluate(selected, map[step := e.observation]);
  }

  // ---- The step loop -------------------------------------------------------------------

  class Run {
    var results: seq<AssertionResult>
    var observationBytes: nat

    constructor ()
      ensures results == [] && observationBytes == 0
    {
      results, observationBytes := [], 0;
    }

    /** The assertions of one step, judged and counted; false if one cannot be, or at the quota. */
    method EvaluateStep(assertions: seq<Assertion>, step: Scenario.Step, e: StepEnv, ghost judge: Judge)
      returns (ok: bool)
      requires observationBytes <= MAX_OBSERVATION && Decoded(assertions, e) && judge == Judging(step.id, e)
      modifies this
      ensures results <= old(results) + ResultsAbout(assertions, step.id, judge)
      ensures ok <==>
                && AllJudged(Selected(assertions, step.id), judge)
                && old(observationBytes) + BytesAbout(assertions, step.id, e.bytes) <= MAX_OBSERVATION
      ensures ok ==> results == old(results) + ResultsAbout(assertions, step.id, judge)
      ensures ok ==> observationBytes == old(observationBytes) + BytesAbout(assertions, step.id, e.bytes)
    {
      var selected := Select(assertions, step.id);
      var judged, failed := EvaluateSelected(assertions, selected, step.id, e, judge);
      var fits := Append(selected, judged, e.bytes, judge);
      return fits && !failed;
    }

    /** The loop over the results of Evaluate, which stops at the quota. */
    method Append(selected: seq<Assertion>, judged: seq<AssertionResult>, bytes: Assertion -> nat, ghost judge: Judge)
      returns (ok: bool)
      requires observationBytes <= MAX_OBSERVATION && |judged| <= |selected|
      requires forall i :: 0 <= i < |judged| ==> judged[i] == ResultFor(selected[i], judge)
      modifies this
      ensures results <= old(results) + ResultsOf(selected, judge, |selected|)
      ensures ok <==> old(observationBytes) + BytesOf(selected, bytes, |judged|) <= MAX_OBSERVATION
      ensures ok ==> results == old(results) + ResultsOf(selected, judge, |judged|)
      ensures ok ==> observationBytes == old(observationBytes) + BytesOf(selected, bytes, |judged|)
      ensures BytesOf(selected, bytes, |judged|) <= BytesOf(selected, bytes, |selected|)
    {
      OfPrefix(selected, judge, bytes, |judged|, |selected|);
      for i := 0 to |judged|
        invariant results == old(results) + ResultsOf(selected, judge, i)
        invariant observationBytes == old(observationBytes) + BytesOf(selected, bytes, i) <= MAX_OBSERVATION
      {
        OfPrefix(selected, judge, bytes, i, |selected|);
        OfPrefix(selected, judge, bytes, i + 1, |judged|);
        observationBytes := observationBytes + bytes(selected[i]);
        if observationBytes > MAX_OBSERVATION { return false; }
        results := results + [judged[i]];
      }
      return true;
    }

    method ExecuteStep(assertions: seq<Assertion>, step: Scenario.Step, e: StepEnv) returns (ok: bool)
      requires observationBytes <= MAX_OBSERVATION && Decoded(assertions, e)
      modifies this
      ensures results <= old(results) + StepResults(assertions, step, e)
      ensures ok <==>
                && StepFine(assertions, step, e)
                && old(observationBytes) + StepBytes(assertions, step, e) <= MAX_OBSERVATION
      ensures ok ==> results == old(results) + StepResults(assertions, step, e)
      ensures ok ==> observationBytes == old(observationBytes) + StepBytes(assertions, step, e)
    {
      if !e.begins || !e.executed || !e.observed { return false; }
      observationBytes := observationBytes + e.rawBytes;
      if observationBytes > MAX_OBSERVATION { return false; }
      if !e.recorded { return false; }
      ok := EvaluateStep(assertions, step, e, Judging(step.id, e));
      if !ok { return; }
      if step.op == Scenario.ActionExec {
        results := results + [Assertions.AssertionResult(AutoId(step.id), step.id, e.exitCode == Want(step))];
      }
      return e.completed;
    }

    /** The loop over the steps: whatever fails, the results so far are the first of those owed. */
    method ExecuteSteps(assertions: seq<Assertion>, steps: seq<Scenario.Step>, envs: seq<StepEnv>) returns (ok: bool)
      requires |steps| == |envs| && results == [] && observationBytes == 0
      requires DecodedBy(assertions, envs, |envs|)
      modifies this
      ensures results <= OwedResults(assertions, steps, envs)
      ensures ok ==> results == OwedResults(assertions, steps, envs)
      ensures ok <==> Smooth(assertions, steps, envs)
    {
      ghost var owed := Owed(assertions, steps, envs);
      for i := 0 to |steps|
        invariant results == Joined(owed, i) && AllFine(owed, i)
        invariant observationBytes == Total(owed, i) <= MAX_OBSERVATION
      {
        ok := ExecuteAt(assertions, steps, envs, i, owed);
        if !ok {
          assert results <= Joined(owed, i + 1);
          WithinTheWhole(owed, i + 1, |steps|);
          PrefixOfPrefix(results, Joined(owed, i + 1), Joined(owed, |steps|));
          return;
        }
      }
      return true;
    }

    method ExecuteAt(
      assertions: seq<Assertion>, steps: seq<Scenario.Step>, envs: seq<StepEnv>, i: nat, ghost owed: seq<StepOwed>)
      returns (ok: bool)
      requires i < |steps| == |envs| && owed == Owed(assertions, steps, envs) && observationBytes <= MAX_OBSERVATION
      requires DecodedBy(assertions, envs, |envs|)
      modifies this
      ensures results <= old(results) + owed[i].results
      ensures ok <==> owed[i].fine && old(observationBytes) + owed[i].bytes <= MAX_OBSERVATION
      ensures ok ==> results == old(results) + owed[i].results
      ensures ok ==> observationBytes == old(observationBytes) + owed[i].bytes
    {
      OwedAt(assertions, steps, envs, i, |steps|);
      DecodedAt(assertions, envs, i, |envs|);
      ok := ExecuteStep(assertions, steps[i], envs[i]);
    }

    /** PASS unless some result failed. */
    method AssertionStatus() returns (status: Verdict)
      ensures status == if AllPass(results) then Pass else Fail
    {
      status := Pass;
      for i := 0 to |results|
        invariant status == if AllPass(results[..i]) then Pass else Fail
      {
        assert results[..i + 1] == results[..i] + [results[i]];
        if !results[i].pass { status := Fail; }
      }
      assert results[..|results|] == results;
    }

    /**
    The rest of the run after its steps: outcome, cleanup and publication. `o` is the outcome
    returned, `filed` the one written to report.json. They differ exactly if a completed run's
    report was renamed into place and the write then failed.
    */
    method Conclude(stepsOk: bool, f: RunEnv) returns (o: Outcome, filed: Option<Outcome>)
      requires f.prepared ==> f.booted && f.ready
      requires stepsOk ==> f.prepared && results != []
      ensures filed.Some? <==> f.report != Lost
      ensures filed.Some? ==> o == (if f.report == Saved then filed.value else Demote(filed.value))
      ensures filed.Some? ==> (o != filed.value <==> f.report == Unsure && CompletedBy(stepsOk, f))
      ensures filed.Some? ==> forall id :: Recovery.ValidOutcomes(ReportOf(id, filed.value, results))
      ensures filed.Some? ==> (filed.value.execution == Completed <==> CompletedBy(stepsOk, f))
      ensures o.execution == Completed <==> CompletedBy(stepsOk, f) && f.report == Saved
      ensures o.execution == Cancelled <==> f.cancelled || f.cancelledLate
      ensures o.assertion ==
              if !(stepsOk && f.ended && !f.vmmExited) then NotEvaluated else if AllPass(results) then Pass else Fail
      ensures o.cleaned <==> (!f.booted || f.stopped) && f.removed
      ensures ExitCode(o) == 0 <==> stepsOk && AllPass(results) && AllWell(f)
    {
      var execution, assertion := Errored, NotEvaluated;
      if stepsOk && f.ended && !(f.booted && f.vmmExited) {
        execution := Completed;
        assertion := AssertionStatus();
      } else if f.cancelled {
        execution := Cancelled;
      }
      var cleaned;
      execution, cleaned := CleanUp(execution, f);
      o := Outcome(execution, assertion, cleaned);
      filed := if f.report == Lost then None else Some(o);
      forall id ensures Recovery.ValidOutcomes(ReportOf(id, o, results)) { ReportOfIsValid(id, o, results); }
      if f.report != Saved { o := Demote(o); }
    }

    /** Each step of the cleanup is tried whatever the others came to. */
    static method CleanUp(before: Execution, f: RunEnv) returns (execution: Execution, cleaned: bool)
      ensures execution ==
              if f.cancelled || f.cancelledLate then Cancelled else if CleanupWell(f) then before else Demoted(before)
      ensures cleaned <==> (!f.booted || f.stopped) && f.removed
    {
      execution, cleaned := before, false;
      if !f.cleaning { execution := Demoted(execution); }
      if f.ready && !f.shutdown { execution := Demoted(execution); }
      var dead := !f.booted;
      if f.booted && f.stopped { dead := true; }
      if !f.observed { execution := Demoted(execution); }
      if dead && f.removed { cleaned := true; }
      if !f.finished { execution := Demoted(execution); }
      if !f.closed { execution := Demoted(execution); }
      if !f.recorder { execution := Demoted(execution); }
      if f.cancelled || f.cancelledLate { execution := Cancelled; }
    }

    /** A whole run of a scenario that Validate accepts. */
    method Execute(d: Scenario.Document, envs: seq<StepEnv>, f: RunEnv) returns (o: Outcome, filed: Option<Outcome>)
      requires Scenario.Acceptable(d) && |envs| == |Scenario.Resolved(d).steps|
      requires DecodedBy(d.assertions, envs, |envs|)
      requires results == [] && observationBytes == 0
      requires f.prepared ==> f.booted && f.ready
      modifies this
      ensures results <= OwedResults(d.assertions, Scenario.Resolved(d).steps, envs)
      ensures o.execution == Completed || (filed.Some? && filed.value.execution == Completed) ==>
                results == OwedResults(d.assertions, Scenario.Resolved(d).steps, envs)
      ensures filed.Some? ==> forall id :: Recovery.ValidOutcomes(ReportOf(id, filed.value, results))
      ensures ExitCode(o) == 0 <==>
                && f.prepared && Smooth(d.assertions, Scenario.Resolved(d).steps, envs) && AllWell(f)
                && forall i :: 0 <= i < |envs| ==> StepHolds(d.assertions, Scenario.Resolved(d).steps[i], envs[i])
      ensures ExitCode(o) == 0 ==> filed == Some(o) && o.cleaned
    {
      var stepsOk := false;
      if f.prepared { stepsOk := ExecuteSteps(d.assertions, Scenario.Resolved(d).steps, envs); }
      OneResultEach(d, envs);
      PassMeansHolds(d.assertions, Scenario.Resolved(d).steps, envs);
      o, filed := Conclude(stepsOk, f);
    }
  }

  // ---- Outcome ---------------------------------------------------------------------------

  /** What the rest of the run meets, in order; `report` is how the write of report.json ends. */
  datatype RunEnv = RunEnv(
    prepared: bool, booted: bool, ready: bool, ended: bool, vmmExited: bool, cancelled: bool, cleaning: bool,
    shutdown: bool, stopped: bool, observed: bool, removed: bool, finished: bool, closed: bool, recorder: bool,
    cancelledLate: bool, report: SaveOutcome)

  /** Nothing failed that takes COMPLETED back. */
  predicate CleanupWell(f: RunEnv) {
    f.cleaning && (f.ready ==> f.shutdown) && f.observed && f.finished && f.closed && f.recorder
  }

  /** The run is COMPLETED when its report is written. */
  predicate CompletedBy(stepsOk: bool, f: RunEnv) {
    stepsOk && f.ended && !f.vmmExited && CleanupWell(f) && !f.cancelled && !f.cancelledLate
  }

  predicate AllWell(f: RunEnv) {
    && f.ended && !f.vmmExited && !f.cancelled && !f.cancelledLate
    && CleanupWell(f) && f.stopped && f.removed && f.report == Saved
  }

  function Statuses(results: seq<AssertionResult>): seq<string> {
    seq(|results|, i requires 0 <= i < |results| => if results[i].pass then "PASS" else "FAIL")
  }

  lemma StatusesPass(results: seq<AssertionResult>)
    ensures AllPass(results) <==> forall i :: 0 <= i < |results| ==> Statuses(results)[i] == "PASS"
  {
    forall i | 0 <= i < |results| ensures results[i].pass <==> Statuses(results)[i] == "PASS" {
      assert "PASS"[0] != "FAIL"[0];
    }
  }

  datatype Execution = Completed | Errored | Cancelled

  datatype Verdict = Pass | Fail | NotEvaluated

  /** A report's three outcomes; `cleaned` is the cleanup status COMPLETE. */
  datatype Outcome = Outcome(execution: Execution, assertion: Verdict, cleaned: bool)

  /** A late failure takes COMPLETED back; it never hides an earlier one. */
  function Demoted(execution: Execution): Execution {
    if execution == Completed then Errored else execution
  }

  function Demote(o: Outcome): Outcome {
    o.(execution := Demoted(o.execution))
  }

  function ExitCode(o: Outcome): int {
    if !o.cleaned then 4
    else match o.execution
      case Cancelled => 130
      case Errored => 3
      case Completed => if o.assertion == Fail then 1 else if o.assertion == Pass then 0 else 3
  }

  /** The report as it is written to report.json. */
  function ReportOf(id: nat, o: Outcome, results: seq<AssertionResult>): Recovery.Report {
    Recovery.Report(
      id,
      match o.execution case Completed => "COMPLETED" case Errored => "ERROR" case Cancelled => "CANCELLED",
      match o.assertion case Pass => "PASS" case Fail => "FAIL" case NotEvaluated => "NOT_EVALUATED",
      if o.cleaned then "COMPLETE" else "INCOMPLETE", "FINISHED", Statuses(results))
  }

  lemma ReportOfIsValid(id: nat, o: Outcome, results: seq<AssertionResult>)
    requires o.execution == Completed && o.assertion == Pass ==> results != [] && AllPass(results)
    ensures Recovery.ValidOutcomes(ReportOf(id, o, results))
  {
    StatusesPass(results);
    assert "ERROR"[0] != "COMPLETED"[0] && "CANCELLED"[1] != "COMPLETED"[1];
    assert "FAIL"[0] != "PASS"[0] && "NOT_EVALUATED"[0] != "PASS"[0];
  }

  /** A run that went well but for the sync after its report's rename. */
  method FiledAndReturnedDiffer(results: seq<AssertionResult>) returns (o: Outcome, filed: Option<Outcome>)
    requires results != [] && AllPass(results)
    ensures filed == Some(Outcome(Completed, Pass, true)) && o == Outcome(Errored, Pass, true)
  {
    var run := new Run();
    run.results := results;
    o, filed := run.Conclude(true,
        RunEnv(true, true, true, true, false, false, true, true, true, true, true, true, true, true, false, Unsure));
  }
}
