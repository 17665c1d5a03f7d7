/**
The results a run owes: one per assertion about a step, in the order of the steps, and one
for the exit code of each action (internal/engine/run.go:243-273). What the results mean,
and that there is exactly one of each.
*/
module Results {
  import opened Common
  import Assertions
  import Json
  import Scenario

  type Assertion = Assertions.Assertion
  type AssertionResult = Assertions.AssertionResult

  /** Whether an assertion holds of a step's observation; None if it cannot be judged. */
  type Judge = Assertion -> Option<bool>

  /**
  What happens around one step, in the order the loop meets it. `observation` is the step's
  result, and `bytes` the length of the value each assertion sees in it.
  */
  datatype StepEnv = StepEnv(
    begins: bool, executed: bool, observed: bool, rawBytes: nat, recorded: bool,
    observation: Option<Json.Json>, bytes: Assertion -> nat, exitCode: int, completed: bool)

  /** What Evaluate comes to on the step's observation. */
  ghost function Judging(step: string, e: StepEnv): Judge {
    (a: Assertion) => Assertions.Judged(a, map[step := e.observation])
  }

  function AutoId(step: string): string {
    "auto:" + step + ":exit_code"
  }

  function Want(s: Scenario.Step): int {
    if s.exitCode.Some? then s.exitCode.value else 0
  }

  // ---- One step ----------------------------------------------------------------------------

  function Selected(assertions: seq<Assertion>, step: string): seq<Assertion> {
    if assertions == [] then []
    else
      var last := assertions[|assertions| - 1];
      Selected(assertions[..|assertions| - 1], step) + if last.step == step then [last] else []
  }

  function ResultFor(a: Assertion, judge: Judge): AssertionResult {
    Assertions.AssertionResult(a.id, a.step, judge(a) == Some(true))
  }

  /** The results of the first n selected assertions. */
  function ResultsOf(selected: seq<Assertion>, judge: Judge, n: nat): seq<AssertionResult>
    requires n <= |selected|
  {
    if n == 0 then [] else ResultsOf(selected, judge, n - 1) + [ResultFor(selected[n - 1], judge)]
  }

  function BytesOf(selected: seq<Assertion>, bytes: Assertion -> nat, n: nat): nat
    requires n <= |selected|
  {
    if n == 0 then 0 else BytesOf(selected, bytes, n - 1) + bytes(selected[n - 1])
  }

  function ResultsAbout(assertions: seq<Assertion>, step: string, judge: Judge): seq<AssertionResult> {
    ResultsOf(Selected(assertions, step), judge, |Selected(assertions, step)|)
  }

  function BytesAbout(assertions: seq<Assertion>, step: string, bytes: Assertion -> nat): nat {
    BytesOf(Selected(assertions, step), bytes, |Selected(assertions, step)|)
  }

  predicate AllJudged(selected: seq<Assertion>, judge: Judge) {
    forall i :: 0 <= i < |selected| ==> judge(selected[i]).Some?
  }

  /** An action also owes a result on its exit code. */
  function ExitResults(s: Scenario.Step, e: StepEnv): seq<AssertionResult> {
    if s.op == Scenario.ActionExec then [Assertions.AssertionResult(AutoId(s.id), s.id, e.exitCode == Want(s))] else []
  }

  ghost function StepResults(assertions: seq<Assertion>, s: Scenario.Step, e: StepEnv): seq<AssertionResult> {
    ResultsAbout(assertions, s.id, Judging(s.id, e)) + ExitResults(s, e)
  }

  ghost predicate StepFine(assertions: seq<Assertion>, s: Scenario.Step, e: StepEnv) {
    && e.begins && e.executed && e.observed && e.recorded && e.completed
    && AllJudged(Selected(assertions, s.id), Judging(s.id, e))
  }

  function StepBytes(assertions: seq<Assertion>, s: Scenario.Step, e: StepEnv): nat {
    e.rawBytes + BytesAbout(assertions, s.id, e.bytes)
  }

  lemma {:induction false} OfPrefix(selected: seq<Assertion>, judge: Judge, bytes: Assertion -> nat, i: nat, n: nat)
    requires i <= n <= |selected|
    ensures ResultsOf(selected, judge, i) <= ResultsOf(selected, judge, n)
    ensures BytesOf(selected, bytes, i) <= BytesOf(selected, bytes, n)
  {
    if i < n { OfPrefix(selected, judge, bytes, i, n - 1); }
  }

  // ---- All steps -----------------------------------------------------------------------------

  /** What one step owes, what it costs, and whether the loop goes on after it. */
  datatype StepOwed = StepOwed(results: seq<AssertionResult>, bytes: nat, fine: bool)

  ghost function Owing(assertions: seq<Assertion>, s: Scenario.Step, e: StepEnv): StepOwed {
    StepOwed(StepResults(assertions, s, e), StepBytes(assertions, s, e), StepFine(assertions, s, e))
  }

  /** ... for the first n steps. */
  ghost function OwedBy(
    assertions: seq<Assertion>, steps: seq<Scenario.Step>, envs: seq<StepEnv>, n: nat): (owed: seq<StepOwed>)
    requires n <= |steps| == |envs|
    ensures |owed| == n
  {
    if n == 0 then [] else OwedBy(assertions, steps, envs, n - 1) + [Owing(assertions, steps[n - 1], envs[n - 1])]
  }

  ghost function Owed(assertions: seq<Assertion>, steps: seq<Scenario.Step>, envs: seq<StepEnv>): (owed: seq<StepOwed>)
    requires |steps| == |envs|
    ensures |owed| == |steps|
  {
    OwedBy(assertions, steps, envs, |steps|)
  }

  lemma {:induction false} OwedAt(
    assertions: seq<Assertion>, steps: seq<Scenario.Step>, envs: seq<StepEnv>, i: nat, n: nat)
    requires i < n <= |steps| == |envs|
    ensures OwedBy(assertions, steps, envs, n)[i] == Owing(assertions, steps[i], envs[i])
  {
    if i < n - 1 { OwedAt(assertions, steps, envs, i, n - 1); }
  }

  /** The results of the first n steps in order, their bytes, and that none of them stops the loop. */
  function Joined(owed: seq<StepOwed>, n: nat): seq<AssertionResult>
    requires n <= |owed|
  {
    if n == 0 then [] else Joined(owed, n - 1) + owed[n - 1].results
  }

  function Total(owed: seq<StepOwed>, n: nat): nat
    requires n <= |owed|
  {
    if n == 0 then 0 else Total(owed, n - 1) + owed[n - 1].bytes
  }

  predicate AllFine(owed: seq<StepOwed>, n: nat)
    requires n <= |owed|
  {
    n == 0 || (AllFine(owed, n - 1) && owed[n - 1].fine)
  }

  lemma {:induction false} WithinTheWhole(owed: seq<StepOwed>, i: nat, n: nat)
    requires i <= n <= |owed|
    ensures Joined(owed, i) <= Joined(owed, n) && Total(owed, i) <= Total(owed, n)
    ensures AllFine(owed, n) ==> AllFine(owed, i)
  {
    if i < n { WithinTheWhole(owed, i, n - 1); }
  }

  /** What the whole run owes. */
  ghost function OwedResults(assertions: seq<Assertion>, steps: seq<Scenario.Step>, envs: seq<StepEnv>)
    : seq<AssertionResult>
    requires |steps| == |envs|
  {
    Joined(Owed(assertions, steps, envs), |steps|)
  }

  // ---- What passing means ----------------------------------------------------------------------

  predicate AllPass(results: seq<AssertionResult>) {
    forall i :: 0 <= i < |results| ==> results[i].pass
  }

  /** Every assertion about the step holds of its observation, and an action exited as wanted. */
  ghost predicate StepHolds(assertions: seq<Assertion>, s: Scenario.Step, e: StepEnv) {
    && (forall a :: a in assertions && a.step == s.id ==>
          Assertions.Judged(a, map[s.id := e.observation]) == Some(true))
    && (s.op == Scenario.ActionExec ==> e.exitCode == Want(s))
  }

  lemma AllPassAdds(a: seq<AssertionResult>, b: seq<AssertionResult>)
    ensures AllPass(a + b) <==> AllPass(a) && AllPass(b)
  {
    if AllPass(a + b) {
      assert forall i :: 0 <= i < |a| ==> a[i] == (a + b)[i];
      assert forall i :: 0 <= i < |b| ==> b[i] == (a + b)[|a| + i];
    }
  }

  lemma OnePasses(r: AssertionResult)
    ensures AllPass([r]) <==> r.pass
  {
    assert [r][0] == r;
  }

  lemma {:induction false} SelectedAre(assertions: seq<Assertion>, step: string)
    ensures forall a :: a in Selected(assertions, step) <==> a in assertions && a.step == step
  {
    if assertions != [] {
      var init, last := assertions[..|assertions| - 1], assertions[|assertions| - 1];
      SelectedAre(init, step);
      assert assertions == init + [last];
    }
  }

  lemma {:induction false} ResultsPass(selected: seq<Assertion>, judge: Judge, n: nat)
    requires n <= |selected|
    ensures AllPass(ResultsOf(selected, judge, n)) <==> forall i :: 0 <= i < n ==> judge(selected[i]) == Some(true)
  {
    if n > 0 {
      ResultsPass(selected, judge, n - 1);
      AllPassAdds(ResultsOf(selected, judge, n - 1), [ResultFor(selected[n - 1], judge)]);
      OnePasses(ResultFor(selected[n - 1], judge));
    }
  }

  lemma StepPasses(assertions: seq<Assertion>, s: Scenario.Step, e: StepEnv)
    ensures AllPass(StepResults(assertions, s, e)) <==> StepHolds(assertions, s, e)
  {
    var judge := Judging(s.id, e);
    assert forall a :: judge(a) == Assertions.Judged(a, map[s.id := e.observation]);
    StepPassesBy(assertions, s, e, judge);
  }

  lemma StepPassesBy(assertions: seq<Assertion>, s: Scenario.Step, e: StepEnv, judge: Judge)
    ensures AllPass(ResultsAbout(assertions, s.id, judge) + ExitResults(s, e)) <==>
            && (forall a :: a in assertions && a.step == s.id ==> judge(a) == Some(true))
            && (s.op == Scenario.ActionExec ==> e.exitCode == Want(s))
  {
    var selected := Selected(assertions, s.id);
    AllPassAdds(ResultsAbout(assertions, s.id, judge), ExitResults(s, e));
    ResultsPass(selected, judge, |selected|);
    SelectedAre(assertions, s.id);
    assert (forall a :: a in selected ==> judge(a) == Some(true)) <==>
           forall i :: 0 <= i < |selected| ==> judge(selected[i]) == Some(true);
    if s.op == Scenario.ActionExec { OnePasses(ExitResults(s, e)[0]); }
  }

  lemma {:induction false} JoinedPass(owed: seq<StepOwed>, n: nat)
    requires n <= |owed|
    ensures AllPass(Joined(owed, n)) <==> forall i :: 0 <= i < n ==> AllPass(owed[i].results)
  {
    if n > 0 {
      JoinedPass(owed, n - 1);
      AllPassAdds(Joined(owed, n - 1), owed[n - 1].results);
    }
  }

  /** All results pass if and only if every assertion holds of its step's observation, and exit codes fit. */
  lemma PassMeansHolds(assertions: seq<Assertion>, steps: seq<Scenario.Step>, envs: seq<StepEnv>)
    requires |steps| == |envs|
    ensures AllPass(OwedResults(assertions, steps, envs)) <==>
            forall i :: 0 <= i < |steps| ==> StepHolds(assertions, steps[i], envs[i])
  {
    var owed := Owed(assertions, steps, envs);
    JoinedPass(owed, |steps|);
    forall i | 0 <= i < |steps| ensures AllPass(owed[i].results) <==> StepHolds(assertions, steps[i], envs[i]) {
      OwedAt(assertions, steps, envs, i, |steps|);
      StepPasses(assertions, steps[i], envs[i]);
    }
  }

  // ---- Exactly one result per assertion and per action ---------------------------------------

  /** The IDs of the assertions about the given steps, in order. */
  function IdsAbout(assertions: seq<Assertion>, steps: set<string>): seq<string> {
    if assertions == [] then []
    else
      var last := assertions[|assertions| - 1];
      IdsAbout(assertions[..|assertions| - 1], steps) + if last.step in steps then [last.id] else []
  }

  function AutoIds(steps: seq<Scenario.Step>): seq<string> {
    if steps == [] then []
    else AutoIds(steps[..|steps| - 1]) + ExitId(steps[|steps| - 1])
  }

  function Ids(results: seq<AssertionResult>): seq<string> {
    if results == [] then [] else Ids(results[..|results| - 1]) + [results[|results| - 1].id]
  }

  function DeclaredIds(assertions: seq<Assertion>): seq<string> {
    if assertions == [] then [] else DeclaredIds(assertions[..|assertions| - 1]) + [assertions[|assertions| - 1].id]
  }

  lemma {:induction false} IdsAdd(a: seq<AssertionResult>, b: seq<AssertionResult>)
    ensures Ids(a + b) == Ids(a) + Ids(b)
  {
    if b == [] {
      assert a + b == a;
    } else {
      IdsAdd(a, b[..|b| - 1]);
      assert (a + b)[..|a + b| - 1] == a + b[..|b| - 1];
    }
  }

  lemma {:induction false} ResultIds(selected: seq<Assertion>, judge: Judge, n: nat)
    requires n <= |selected|
    ensures Ids(ResultsOf(selected, judge, n)) == DeclaredIds(selected[..n])
  {
    if n > 0 {
      ResultIds(selected, judge, n - 1);
      IdsAdd(ResultsOf(selected, judge, n - 1), [ResultFor(selected[n - 1], judge)]);
      OneId(ResultFor(selected[n - 1], judge));
      assert selected[..n][..n - 1] == selected[..n - 1];
    }
  }

  lemma {:induction false} SelectedIds(assertions: seq<Assertion>, step: string)
    ensures DeclaredIds(Selected(assertions, step)) == IdsAbout(assertions, {step})
  {
    if assertions != [] {
      var init, last := assertions[..|assertions| - 1], assertions[|assertions| - 1];
      SelectedIds(init, step);
      assert (Selected(init, step) + [last])[..|Selected(init, step)|] == Selected(init, step);
      assert Selected(init, step) + [] == Selected(init, step);
    }
  }

  lemma OneId(r: AssertionResult)
    ensures Ids([r]) == [r.id]
  {
    assert [r][..0] == [];
  }

  lemma {:induction false} IdsAboutSplit(assertions: seq<Assertion>, steps: set<string>, step: string)
    requires step !in steps
    ensures multiset(IdsAbout(assertions, steps + {step})) == multiset(IdsAbout(assertions, steps)) +
              multiset(IdsAbout(assertions, {step}))
  {
    if assertions != [] {
      IdsAboutSplit(assertions[..|assertions| - 1], steps, step);
    }
  }

  lemma {:induction false} IdsAboutAll(assertions: seq<Assertion>, steps: set<string>)
    requires forall i :: 0 <= i < |assertions| ==> assertions[i].step in steps
    ensures IdsAbout(assertions, steps) == DeclaredIds(assertions)
  {
    if assertions != [] { IdsAboutAll(assertions[..|assertions| - 1], steps); }
  }

  lemma {:induction false} IdsAboutNone(assertions: seq<Assertion>)
    ensures IdsAbout(assertions, {}) == []
  {
    if assertions != [] { IdsAboutNone(assertions[..|assertions| - 1]); }
  }

  function ExitId(s: Scenario.Step): seq<string> {
    if s.op == Scenario.ActionExec then [AutoId(s.id)] else []
  }

  lemma StepIds(before: seq<AssertionResult>, assertions: seq<Assertion>, s: Scenario.Step, e: StepEnv)
    ensures Ids(before + StepResults(assertions, s, e)) == Ids(before) + (IdsAbout(assertions, {s.id}) + ExitId(s))
  {
    IdsAdd(before, StepResults(assertions, s, e));
    var selected := Selected(assertions, s.id);
    IdsAdd(ResultsAbout(assertions, s.id, Judging(s.id, e)), ExitResults(s, e));
    ResultIds(selected, Judging(s.id, e), |selected|);
    assert selected[..|selected|] == selected;
    SelectedIds(assertions, s.id);
    if s.op == Scenario.ActionExec { OneId(ExitResults(s, e)[0]); }
  }

  function StepSet(steps: seq<Scenario.Step>): set<string> {
    if steps == [] then {} else StepSet(steps[..|steps| - 1]) + {steps[|steps| - 1].id}
  }

  predicate FreshIds(steps: seq<Scenario.Step>) {
    steps == [] || (steps[|steps| - 1].id !in StepSet(steps[..|steps| - 1]) && FreshIds(steps[..|steps| - 1]))
  }

  lemma {:induction false} DistinctIdsAreFresh(steps: seq<Scenario.Step>)
    ensures StepSet(steps) == Scenario.ById(steps).Keys
    ensures FreshIds(steps) <==> Scenario.DistinctIds(steps)
  {
    if steps != [] { DistinctIdsAreFresh(steps[..|steps| - 1]); }
  }

  lemma Regroup(
    before: seq<string>, about: seq<string>, auto: seq<string>, mentioned: multiset<string>, autos: multiset<string>)
    requires multiset(before) == mentioned + autos
    ensures multiset(before + (about + auto)) == (mentioned + multiset(about)) + (autos + multiset(auto))
  {
  }

  lemma ConcatCounts(a: seq<string>, b: seq<string>)
    ensures multiset(a + b) == multiset(a) + multiset(b)
  {
  }

  /** What one more step adds, to the IDs owed and to the IDs mentioned. */
  lemma OwedIdsNext(
    assertions: seq<Assertion>, before: seq<AssertionResult>, earlier: seq<Scenario.Step>, s: Scenario.Step, e: StepEnv)
    requires s.id !in StepSet(earlier)
    requires multiset(Ids(before)) == multiset(IdsAbout(assertions, StepSet(earlier))) + multiset(AutoIds(earlier))
    ensures multiset(Ids(before + StepResults(assertions, s, e))) ==
            multiset(IdsAbout(assertions, StepSet(earlier) + {s.id})) + multiset(AutoIds(earlier) + ExitId(s))
  {
    StepIds(before, assertions, s, e);
    Regroup(Ids(before), IdsAbout(assertions, {s.id}), ExitId(s), multiset(IdsAbout(assertions, StepSet(earlier))),
        multiset(AutoIds(earlier)));
    IdsAboutSplit(assertions, StepSet(earlier), s.id);
    ConcatCounts(AutoIds(earlier), ExitId(s));
  }

  lemma {:induction false} OwedIds(
    assertions: seq<Assertion>, steps: seq<Scenario.Step>, envs: seq<StepEnv>, owed: seq<StepOwed>, n: nat)
    requires n <= |steps| == |envs| == |owed| && FreshIds(steps[..n])
    requires forall i :: 0 <= i < |steps| ==> owed[i].results == StepResults(assertions, steps[i], envs[i])
    ensures multiset(Ids(Joined(owed, n))) ==
            multiset(IdsAbout(assertions, StepSet(steps[..n]))) + multiset(AutoIds(steps[..n]))
  {
    if n == 0 {
      IdsAboutNone(assertions);
    } else {
      assert steps[..n][..n - 1] == steps[..n - 1];
      OwedIds(assertions, steps, envs, owed, n - 1);
      OwedIdsNext(assertions, Joined(owed, n - 1), steps[..n - 1], steps[n - 1], envs[n - 1]);
    }
  }

  ghost predicate Once(s: seq<string>) {
    forall x :: multiset(s)[x] <= 1
  }

  lemma OnceMeans(s: seq<string>)
    requires Once(s)
    ensures forall i, j :: 0 <= i < j < |s| ==> s[i] != s[j]
  {
    forall i, j | 0 <= i < j < |s| ensures s[i] != s[j] {
      assert s == s[..j] + [s[j]] + s[j + 1..];
      assert s[..j][i] in multiset(s[..j]);
      assert multiset(s)[s[j]] == multiset(s[..j])[s[j]] + 1 + multiset(s[j + 1..])[s[j]];
    }
  }

  lemma {:induction false} DeclaredOnce(assertions: seq<Assertion>)
    requires forall i, j :: 0 <= i < j < |assertions| ==> assertions[i].id != assertions[j].id
    requires forall i :: 0 <= i < |assertions| ==> Scenario.Identifier(assertions[i].id)
    ensures Once(DeclaredIds(assertions)) && |DeclaredIds(assertions)| == |assertions|
    ensures forall i :: 0 <= i < |assertions| ==> DeclaredIds(assertions)[i] == assertions[i].id
    ensures forall x :: x in DeclaredIds(assertions) ==> ':' !in x
  {
    if assertions != [] {
      var init, last := assertions[..|assertions| - 1], assertions[|assertions| - 1];
      DeclaredOnce(init);
      assert last.id !in DeclaredIds(init);
      assert ':' !in last.id;
    }
  }

  lemma AutoIdsDiffer(a: string, b: string)
    requires AutoId(a) == AutoId(b)
    ensures a == b
  {
    assert AutoId(a)[5..|AutoId(a)| - 10] == a;
    assert AutoId(b)[5..|AutoId(b)| - 10] == b;
  }

  lemma {:induction false} AutosOnce(steps: seq<Scenario.Step>)
    requires FreshIds(steps)
    ensures Once(AutoIds(steps))
    ensures forall x :: x in AutoIds(steps) ==> ':' in x && exists id :: id in StepSet(steps) && x == AutoId(id)
  {
    if steps != [] {
      var init, last := steps[..|steps| - 1], steps[|steps| - 1];
      AutosOnce(init);
      assert AutoId(last.id)[4] == ':';
      if AutoId(last.id) in AutoIds(init) {
        var id :| id in StepSet(init) && AutoId(last.id) == AutoId(id);
        AutoIdsDiffer(last.id, id);
        assert false;
      }
    }
  }

  /**
  A completed run of a valid scenario holds exactly one result per declared assertion and one
  per action, all under different IDs.
  */
  lemma OneResultEach(d: Scenario.Document, envs: seq<StepEnv>)
    requires Scenario.Acceptable(d) && |envs| == |Scenario.Resolved(d).steps|
    ensures var steps := Scenario.Resolved(d).steps;
            var ids := Ids(OwedResults(d.assertions, steps, envs));
            && multiset(ids) == multiset(DeclaredIds(d.assertions)) + multiset(AutoIds(steps))
            && (forall i, j :: 0 <= i < j < |ids| ==> ids[i] != ids[j])
            && OwedResults(d.assertions, steps, envs) != []
  {
    var e, steps := Scenario.WithDefaults(d), Scenario.Resolved(d).steps;
    Scenario.VettingKeepsIds(e.timeoutMs);
    Scenario.CheckAllMeans(e.steps, Scenario.Vetting(e.timeoutMs));
    Scenario.AssertionsOkMeans(d.assertions, Scenario.Fitting(steps));
    forall i | 0 <= i < |d.assertions| ensures Scenario.Fits(d.assertions[i], steps) {
      assert Scenario.Fitting(steps)(d.assertions[i]);
    }
    DistinctIdsAreFresh(steps);
    ResultsAreOnce(d.assertions, steps, envs);
  }

  lemma UnionOnce(ids: seq<string>, declared: seq<string>, autos: seq<string>)
    requires multiset(ids) == multiset(declared) + multiset(autos) && declared != []
    requires Once(declared) && Once(autos) && forall x :: x in declared ==> x !in autos
    ensures Once(ids) && ids != []
  {
    forall x ensures multiset(ids)[x] <= 1 {
      if x in multiset(declared) {
        assert x in declared;
        assert x !in multiset(autos);
      }
    }
    assert declared[0] in multiset(ids);
  }

  lemma ResultsAreOnce(assertions: seq<Assertion>, steps: seq<Scenario.Step>, envs: seq<StepEnv>)
    requires |steps| == |envs| && FreshIds(steps) && assertions != []
    requires forall i, j :: 0 <= i < j < |assertions| ==> assertions[i].id != assertions[j].id
    requires forall i :: 0 <= i < |assertions| ==>
               Scenario.Identifier(assertions[i].id) && assertions[i].step in StepSet(steps)
    ensures var ids := Ids(OwedResults(assertions, steps, envs));
            && multiset(ids) == multiset(DeclaredIds(assertions)) + multiset(AutoIds(steps))
            && (forall i, j :: 0 <= i < j < |ids| ==> ids[i] != ids[j])
            && ids != []
  {
    var ids, declared, autos := Ids(OwedResults(assertions, steps, envs)), DeclaredIds(assertions), AutoIds(steps);
    assert steps[..|steps|] == steps;
    forall i | 0 <= i < |steps|
      ensures Owed(assertions, steps, envs)[i].results == StepResults(assertions, steps[i], envs[i])
    {
      OwedAt(assertions, steps, envs, i, |steps|);
    }
    OwedIds(assertions, steps, envs, Owed(assertions, steps, envs), |steps|);
    IdsAboutAll(assertions, StepSet(steps));
    DeclaredOnce(assertions);
    AutosOnce(steps);
    assert forall x :: x in declared ==> x !in autos;
    UnionOnce(ids, declared, autos);
    OnceMeans(ids);
  }
}
