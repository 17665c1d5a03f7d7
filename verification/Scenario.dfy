/**
Scenario validation (internal/scenario/scenario.go:150-380): defaults are filled in
place and the plan is replayed as a state machine of the guest. JSON texts and
RFC 3339 texts arrive parsed.
*/
module Scenario {
  import opened Common
  import Assertions
  import ResultPointer

  const MAX_INPUT: nat := 65536
  const MAX_STEPS: nat := 128
  const MAX_ASSERTIONS: nat := 128
  const MAX_TIMEOUT_MS: int := 600000
  const BILLION: int := 1000000000
  const EARLIEST: int := 631152000 * BILLION      // 1990-01-01T00:00:00Z
  const LATEST: int := 4102444800 * BILLION       // 2100-01-01T00:00:00Z

  predicate Alphanumeric(c: char) {
    'a' <= c <= 'z' || 'A' <= c <= 'Z' || '0' <= c <= '9'
  }

  predicate Identifier(s: string) {
    && 1 <= |s| <= 64 && Alphanumeric(s[0])
    && forall i :: 0 <= i < |s| ==> Alphanumeric(s[i]) || s[i] == '.' || s[i] == '_' || s[i] == '-'
  }

  predicate WorkloadIdentifier(s: string) {
    && 1 <= |s| <= 64 && Alphanumeric(s[0])
    && forall i :: 0 <= i < |s| ==> Alphanumeric(s[i]) || s[i] == '_' || s[i] == '-'
  }

  datatype Op = ClockRead | ClockSet | ActionExec | ServiceStart | ServiceStop | Wait | Unsupported

  datatype Field = FAt | FAction | FService | FInput | FTimeout | FDuration | FAllowLive | FTolerance | FExitCode

  /** An `at` text: absent, unusable, or an instant, written in UTC or with another offset. */
  datatype At = NoAt | BadAt | Instant(ns: int, utc: bool)

  datatype Input = NoInput | Input(size: nat, valid: bool)

  /** `present` are the optional fields the JSON text named. */
  datatype Step = Step(
    id: string, op: Op, present: set<Field>, at: At, action: string, service: string, input: Input,
    timeoutMs: int, durationMs: int, allowLive: bool, toleranceMs: int, exitCode: Option<int>)

  type Assertion = Assertions.Assertion

  // ---- One step -------------------------------------------------------------------

  function AllowedFields(op: Op): set<Field> {
    match op
    case ClockSet => {FAt, FAllowLive, FTolerance}
    case ActionExec => {FAction, FInput, FTimeout, FExitCode}
    case ServiceStart => {FService, FInput, FTimeout}
    case ServiceStop => {FService, FTimeout}
    case Wait => {FDuration}
    case _ => {}
  }

  /** Named in the text, or non-zero and so written out by `omitempty`. */
  predicate IsPresent(s: Step, f: Field) {
    || f in s.present
    || match f
       case FAt => s.at != NoAt
       case FAction => s.action != ""
       case FService => s.service != ""
       case FInput => s.input != NoInput
       case FTimeout => s.timeoutMs != 0
       case FDuration => s.durationMs != 0
       case FAllowLive => s.allowLive
       case FTolerance => s.toleranceMs != 0
       case FExitCode => s.exitCode.Some?
  }

  predicate FieldsFit(s: Step) {
    && (forall f :: IsPresent(s, f) ==> f in AllowedFields(s.op))
    && (IsPresent(s, FTimeout) ==> s.timeoutMs > 0)
    && (IsPresent(s, FDuration) ==> s.durationMs > 0)
    && (IsPresent(s, FTolerance) ==> s.toleranceMs > 0)
    && (s.input.Input? ==> s.input.size <= MAX_INPUT && s.input.valid)
  }

  function DefaultTimeout(s: Step, runTimeout: int): int {
    if s.timeoutMs != 0 then s.timeoutMs else if runTimeout < 5000 then runTimeout else 5000
  }

  predicate TimeoutFits(s: Step, runTimeout: int) {
    1 <= DefaultTimeout(s, runTimeout) <= runTimeout
  }

  /** Step.validate: the step with its defaults, or None. */
  function Normalize(s: Step, runTimeout: int): Option<Step> {
    if s.op == Unsupported || !FieldsFit(s) then None
    else match s.op
      case ClockSet =>
        if s.at.Instant? && EARLIEST <= s.at.ns < LATEST && s.toleranceMs <= 10000
        then Some(s.(at := Instant(s.at.ns, true), toleranceMs := if s.toleranceMs == 0 then 1000 else s.toleranceMs))
        else None
      case ActionExec =>
        if WorkloadIdentifier(s.action) && (s.exitCode.Some? ==> 0 <= s.exitCode.value <= 255) &&
            TimeoutFits(s, runTimeout)
        then Some(s.(timeoutMs := DefaultTimeout(s, runTimeout))) else None
      case ServiceStart =>
        if WorkloadIdentifier(s.service) && TimeoutFits(s, runTimeout)
        then Some(s.(timeoutMs := DefaultTimeout(s, runTimeout))) else None
      case ServiceStop =>
        if WorkloadIdentifier(s.service) && TimeoutFits(s, runTimeout)
        then Some(s.(timeoutMs := DefaultTimeout(s, runTimeout))) else None
      case Wait => if 0 < s.durationMs < runTimeout then Some(s) else None
      case _ => Some(s)
  }

  /** The identifier check and Step.validate, as the steps' loop applies them. */
  function Vet(s: Step, runTimeout: int): Option<Step> {
    if Identifier(s.id) then Normalize(s, runTimeout) else None
  }

  function Vetting(runTimeout: int): Step -> Option<Step> {
    s => Vet(s, runTimeout)
  }

  /** All the loop's bookkeeping needs of Step.validate. */
  ghost predicate KeepsIds(norm: Step -> Option<Step>) {
    forall s :: norm(s).Some? ==> norm(s).value.id == s.id
  }

  lemma VettingKeepsIds(runTimeout: int)
    ensures KeepsIds(Vetting(runTimeout))
  {
  }

  lemma NormalizeIsIdempotent(s: Step, runTimeout: int)
    requires Normalize(s, runTimeout).Some?
    ensures Normalize(Normalize(s, runTimeout).value, runTimeout) == Normalize(s, runTimeout)
  {
    var t := Normalize(s, runTimeout).value;
    assert forall f :: IsPresent(t, f) ==> IsPresent(s, f) || f == FTimeout || f == FTolerance;
  }

  lemma VettingIsIdempotent(runTimeout: int)
    ensures forall s :: Vetting(runTimeout)(s).Some? ==>
              Vetting(runTimeout)(Vetting(runTimeout)(s).value) == Vetting(runTimeout)(s)
  {
    forall s | Vetting(runTimeout)(s).Some?
      ensures Vetting(runTimeout)(Vetting(runTimeout)(s).value) == Vetting(runTimeout)(s)
    {
      NormalizeIsIdempotent(s, runTimeout);
    }
  }

  // ---- The plan -------------------------------------------------------------------

  /** The validator's `clockSet`, `services` and `waits`. */
  datatype PlanState = PlanState(clockSet: bool, services: set<string>, waits: int)

  function PlanStep(p: PlanState, s: Step): Option<PlanState> {
    match s.op
    case ClockSet => if p.services != {} && !s.allowLive then None else Some(p.(clockSet := true))
    case ActionExec => if p.clockSet then Some(p) else None
    case ServiceStart =>
      if !p.clockSet || s.service in p.services || |p.services + {s.service}| > 4 then None
      else Some(p.(services := p.services + {s.service}))
    case ServiceStop => if s.service in p.services then Some(p.(services := p.services - {s.service})) else None
    case Wait => Some(p.(waits := p.waits + s.durationMs))
    case _ => Some(p)
  }

  function PlanAfter(steps: seq<Step>): Option<PlanState> {
    if steps == [] then Some(PlanState(false, {}, 0))
    else match PlanAfter(steps[..|steps| - 1])
      case None => None
      case Some(p) => PlanStep(p, steps[|steps| - 1])
  }

  lemma {:induction false} PlanPrefix(steps: seq<Step>, j: nat)
    requires j <= |steps| && PlanAfter(steps).Some?
    ensures PlanAfter(steps[..j]).Some?
  {
    if j < |steps| {
      PlanPrefix(steps[..|steps| - 1], j);
      assert steps[..|steps| - 1][..j] == steps[..j];
    } else {
      assert steps[..j] == steps;
    }
  }

  /** Steps by ID, the last of equal IDs winning. */
  function ById(steps: seq<Step>): map<string, Step> {
    if steps == [] then map[] else ById(steps[..|steps| - 1])[steps[|steps| - 1].id := steps[|steps| - 1]]
  }

  predicate DistinctIds(steps: seq<Step>) {
    steps == [] || (steps[|steps| - 1].id !in ById(steps[..|steps| - 1]) && DistinctIds(steps[..|steps| - 1]))
  }

  lemma {:induction false} ByIdKeys(steps: seq<Step>)
    ensures forall i :: 0 <= i < |steps| ==> steps[i].id in ById(steps)
    ensures forall k :: k in ById(steps) ==> exists i :: 0 <= i < |steps| && steps[i].id == k
  {
    if steps != [] {
      var init := steps[..|steps| - 1];
      ByIdKeys(init);
      forall i | 0 <= i < |steps| ensures steps[i].id in ById(steps) {
        if i < |init| { assert init[i].id in ById(init); }
      }
      forall k | k in ById(steps) ensures exists i :: 0 <= i < |steps| && steps[i].id == k {
        if k in ById(init) {
          var i :| 0 <= i < |init| && init[i].id == k;
          assert steps[i].id == k;
        }
      }
    }
  }

  lemma {:induction false} DistinctIdsMeans(steps: seq<Step>)
    ensures DistinctIds(steps) <==> forall i, j :: 0 <= i < j < |steps| ==> steps[i].id != steps[j].id
    ensures DistinctIds(steps) ==> forall i :: 0 <= i < |steps| ==>
              steps[i].id in ById(steps) && ById(steps)[steps[i].id] == steps[i]
  {
    if steps != [] {
      var n := |steps| - 1;
      var init := steps[..n];
      DistinctIdsMeans(init);
      ByIdKeys(init);
      if DistinctIds(steps) {
        forall i, j | 0 <= i < j < |steps| ensures steps[i].id != steps[j].id {
          assert steps[i] == init[i];
          if j < n { assert steps[j] == init[j]; }
        }
        forall i | 0 <= i < |steps| ensures steps[i].id in ById(steps) && ById(steps)[steps[i].id] == steps[i] {
          if i < n { assert init[i] == steps[i]; }
        }
      }
    }
  }

  function NormalizeAll(steps: seq<Step>, norm: Step -> Option<Step>): Option<seq<Step>> {
    if steps == [] then Some([])
    else match (NormalizeAll(steps[..|steps| - 1], norm), norm(steps[|steps| - 1]))
      case (Some(init), Some(s)) => Some(init + [s])
      case _ => None
  }

  predicate StepsOk(steps: seq<Step>, norm: Step -> Option<Step>) {
    && DistinctIds(steps)
    && NormalizeAll(steps, norm).Some?
    && PlanAfter(NormalizeAll(steps, norm).value).Some?
  }

  /** What the loop over the steps has built: normalized steps, plan state, steps by ID. */
  datatype Checked = Checked(out: seq<Step>, plan: PlanState, byId: map<string, Step>)

  function CheckOne(c: Checked, s: Step, norm: Step -> Option<Step>): Option<Checked> {
    var n := norm(s);
    if s.id in c.byId || n == None then None
    else match PlanStep(c.plan, n.value)
      case None => None
      case Some(p) => Some(Checked(c.out + [n.value], p, c.byId[s.id := n.value]))
  }

  function CheckAll(steps: seq<Step>, norm: Step -> Option<Step>): Option<Checked> {
    if steps == [] then Some(Checked([], PlanState(false, {}, 0), map[]))
    else match CheckAll(steps[..|steps| - 1], norm)
      case None => None
      case Some(c) => CheckOne(c, steps[|steps| - 1], norm)
  }

  lemma {:induction false} CheckAllPrefix(steps: seq<Step>, norm: Step -> Option<Step>, i: nat)
    requires i <= |steps| && CheckAll(steps[..i], norm).None?
    ensures CheckAll(steps, norm).None?
  {
    if i < |steps| {
      assert steps[..|steps| - 1][..i] == steps[..i];
      CheckAllPrefix(steps[..|steps| - 1], norm, i);
    } else {
      assert steps[..i] == steps;
    }
  }

  lemma CheckAllSnoc(steps: seq<Step>, norm: Step -> Option<Step>, i: nat)
    requires i < |steps| && CheckAll(steps[..i], norm).Some?
    ensures CheckAll(steps[..i + 1], norm) == CheckOne(CheckAll(steps[..i], norm).value, steps[i], norm)
  {
    assert steps[..i + 1][..i] == steps[..i];
  }

  /** The loop accepts exactly the steps that are distinct, valid and plannable. */
  lemma {:induction false} CheckAllMeans(steps: seq<Step>, norm: Step -> Option<Step>)
    requires KeepsIds(norm)
    ensures CheckAll(steps, norm) ==
            if StepsOk(steps, norm) then
              var out := NormalizeAll(steps, norm).value;
              Some(Checked(out, PlanAfter(out).value, ById(out)))
            else None
    ensures StepsOk(steps, norm) ==> ById(NormalizeAll(steps, norm).value).Keys == ById(steps).Keys
    ensures StepsOk(steps, norm) ==> DistinctIds(NormalizeAll(steps, norm).value)
  {
    if steps != [] {
      var n := |steps| - 1;
      CheckAllMeans(steps[..n], norm);
      if NormalizeAll(steps[..n], norm).Some? {
        var out := NormalizeAll(steps[..n], norm).value;
        if norm(steps[n]).Some? {
          assert (out + [norm(steps[n]).value])[..|out|] == out;
        }
      }
    }
  }

  // ---- Assertions -------------------------------------------------------------------

  function Observed(op: Op): Option<ResultPointer.Operation> {
    match op
    case ClockRead => Some(ResultPointer.ClockRead)
    case ClockSet => Some(ResultPointer.ClockSet)
    case ActionExec => Some(ResultPointer.ActionExec)
    case ServiceStart => Some(ResultPointer.ServiceStart)
    case ServiceStop => Some(ResultPointer.ServiceStop)
    case _ => None
  }

  predicate ValueFits(a: Assertion) {
    match a.op
    case Exists => a.value.NoValue?
    case Absent => a.value.NoValue?
    case Eq => a.value.Given?
    case Ne => a.value.Given?
    case Other => false
    case _ => a.value.Given? && a.value.json.Num?
  }

  /** The assertion is about a guest observation that its step's operation can return. */
  predicate AboutStep(a: Assertion, s: Step) {
    s.id == a.step && Observed(s.op).Some? && ResultPointer.Available(Observed(s.op).value, a.pointer) && ValueFits(a)
  }

  /** The assertion has a usable ID and is about one of the steps. */
  predicate Fits(a: Assertion, steps: seq<Step>) {
    Identifier(a.id) && a.step in ById(steps) && AboutStep(a, ById(steps)[a.step])
  }

  function Fitting(steps: seq<Step>): Assertion -> bool {
    a => Fits(a, steps)
  }

  function AssertionIds(assertions: seq<Assertion>): set<string> {
    if assertions == [] then {} else AssertionIds(assertions[..|assertions| - 1]) + {assertions[|assertions| - 1].id}
  }

  predicate AssertionsOk(assertions: seq<Assertion>, fits: Assertion -> bool) {
    || assertions == []
    || var last, init := assertions[|assertions| - 1], assertions[..|assertions| - 1];
       last.id !in AssertionIds(init) && fits(last) && AssertionsOk(init, fits)
  }

  lemma {:induction false} AssertionIdsAre(assertions: seq<Assertion>)
    ensures forall k :: k in AssertionIds(assertions) <==> exists i :: 0 <= i < |assertions| && assertions[i].id == k
  {
    if assertions != [] {
      var init := assertions[..|assertions| - 1];
      AssertionIdsAre(init);
      forall k ensures k in AssertionIds(assertions) <==> exists i :: 0 <= i < |assertions| && assertions[i].id == k {
        if k in AssertionIds(init) {
          var i :| 0 <= i < |init| && init[i].id == k;
          assert assertions[i].id == k;
        }
        if i :| 0 <= i < |assertions| && assertions[i].id == k {
          if i < |init| { assert init[i].id == k; }
        }
      }
    }
  }

  /** Distinct IDs, and each assertion fits. */
  lemma {:induction false} AssertionsOkMeans(assertions: seq<Assertion>, fits: Assertion -> bool)
    ensures AssertionsOk(assertions, fits) <==>
            && (forall i, j :: 0 <= i < j < |assertions| ==> assertions[i].id != assertions[j].id)
            && (forall i :: 0 <= i < |assertions| ==> fits(assertions[i]))
  {
    if assertions != [] {
      var n := |assertions| - 1;
      var init := assertions[..n];
      AssertionsOkMeans(init, fits);
      AssertionIdsAre(init);
      if AssertionsOk(assertions, fits) {
        forall i, j | 0 <= i < j < |assertions| ensures assertions[i].id != assertions[j].id {
          assert assertions[i] == init[i];
          if j < n { assert assertions[j] == init[j]; }
        }
        forall i | 0 <= i < |assertions| ensures fits(assertions[i]) {
          if i < n { assert assertions[i] == init[i]; }
        }
      }
    }
  }

  lemma {:induction false} AssertionsPrefix(assertions: seq<Assertion>, fits: Assertion -> bool, i: nat)
    requires i <= |assertions| && !AssertionsOk(assertions[..i], fits)
    ensures !AssertionsOk(assertions, fits)
  {
    if i < |assertions| {
      assert assertions[..|assertions| - 1][..i] == assertions[..i];
      AssertionsPrefix(assertions[..|assertions| - 1], fits, i);
    } else {
      assert assertions[..i] == assertions;
    }
  }

  // ---- The whole document ----------------------------------------------------------------

  datatype Resources = Resources(vcpus: int, memoryMiB: int)

  datatype Document = Document(
    resources: Resources, timeoutMs: int, bootTimeoutMs: int, steps: seq<Step>, assertions: seq<Assertion>)

  function WithDefaults(d: Document): Document {
    d.(resources := if d.resources == Resources(0, 0) then Resources(1, 512) else d.resources,
       timeoutMs := if d.timeoutMs == 0 then 120000 else d.timeoutMs,
       bootTimeoutMs := if d.bootTimeoutMs == 0 then 30000 else d.bootTimeoutMs)
  }

  predicate HeaderOk(d: Document) {
    && 1 <= d.resources.vcpus <= 2 && 128 <= d.resources.memoryMiB <= 2048
    && 1 <= d.timeoutMs <= MAX_TIMEOUT_MS && 1 <= d.bootTimeoutMs <= d.timeoutMs
    && 1 <= |d.steps| <= MAX_STEPS && 1 <= |d.assertions| <= MAX_ASSERTIONS
  }

  /** What Validate accepts, in terms of the document it is given. */
  predicate Acceptable(d: Document) {
    var e := WithDefaults(d);
    && HeaderOk(e)
    && StepsOk(e.steps, Vetting(e.timeoutMs))
    && var steps := NormalizeAll(e.steps, Vetting(e.timeoutMs)).value;
    && PlanAfter(steps).value.waits < e.timeoutMs
    && AssertionsOk(e.assertions, Fitting(steps))
  }

  /** ... and what it turns the document into. */
  function Resolved(d: Document): Document
    requires Acceptable(d)
  {
    var e := WithDefaults(d);
    e.(steps := NormalizeAll(e.steps, Vetting(e.timeoutMs)).value)
  }

  lemma {:induction false} NormalizeAllIsIdempotent(steps: seq<Step>, norm: Step -> Option<Step>)
    requires NormalizeAll(steps, norm).Some? && KeepsIds(norm)
    requires forall s :: norm(s).Some? ==> norm(norm(s).value) == norm(s)
    ensures var out := NormalizeAll(steps, norm).value;
            && NormalizeAll(out, norm) == Some(out)
            && |out| == |steps| && forall i :: 0 <= i < |steps| ==> out[i].id == steps[i].id
  {
    if steps != [] {
      var n := |steps| - 1;
      var out := NormalizeAll(steps, norm).value;
      NormalizeAllIsIdempotent(steps[..n], norm);
      assert out[..|out| - 1] == NormalizeAll(steps[..n], norm).value;
    }
  }

  /** Validating a validated scenario accepts it and changes nothing. */
  lemma ValidateIsIdempotent(d: Document)
    requires Acceptable(d)
    ensures Acceptable(Resolved(d)) && Resolved(Resolved(d)) == Resolved(d)
  {
    var e := WithDefaults(d);
    var r := Resolved(d);
    VettingIsIdempotent(e.timeoutMs);
    VettingKeepsIds(e.timeoutMs);
    NormalizeAllIsIdempotent(e.steps, Vetting(e.timeoutMs));
    CheckAllMeans(e.steps, Vetting(e.timeoutMs));
  }

  class Scenario {
    const apiVersion: string
    const name: string
    const image: string
    const workload: string
    const assertions: seq<Assertion>
    var resources: Resources
    var timeoutMs: int
    var bootTimeoutMs: int
    var steps: seq<Step>

    constructor (apiVersion: string, name: string, image: string, workload: string, d: Document)
      ensures Contents() == d
      ensures this.apiVersion == apiVersion && this.name == name && this.image == image && this.workload == workload
    {
      this.apiVersion, this.name, this.image, this.workload := apiVersion, name, image, workload;
      assertions, resources, timeoutMs, bootTimeoutMs, steps := d.assertions, d.resources, d.timeoutMs,
          d.bootTimeoutMs, d.steps;
    }

    function Contents(): Document
      reads this
    {
      Document(resources, timeoutMs, bootTimeoutMs, steps, assertions)
    }

    predicate NamesOk() {
      && apiVersion == "epoch/v1alpha1"
      && Identifier(name) && WorkloadIdentifier(image) && WorkloadIdentifier(workload)
    }

    method Validate() returns (ok: bool)
      modifies this
      ensures ok <==> NamesOk() && Acceptable(old(Contents()))
      ensures ok ==> Contents() == Resolved(old(Contents()))
    {
      if !NamesOk() { return false; }
      ok := FillHeader();
      if !ok { return; }
      var byId, waits;
      ok, byId, waits := ValidateSteps();
      if !ok || waits >= timeoutMs { return false; }
      ok := ValidateAssertions(byId);
    }

    method FillHeader() returns (ok: bool)
      modifies this
      ensures Contents() == WithDefaults(old(Contents()))
      ensures ok <==> HeaderOk(Contents())
    {
      if resources == Resources(0, 0) { resources := Resources(1, 512); }
      if timeoutMs == 0 { timeoutMs := 120000; }
      if bootTimeoutMs == 0 { bootTimeoutMs := 30000; }
      if !(1 <= resources.vcpus <= 2 && 128 <= resources.memoryMiB <= 2048) { return false; }
      if !(1 <= timeoutMs <= MAX_TIMEOUT_MS && 1 <= bootTimeoutMs <= timeoutMs) { return false; }
      return 1 <= |steps| <= MAX_STEPS && 1 <= |assertions| <= MAX_ASSERTIONS;
    }

    /** The loop over s.Steps, which normalizes each step where it stands. */
    method ValidateSteps() returns (ok: bool, byId: map<string, Step>, waits: int)
      modifies this`steps
      ensures ok <==> StepsOk(old(steps), Vetting(timeoutMs))
      ensures ok ==> Some(steps) == NormalizeAll(old(steps), Vetting(timeoutMs))
      ensures ok ==> waits == PlanAfter(steps).value.waits && byId == ById(steps)
    {
      ghost var before := steps;
      VettingKeepsIds(timeoutMs);
      CheckAllMeans(before, Vetting(timeoutMs));
      var services: set<string>, clockSet := {}, false;
      ok, waits, byId := false, 0, map[];
      var i := 0;
      while i < |steps|
        invariant 0 <= i <= |steps| == |before| && steps[i..] == before[i..]
        invariant CheckAll(before[..i], Vetting(timeoutMs)) ==
                   Some(Checked(steps[..i], PlanState(clockSet, services, waits), byId))
      {
        CheckAllSnoc(before, Vetting(timeoutMs), i);
        var step := steps[i];
        assert step == steps[i..][0] == before[i];
        if CheckAll(before[..i + 1], Vetting(timeoutMs)).None? { CheckAllPrefix(before, Vetting(timeoutMs), i + 1); }
        if !Identifier(step.id) || step.id in byId { return; }
        var normal := Normalize(step, timeoutMs);
        if normal.None? { return; }
        step := normal.value;
        var fits;
        fits, clockSet, services, waits := PlanOne(step, clockSet, services, waits);
        if !fits { return; }
        steps := steps[i := step];
        byId := byId[step.id := step];
        assert steps[..i + 1] == steps[..i] + [step];
        assert steps[i + 1..] == before[i..][1..];
        i := i + 1;
      }
      assert before[..i] == before && steps[..i] == steps;
      ok := true;
    }

    /** The two switches on step.Op in the body of that loop. */
    static method PlanOne(step: Step, clockSet0: bool, services0: set<string>, waits0: int)
      returns (ok: bool, clockSet: bool, services: set<string>, waits: int)
      ensures var p := PlanStep(PlanState(clockSet0, services0, waits0), step);
              (ok <==> p.Some?) && (ok ==> p.value == PlanState(clockSet, services, waits))
    {
      ok, clockSet, services, waits := false, clockSet0, services0, waits0;
      if step.op == ClockSet {
        if services != {} && !step.allowLive { return; }
        clockSet := true;
      } else if step.op == ActionExec || step.op == ServiceStart {
        if !clockSet { return; }
      }
      if step.op == ServiceStart {
        if step.service in services { return; }
        services := services + {step.service};
        if |services| > 4 { return; }
      } else if step.op == ServiceStop {
        if step.service !in services { return; }
        services := services - {step.service};
      } else if step.op == Wait {
        waits := waits + step.durationMs;
      }
      ok := true;
    }

    method ValidateAssertions(byId: map<string, Step>) returns (ok: bool)
      requires byId == ById(steps)
      ensures ok <==> AssertionsOk(assertions, Fitting(steps))
    {
      var seen: set<string> := {};
      ByIdIsKeyed(steps);
      for i := 0 to |assertions|
        invariant seen == AssertionIds(assertions[..i])
        invariant AssertionsOk(assertions[..i], Fitting(steps))
      {
        assert assertions[..i + 1][..i] == assertions[..i];
        if !AssertionsOk(assertions[..i + 1], Fitting(steps)) { AssertionsPrefix(assertions, Fitting(steps), i + 1); }
        var a := assertions[i];
        if !Identifier(a.id) || a.id in seen { return false; }
        seen := seen + {a.id};
        if a.step !in byId { return false; }
        var good := CheckObservation(a, byId[a.step]);
        if !good { return false; }
      }
      assert assertions[..|assertions|] == assertions;
      return true;
    }

    static method CheckObservation(a: Assertion, step: Step) returns (ok: bool)
      ensures step.id == a.step ==> (ok <==> AboutStep(a, step))
    {
      if Observed(step.op).None? { return false; }
      return ResultPointer.Available(Observed(step.op).value, a.pointer) && ValueFits(a);
    }
  }

  lemma {:induction false} ByIdIsKeyed(steps: seq<Step>)
    ensures forall k :: k in ById(steps) ==> ById(steps)[k].id == k
  {
    if steps != [] { ByIdIsKeyed(steps[..|steps| - 1]); }
  }
}
