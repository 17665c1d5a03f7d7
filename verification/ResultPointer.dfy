/**
The static check that an assertion's pointer can exist in its operation's result
(internal/scenario/assertions.go:237-265), against the results executeStep returns
(internal/engine/steps.go:51-120, internal/protocol/protocol.go:64-107).
*/
module ResultPointer {
  import opened Common
  import opened JsonNumber
  import opened Json
  import opened JsonPointer

  datatype Operation = ClockRead | ClockSet | ActionExec | ServiceStart | ServiceStop

  function AllowedFields(op: Operation): set<string> {
    match op
    case ClockRead => {"realtime", "monotonic_ns"}
    case ClockSet => {"target", "before", "after", "elapsed_ns", "tolerance_ms", "readback_valid"}
    case ActionExec => {"exit_code", "stdout_json", "stderr", "stdout_truncated", "stderr_truncated", "before", "after"}
    case ServiceStart => {"service", "running", "before", "after", "stdout", "stderr"}
    case ServiceStop => {"service", "running", "before", "after", "stdout", "stderr"}
  }

  predicate AvailableTokens(op: Operation, ts: seq<string>) {
    || ts == []
    || (&& ts[0] in AllowedFields(op)
        && (|ts| > 1 && ts[0] != "stdout_json" ==>
              && (ts[0] == "before" || ts[0] == "after") && |ts| == 2
              && (ts[1] == "realtime" || ts[1] == "monotonic_ns")))
  }

  /** availablePointer returning nil */
  predicate Available(op: Operation, pointer: string) {
    var ts := Parse(pointer);
    ts.Some? && AvailableTokens(op, ts.value)
  }

  // ---- Results -------------------------------------------------------------------

  datatype Clock = Clock(realtime: string, monotonic: Number)

  datatype StepResult =
    | Reading(clock: Clock)
    | Setting(target: string, before: Clock, after: Clock, elapsed: Number, tolerance: Number, valid: bool)
    | Action(exit: Number, stdout: Json, stderr: string, outCut: bool, errCut: bool, before: Clock, after: Clock)
    | Service(name: string, running: bool, before: Clock, after: Clock, out: string, err: string)

  function ClockJson(c: Clock): Json {
    Obj(map["realtime" := Str(c.realtime), "monotonic_ns" := Num(c.monotonic)])
  }

  /** An `omitempty` string field. */
  function Optional(key: string, s: string): map<string, Json> {
    if s == "" then map[] else map[key := Str(s)]
  }

  function ResultJson(r: StepResult): Json {
    match r
    case Reading(c) => ClockJson(c)
    case Setting(t, b, a, e, tol, v) =>
      Obj(map["target" := Str(t), "before" := ClockJson(b), "after" := ClockJson(a), "elapsed_ns" := Num(e),
              "tolerance_ms" := Num(tol), "readback_valid" := Bool(v)])
    case Action(x, o, e, oc, ec, b, a) =>
      Obj(map["exit_code" := Num(x), "stdout_json" := o, "stderr" := Str(e), "stdout_truncated" := Bool(oc),
              "stderr_truncated" := Bool(ec), "before" := ClockJson(b), "after" := ClockJson(a)])
    case Service(n, run, b, a, o, e) =>
      Obj(map["service" := Str(n), "running" := Bool(run), "before" := ClockJson(b), "after" := ClockJson(a)]
          + Optional("stdout", o) + Optional("stderr", e))
  }

  predicate ResultOf(op: Operation, r: StepResult) {
    match op
    case ClockRead => r.Reading?
    case ClockSet => r.Setting?
    case ActionExec => r.Action?
    case _ => r.Service?
  }

  /** Strictly inside the action's own JSON output. */
  predicate InsideOutput(ts: seq<string>) {
    |ts| > 1 && ts[0] == "stdout_json"
  }

  predicate OptionalField(op: Operation, ts: seq<string>) {
    (op == ServiceStart || op == ServiceStop) && |ts| == 1 && (ts[0] == "stdout" || ts[0] == "stderr")
  }

  // ---- Soundness and completeness of the check ------------------------------------------

  lemma ResolveOne(v: Json, t: string)
    ensures Resolve(v, [t]) == StepInto(v, t)
  {
    var s := [t];
    assert s[1..] == [];
  }

  lemma ResolveTwo(v: Json, ts: seq<string>)
    requires |ts| == 2 && StepInto(v, ts[0]).Found?
    ensures Resolve(v, ts) == StepInto(StepInto(v, ts[0]).value, ts[1])
  {
    assert ts[1..] == [ts[1]];
    ResolveOne(StepInto(v, ts[0]).value, ts[1]);
  }

  /** The fields of a result are the allowed ones, up to the two optional ones. */
  lemma ResultFields(op: Operation, r: StepResult)
    requires ResultOf(op, r)
    ensures ResultJson(r).Obj?
    ensures forall k :: k in ResultJson(r).fields ==> k in AllowedFields(op)
    ensures forall k :: k in AllowedFields(op) && !OptionalField(op, [k]) ==> k in ResultJson(r).fields
    ensures r.Service? ==>
              ("stdout" in ResultJson(r).fields <==> r.out != "") && ("stderr" in ResultJson(r).fields <==> r.err != "")
  {
  }

  lemma ResultClocks(op: Operation, r: StepResult, k: string)
    requires ResultOf(op, r) && (k == "before" || k == "after")
    ensures k in ResultJson(r).fields <==> op != ClockRead
    ensures op != ClockRead ==> exists c :: ResultJson(r).fields[k] == ClockJson(c)
  {
    if op != ClockRead {
      var c := if k == "before" then r.before else r.after;
      assert ResultJson(r).fields[k] == ClockJson(c);
    }
  }

  /** Every accepted pointer outside the two exceptions finds a value in every result. */
  lemma AcceptedPointersResolve(op: Operation, r: StepResult, pointer: string)
    requires ResultOf(op, r) && Available(op, pointer)
    requires !InsideOutput(Parse(pointer).value)
    ensures OptionalField(op, Parse(pointer).value) ==>
              (Resolve(ResultJson(r), Parse(pointer).value).Found? <==>
                  (if Parse(pointer).value[0] == "stdout" then r.out != "" else r.err != ""))
    ensures !OptionalField(op, Parse(pointer).value) ==> Resolve(ResultJson(r), Parse(pointer).value).Found?
  {
    var ts := Parse(pointer).value;
    ResultFields(op, r);
    if |ts| == 1 {
      assert ts == [ts[0]];
      ResolveOne(ResultJson(r), ts[0]);
    } else if |ts| == 2 {
      ResultClocks(op, r, ts[0]);
      ResolveTwo(ResultJson(r), ts);
    }
  }

  /** A well-formed pointer the check refuses finds nothing in any result. */
  lemma RefusedPointersMiss(op: Operation, r: StepResult, pointer: string)
    requires ResultOf(op, r) && Parse(pointer).Some? && !Available(op, pointer)
    ensures Resolve(ResultJson(r), Parse(pointer).value) == Missing
  {
    var ts := Parse(pointer).value;
    var v := ResultJson(r);
    ResultFields(op, r);
    if ts[0] in v.fields {
      var x := v.fields[ts[0]];
      assert Resolve(v, ts) == Resolve(x, ts[1..]);
      if ts[0] == "before" || ts[0] == "after" {
        ResultClocks(op, r, ts[0]);
        ClockHasNothingElse(x, ts[1..]);
      } else {
        FieldsAreScalars(op, r, ts[0]);
      }
    }
  }

  lemma FieldsAreScalars(op: Operation, r: StepResult, k: string)
    requires ResultOf(op, r) && k in ResultJson(r).fields && k != "before" && k != "after" && k != "stdout_json"
    ensures !ResultJson(r).fields[k].Obj? && !ResultJson(r).fields[k].Arr?
  {
  }

  lemma ClockHasNothingElse(x: Json, ts: seq<string>)
    requires exists c :: x == ClockJson(c)
    requires ts != [] && !(|ts| == 1 && (ts[0] == "realtime" || ts[0] == "monotonic_ns"))
    ensures Resolve(x, ts) == Missing
  {
    if ts[0] == "realtime" || ts[0] == "monotonic_ns" {
      assert StepInto(x.fields[ts[0]], ts[1..][0]) == Missing;
    }
  }
}
