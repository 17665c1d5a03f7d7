/**
Evaluating assertions against step observations (internal/scenario/assertions.go:21-97).
Observations and expected values arrive decoded; text that does not decode is None or
BadValue.
*/
module Assertions {
  import opened Common
  import opened Json
  import opened JsonNumber
  import JsonPointer

  datatype Op = Exists | Absent | Eq | Ne | Gt | Gte | Lt | Lte | Other

  /** An expected value: absent, not decodable, or given. */
  datatype Expected = NoValue | BadValue | Given(json: Json)

  datatype Assertion = Assertion(id: string, step: string, pointer: string, op: Op, value: Expected)

  datatype AssertionResult = AssertionResult(id: string, step: string, pass: bool)

  function Lookup(observation: Json, pointer: string): JsonPointer.Resolution {
    match JsonPointer.Parse(pointer)
    case None => JsonPointer.Malformed
    case Some(tokens) => JsonPointer.Resolve(observation, tokens)
  }

  /** What a comparison of two values means; None where there is nothing to compare. */
  ghost function Compares(op: Op, actual: Json, expected: Json): Option<bool> {
    if op == Eq then Some(SameValue(actual, expected))
    else if op == Ne then Some(!SameValue(actual, expected))
    else if !actual.Num? || !expected.Num? then None
    else
      var x, y := Value(actual.n), Value(expected.n);
      match op
      case Gt => Some(x > y)
      case Gte => Some(x >= y)
      case Lt => Some(x < y)
      case Lte => Some(x <= y)
      case _ => None
  }

  /** Whether the assertion holds of the observations; None where it cannot be judged. */
  ghost function Judged(a: Assertion, observations: map<string, Option<Json>>): Option<bool> {
    if a.step !in observations || observations[a.step].None? then None
    else
      var found := Lookup(observations[a.step].value, a.pointer);
      if found == JsonPointer.Malformed then None
      else if a.op == Exists then Some(found.Found?)
      else if a.op == Absent then Some(!found.Found?)
      else if !found.Found? || !a.value.Given? then None
      else Compares(a.op, found.value, a.value.json)
  }

  ghost predicate AllDecoded(assertions: seq<Assertion>, observations: map<string, Option<Json>>) {
    && (forall i :: 0 <= i < |assertions| && assertions[i].value.Given? ==> Decoded(assertions[i].value.json))
    && (forall s :: s in observations && observations[s].Some? ==> Decoded(observations[s].value))
  }

  lemma {:induction false} ResolvedIsDecoded(v: Json, tokens: seq<string>)
    requires Decoded(v) && JsonPointer.Resolve(v, tokens).Found?
    ensures Decoded(JsonPointer.Resolve(v, tokens).value)
    decreases tokens
  {
    if tokens != [] {
      ResolvedIsDecoded(JsonPointer.StepInto(v, tokens[0]).value, tokens[1..]);
    }
  }

  method Compare(op: Op, actual: Json, expected: Json) returns (r: Option<bool>)
    requires Decoded(actual) && Decoded(expected)
    ensures r == Compares(op, actual, expected)
  {
    if op == Eq || op == Ne {
      var same, failed := Equal(actual, expected);
      return Some(if op == Ne then !same else same);
    }
    if !actual.Num? || !expected.Num? { return None; }
    var cmp := CompareNumbers(actual.n, expected.n);
    CompareIsExact(actual.n, expected.n);
    match op
    case Gt => return Some(cmp.value > 0);
    case Gte => return Some(cmp.value >= 0);
    case Lt => return Some(cmp.value < 0);
    case Lte => return Some(cmp.value <= 0);
    case _ => return None;
  }

  method Judge(a: Assertion, observations: map<string, Option<Json>>) returns (r: Option<bool>)
    requires AllDecoded([a], observations)
    ensures r == Judged(a, observations)
  {
    if a.step !in observations || observations[a.step].None? { return None; }
    var observation := observations[a.step].value;
    var found := JsonPointer.ResolvePointer(observation, a.pointer);
    match found
    case Malformed => return None;
    case Missing => return if a.op == Exists then Some(false) else if a.op == Absent then Some(true) else None;
    case Found(actual) =>
      if a.op == Exists { return Some(true); }
      if a.op == Absent { return Some(false); }
      if !a.value.Given? { return None; }
      ResolvedIsDecoded(observation, JsonPointer.Parse(a.pointer).value);
      assert Decoded([a][0].value.json);
      r := Compare(a.op, actual, a.value.json);
  }

  /** One result per assertion in order, up to the first that cannot be judged. */
  method Evaluate(
    assertions: seq<Assertion>, observations: map<string, Option<Json>>)
    returns (results: seq<AssertionResult>, failed: bool)
    requires AllDecoded(assertions, observations)
    ensures |results| <= |assertions| && (failed <==> |results| < |assertions|)
    ensures forall i :: 0 <= i < |results| ==>
              && results[i].id == assertions[i].id && results[i].step == assertions[i].step
              && Judged(assertions[i], observations) == Some(results[i].pass)
    ensures failed ==> Judged(assertions[|results|], observations) == None
  {
    results := [];
    for i := 0 to |assertions|
      invariant |results| == i
      invariant forall j :: 0 <= j < i ==>
                  && results[j].id == assertions[j].id && results[j].step == assertions[j].step
                  && Judged(assertions[j], observations) == Some(results[j].pass)
    {
      var pass := Judge(assertions[i], observations);
      if pass.None? { return results, true; }
      results := results + [AssertionResult(assertions[i].id, assertions[i].step, pass.value)];
    }
    return results, false;
  }

  /** Of two numbers exactly one of lt, eq, gt passes; gte, lte and ne are what they should be. */
  lemma ComparisonsAreOrdered(x: Json, y: Json)
    requires x.Num? && y.Num?
    ensures forall op :: op in {Eq, Ne, Gt, Gte, Lt, Lte} ==> Compares(op, x, y).Some?
    ensures var lt, eq, gt := Compares(Lt, x, y).value, Compares(Eq, x, y).value, Compares(Gt, x, y).value;
            && (lt || eq || gt) && !(lt && eq) && !(eq && gt) && !(lt && gt)
            && Compares(Gte, x, y).value == (gt || eq) && Compares(Lte, x, y).value == (lt || eq)
            && Compares(Ne, x, y).value == !eq
            && lt == Compares(Gt, y, x).value
  {
  }
}
