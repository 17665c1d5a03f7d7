/**
The guest agent's request handler (internal/guestagent/server.go:178-294) with the
service table of its process manager (internal/guestagent/process_linux.go:320-418),
driven by the host's step executor (internal/engine/steps.go:22-148). Everything the
agent cannot decide (processes, clocks, the sandbox) is an environment value, free at
every request.
*/
module Guest {
  import opened Common
  import Scenario

  const MAX_SERVICES: nat := 4

  /** What the workload manifest declares. */
  datatype Manifest = Manifest(actions: set<string>, services: set<string>)

  datatype Request =
    | ClockRead
    | ClockSet(allowLive: bool)
    | ActionExec(action: string, timeoutMs: int)
    | ServiceStart(service: string, timeoutMs: int)
    | ServiceStop(service: string, hasInput: bool, timeoutMs: int)

  datatype Reason =
    | ServiceExited | LiveClockDenied | ClockNotReady | StartedOrLimit | NotRunning
    | Undeclared | BadInput | BadTimeout | ExecutionError

  datatype Reply = Answered(readbackValid: bool) | Refused(reason: Reason)

  /** What the sandbox does during one request. */
  datatype Env = Env(
    overQuota: set<string>, exited: set<string>, readOk: bool, setOk: bool, readbackValid: bool,
    inputOk: bool, actionOk: bool, launched: bool, ready: bool, terminated: bool, truncated: bool)

  /** Running services by name, each with the manager's `expected` flag. */
  type Services = map<string, bool>

  datatype State = State(clockReady: bool, services: Services)

  predicate Unhealthy(services: Services, e: Env) {
    exists id :: id in services && !services[id] && (id in e.overQuota || id in e.exited)
  }

  function RequestTimeout(ms: int): Option<int> {
    if ms == 0 then Some(5000) else if 1 <= ms <= 600000 then Some(ms) else None
  }

  function Started(services: Services, name: string, e: Env): (Services, Reply) {
    if !e.readOk then (services, Refused(ExecutionError))
    else if name in services || |services| >= MAX_SERVICES then (services, Refused(StartedOrLimit))
    else if !e.launched then (services, Refused(ExecutionError))
    else (services[name := false], if e.ready then Answered(false) else Refused(ExecutionError))
  }

  function Stopped(services: Services, name: string, e: Env): (Services, Reply) {
    if !e.readOk then (services, Refused(ExecutionError))
    else if name !in services then (services, Refused(NotRunning))
    else if name in e.exited then (services, Refused(ExecutionError))
    else if !e.terminated then (services[name := true], Refused(ExecutionError))
    else (services - {name}, if e.truncated then Refused(ExecutionError) else Answered(false))
  }

  function HandledService(s: State, m: Manifest, q: Request, e: Env): (State, Reply)
    requires q.ServiceStart? || q.ServiceStop?
  {
    if q.service !in m.services then (s, Refused(Undeclared))
    else if (if q.ServiceStop? then q.hasInput else !e.inputOk) then (s, Refused(BadInput))
    else if RequestTimeout(q.timeoutMs).None? then (s, Refused(BadTimeout))
    else
      var (services, reply) :=
        if q.ServiceStart? then Started(s.services, q.service, e)
        else Stopped(s.services, q.service, e);
      (s.(services := services), reply)
  }

  function Handled(s: State, m: Manifest, q: Request, e: Env): (State, Reply) {
    if !q.ServiceStop? && Unhealthy(s.services, e) then (s, Refused(ServiceExited))
    else match q
      case ClockRead => (s, if e.readOk then Answered(false) else Refused(ExecutionError))
      case ClockSet(allowLive) =>
        if |s.services| > 0 && !allowLive then (s, Refused(LiveClockDenied))
        else (s.(clockReady := e.setOk && e.readbackValid),
              if e.setOk then Answered(e.readbackValid) else Refused(ExecutionError))
      case ActionExec(action, timeoutMs) =>
        (s, if !s.clockReady then Refused(ClockNotReady)
            else if action !in m.actions then Refused(Undeclared)
            else if !e.inputOk then Refused(BadInput)
            else if RequestTimeout(timeoutMs).None? then Refused(BadTimeout)
            else if e.actionOk then Answered(false) else Refused(ExecutionError))
      case ServiceStart(_, _) => if s.clockReady then HandledService(s, m, q, e) else (s, Refused(ClockNotReady))
      case ServiceStop(_, _, _) => HandledService(s, m, q, e)
  }

  /** What the agent promises of every request, whatever else happens. */
  predicate HandledWell(s: State, q: Request, e: Env, after: State, reply: Reply) {
    var healthy := !Unhealthy(s.services, e);
    && (reply == Refused(ServiceExited) <==> !q.ServiceStop? && !healthy)
    && (reply == Refused(ClockNotReady) <==> (q.ActionExec? || q.ServiceStart?) && !s.clockReady && healthy)
    && (reply == Refused(LiveClockDenied) <==> q.ClockSet? && !q.allowLive && s.services != map[] && healthy)
    // The clock flag is the last readback; only a clock.set that is not refused outright moves it.
    && (q.ClockSet? && reply.Answered? ==> after.clockReady == reply.readbackValid)
    && (q.ClockSet? && reply == Refused(ExecutionError) ==> !after.clockReady)
    && (after.clockReady != s.clockReady ==> q.ClockSet? && (reply.Answered? || reply == Refused(ExecutionError)))
    // The table changes only for the service named.
    && (after.services != s.services ==>
          (q.ServiceStart? || q.ServiceStop?) && after.services - {q.service} == s.services - {q.service})
  }

  lemma HandledMeans(s: State, m: Manifest, q: Request, e: Env)
    ensures var (after, reply) := Handled(s, m, q, e); HandledWell(s, q, e, after, reply)
  {
  }

  // ---- The agent, updating its fields --------------------------------------------

  class Manager {
    var services: Services

    constructor ()
      ensures services == map[]
    {
      services := map[];
    }

    method Start(name: string, e: Env) returns (reply: Reply)
      modifies this
      ensures (services, reply) == Started(old(services), name, e)
      ensures reply == Refused(StartedOrLimit) <==>
                e.readOk && (name in old(services) || |old(services)| >= MAX_SERVICES)
      // A launched service is in the table, ready or not; nothing else changes.
      ensures services.Keys ==
              old(services).Keys + if reply != Refused(StartedOrLimit) && e.readOk && e.launched then {name} else {}
      ensures services - {name} == old(services) - {name} && (name in old(services) ==> services == old(services))
      ensures reply.Answered? <==> name !in old(services) && name in services && e.ready
      ensures |old(services)| <= MAX_SERVICES ==> |services| <= MAX_SERVICES
    {
      if !e.readOk { return Refused(ExecutionError); }
      if name in services || |services| >= MAX_SERVICES { return Refused(StartedOrLimit); }
      if !e.launched { return Refused(ExecutionError); }
      services := services[name := false];
      // The entry stays when readiness is never reached.
      if !e.ready { return Refused(ExecutionError); }
      return Answered(false);
    }

    method Stop(name: string, e: Env) returns (reply: Reply)
      modifies this
      ensures (services, reply) == Stopped(old(services), name, e)
      ensures reply == Refused(NotRunning) <==> e.readOk && name !in old(services)
      // A service leaves the table exactly when it was running and has been terminated.
      ensures services.Keys == old(services).Keys - if e.readOk && name !in e.exited && e.terminated then {name} else {}
      ensures services - {name} == old(services) - {name}
      ensures name in services && e.readOk && name !in e.exited ==> services[name]
      ensures reply.Answered? <==> name in old(services) && name !in services && !e.truncated
    {
      if !e.readOk { return Refused(ExecutionError); }
      if name in services {
        if name in e.exited { return Refused(ExecutionError); }
        services := services[name := true];
      } else {
        return Refused(NotRunning);
      }
      if !e.terminated { return Refused(ExecutionError); }
      services := services - {name};
      assert services == old(services) - {name};
      if e.truncated { return Refused(ExecutionError); }
      return Answered(false);
    }
  }

  class Server {
    const manifest: Manifest
    const runner: Manager
    var clockReady: bool

    constructor (manifest: Manifest, runner: Manager)
      ensures this.manifest == manifest && this.runner == runner && !clockReady
    {
      this.manifest, this.runner, clockReady := manifest, runner, false;
    }

    function Current(): State
      reads this, runner
    {
      State(clockReady, runner.services)
    }

    method Handle(q: Request, e: Env) returns (reply: Reply)
      modifies this, runner
      ensures (Current(), reply) == Handled(old(Current()), manifest, q, e)
      ensures HandledWell(old(Current()), q, e, Current(), reply)
    {
      HandledMeans(Current(), manifest, q, e);
      if !q.ServiceStop? {
        if id :| id in runner.services && !runner.services[id] && (id in e.overQuota || id in e.exited) {
          return Refused(ServiceExited);
        }
      }
      match q {
        case ClockRead => return if e.readOk then Answered(false) else Refused(ExecutionError);
        case ClockSet(allowLive) =>
          if |runner.services| > 0 && !allowLive { return Refused(LiveClockDenied); }
          clockReady := e.setOk && e.readbackValid;
          return if e.setOk then Answered(e.readbackValid) else Refused(ExecutionError);
        case ActionExec(action, timeoutMs) =>
          if !clockReady { return Refused(ClockNotReady); }
          if action !in manifest.actions { return Refused(Undeclared); }
          if !e.inputOk { return Refused(BadInput); }
          if RequestTimeout(timeoutMs).None? { return Refused(BadTimeout); }
          return if e.actionOk then Answered(false) else Refused(ExecutionError);
        case ServiceStart(name, timeoutMs) =>
          if !clockReady { return Refused(ClockNotReady); }
          if name !in manifest.services { return Refused(Undeclared); }
          if !e.inputOk { return Refused(BadInput); }
          if RequestTimeout(timeoutMs).None? { return Refused(BadTimeout); }
          reply := runner.Start(name, e);
        case ServiceStop(name, hasInput, timeoutMs) =>
          if name !in manifest.services { return Refused(Undeclared); }
          if hasInput { return Refused(BadInput); }
          if RequestTimeout(timeoutMs).None? { return Refused(BadTimeout); }
          reply := runner.Stop(name, e);
      }
    }
  }

  // ---- The host's side of one step -------------------------------------------------

  /** `remainingNs` is what is left of the run; `valid` is the host's own check of the result. */
  datatype StepEnv = StepEnv(remainingNs: int, first: Env, second: Env, valid: bool)

  /** The timeout sent with a workload request; None when less than a millisecond is left. */
  function SentTimeout(s: Scenario.Step, remainingNs: int): Option<int> {
    var timeout := if s.timeoutMs > 0 then s.timeoutMs * 1000000 else 5000000000;
    if remainingNs < 1000000 then None
    else Some((if remainingNs < timeout then remainingNs else timeout) / 1000000)
  }

  /** The requests of a step; none when the host gives up before sending. */
  function Requests(s: Scenario.Step, remainingNs: int): seq<Request> {
    match s.op
    case ClockRead => [ClockRead]
    case ClockSet => [ClockSet(s.allowLive)]
    case Wait => [ClockRead, ClockRead]
    case Unsupported => []
    case _ =>
      match SentTimeout(s, remainingNs)
      case None => []
      case Some(ms) =>
        if s.op == Scenario.ActionExec then [ActionExec(s.action, ms)]
        else if s.op == Scenario.ServiceStart then [ServiceStart(s.service, ms)]
        else [ServiceStop(s.service, s.input.Input?, ms)]
  }

  /** A run of the step loop so far: the agent, the steps done, every reply; `live` until a step fails. */
  datatype Run = Run(guest: State, done: nat, replies: seq<Reply>, live: bool)

  function Sent(r: Run, m: Manifest, q: Request, e: Env): Run {
    if !r.live then r
    else
      var (guest, reply) := Handled(r.guest, m, q, e);
      Run(guest, r.done, r.replies + [reply], reply.Answered? && (q.ClockSet? ==> reply.readbackValid))
  }

  function StepRun(r: Run, m: Manifest, s: Scenario.Step, e: StepEnv): Run {
    var qs := Requests(s, e.remainingNs);
    if !r.live then r
    else if qs == [] then r.(live := false)
    else
      var first := Sent(r, m, qs[0], e.first);
      var last := if |qs| == 1 then first else Sent(first, m, qs[1], e.second);
      if last.live && e.valid then last.(done := r.done + 1) else last.(live := false)
  }

  /** The step loop: it stops at the first step that fails. */
  function RunSteps(m: Manifest, steps: seq<Scenario.Step>, envs: seq<StepEnv>): Run
    requires |steps| == |envs|
  {
    if steps == [] then Run(State(false, map[]), 0, [], true)
    else
      var n := |steps| - 1;
      StepRun(RunSteps(m, steps[..n], envs[..n]), m, steps[n], envs[n])
  }

  // ---- The plan is exactly what the agent does --------------------------------------

  /** The refusals that Scenario.Validate rules out before the run. */
  predicate PlanRefusal(reply: Reply) {
    reply == Refused(LiveClockDenied) || reply == Refused(ClockNotReady) || reply == Refused(StartedOrLimit) ||
        reply == Refused(NotRunning)
  }

  predicate Agrees(g: State, p: Scenario.PlanState) {
    g.clockReady == p.clockSet && g.services.Keys == p.services
  }

  ghost predicate Normal(s: Scenario.Step) {
    exists runTimeout: int :: runTimeout <= 600000 && Scenario.Normalize(s, runTimeout) == Some(s)
  }

  lemma NormalTimeout(s: Scenario.Step)
    requires Normal(s)
    ensures s.op == Scenario.ActionExec || s.op == Scenario.ServiceStart || s.op == Scenario.ServiceStop ==>
              1 <= s.timeoutMs <= 600000
    ensures s.op == Scenario.ServiceStop ==> s.input == Scenario.NoInput
    ensures s.op != Scenario.Unsupported
  {
    var t: int :| t <= 600000 && Scenario.Normalize(s, t) == Some(s);
    assert s.input.Input? ==> Scenario.IsPresent(s, Scenario.FInput);
  }

  /** The agent uses the timeout the host sent, whatever is left of the run. */
  lemma SentTimeoutIsAccepted(s: Scenario.Step, remainingNs: int)
    requires 1 <= s.timeoutMs <= 600000 && SentTimeout(s, remainingNs).Some?
    ensures var ms := SentTimeout(s, remainingNs).value;
            RequestTimeout(ms) == Some(ms) && 1 <= ms <= s.timeoutMs && ms * 1000000 <= remainingNs
  {
  }

  lemma KeysCount(services: Services)
    ensures |services| == |services.Keys|
    ensures |services| > 0 <==> services.Keys != {}
  {
  }

  lemma StartFollowsPlan(g: State, p: Scenario.PlanState, m: Manifest, s: Scenario.Step, ms: int, e: Env)
    requires Agrees(g, p) && RequestTimeout(ms).Some? && s.op == Scenario.ServiceStart
    ensures var (after, reply) := Handled(g, m, ServiceStart(s.service, ms), e);
            match Scenario.PlanStep(p, s)
            case None => !reply.Answered?
            case Some(p') => !PlanRefusal(reply) && (reply.Answered? ==> Agrees(after, p'))
  {
    KeysCount(g.services);
    if s.service !in p.services {
      assert |p.services + {s.service}| == |p.services| + 1;
    }
  }

  lemma StopFollowsPlan(g: State, p: Scenario.PlanState, m: Manifest, s: Scenario.Step, ms: int, e: Env)
    requires Agrees(g, p) && RequestTimeout(ms).Some? && s.op == Scenario.ServiceStop
    ensures var (after, reply) := Handled(g, m, ServiceStop(s.service, false, ms), e);
            match Scenario.PlanStep(p, s)
            case None => !reply.Answered?
            case Some(p') => !PlanRefusal(reply) && (reply.Answered? ==> Agrees(after, p'))
  {
  }

  /** The plan refuses the step only if the agent does, and otherwise both move together. */
  predicate Follows(r: Run, p: Scenario.PlanState, s: Scenario.Step, after: Run) {
    match Scenario.PlanStep(p, s)
    case None => !after.live
    case Some(p') =>
      && r.replies <= after.replies
      && (forall i :: |r.replies| <= i < |after.replies| ==> !PlanRefusal(after.replies[i]))
      && (after.live ==> after.done == r.done + 1 && Agrees(after.guest, p'))
  }

  predicate OnService(s: Scenario.Step) {
    s.op == Scenario.ServiceStart || s.op == Scenario.ServiceStop
  }

  lemma PlainStepFollowsPlan(r: Run, p: Scenario.PlanState, m: Manifest, s: Scenario.Step, e: StepEnv)
    requires Agrees(r.guest, p) && r.live && s.op != Scenario.Unsupported && !OnService(s)
    ensures Follows(r, p, s, StepRun(r, m, s, e))
  {
    KeysCount(r.guest.services);
  }

  lemma StepFollowsPlan(r: Run, p: Scenario.PlanState, m: Manifest, s: Scenario.Step, e: StepEnv)
    requires Agrees(r.guest, p) && r.live && Normal(s)
    ensures Follows(r, p, s, StepRun(r, m, s, e))
  {
    NormalTimeout(s);
    if !OnService(s) {
      PlainStepFollowsPlan(r, p, m, s, e);
    } else if SentTimeout(s, e.remainingNs).Some? {
      SentTimeoutIsAccepted(s, e.remainingNs);
      var ms := SentTimeout(s, e.remainingNs).value;
      if s.op == Scenario.ServiceStart {
        StartFollowsPlan(r.guest, p, m, s, ms, e.first);
      } else {
        StopFollowsPlan(r.guest, p, m, s, ms, e.first);
      }
    }
  }

  /** Whatever the sandbox does, an accepted plan is never refused for a reason the plan covers. */
  lemma {:induction false} PlanIsSound(m: Manifest, steps: seq<Scenario.Step>, envs: seq<StepEnv>)
    requires |steps| == |envs| && (forall i :: 0 <= i < |steps| ==> Normal(steps[i]))
    requires Scenario.PlanAfter(steps).Some?
    ensures var r := RunSteps(m, steps, envs);
            && (forall i :: 0 <= i < |r.replies| ==> !PlanRefusal(r.replies[i]))
            && (r.live ==> r.done == |steps| && Agrees(r.guest, Scenario.PlanAfter(steps).value))
  {
    if steps != [] {
      var n := |steps| - 1;
      PlanIsSound(m, steps[..n], envs[..n]);
      var before := RunSteps(m, steps[..n], envs[..n]);
      if before.live { StepFollowsPlan(before, Scenario.PlanAfter(steps[..n]).value, m, steps[n], envs[n]); }
    }
  }

  /** ... and a plan the validator refuses is completed by no agent in any sandbox. */
  lemma {:induction false} RefusedPlanNeverCompletes(m: Manifest, steps: seq<Scenario.Step>, envs: seq<StepEnv>)
    requires |steps| == |envs| && (forall i :: 0 <= i < |steps| ==> Normal(steps[i]))
    requires Scenario.PlanAfter(steps).None?
    ensures !RunSteps(m, steps, envs).live
  {
    var n := |steps| - 1;
    if Scenario.PlanAfter(steps[..n]).None? {
      RefusedPlanNeverCompletes(m, steps[..n], envs[..n]);
    } else {
      PlanIsSound(m, steps[..n], envs[..n]);
      var before := RunSteps(m, steps[..n], envs[..n]);
      if before.live { StepFollowsPlan(before, Scenario.PlanAfter(steps[..n]).value, m, steps[n], envs[n]); }
    }
  }

  function FairEnv(): Env {
    Env({}, {}, true, true, true, true, true, true, true, true, false)
  }

  function FairEnvs(n: nat): seq<StepEnv> {
    seq(n, _ => StepEnv(600000000000, FairEnv(), FairEnv(), true))
  }

  predicate Declared(s: Scenario.Step, m: Manifest) {
    && (s.op == Scenario.ActionExec ==> s.action in m.actions)
    && (s.op == Scenario.ServiceStart || s.op == Scenario.ServiceStop ==> s.service in m.services)
  }

  lemma FairStepSucceeds(r: Run, p: Scenario.PlanState, m: Manifest, s: Scenario.Step)
    requires Agrees(r.guest, p) && r.live && Normal(s) && Scenario.PlanStep(p, s).Some?
    requires Declared(s, m)
    ensures StepRun(r, m, s, FairEnvs(1)[0]).live
  {
    NormalTimeout(s);
    KeysCount(r.guest.services);
    if s.op == Scenario.ActionExec || s.op == Scenario.ServiceStart || s.op == Scenario.ServiceStop {
      SentTimeoutIsAccepted(s, 600000000000);
    }
    if s.op == Scenario.ServiceStart {
      assert |p.services + {s.service}| == |p.services| + 1;
    }
  }

  /** The validator's plan check is exact: it accepts what some agent can complete, and nothing else. */
  lemma {:induction false} PlanIsExact(m: Manifest, steps: seq<Scenario.Step>)
    requires forall i :: 0 <= i < |steps| ==> Normal(steps[i]) && Declared(steps[i], m)
    ensures Scenario.PlanAfter(steps).Some? <==> RunSteps(m, steps, FairEnvs(|steps|)).live
    ensures Scenario.PlanAfter(steps).Some? <==>
              exists envs: seq<StepEnv> :: |envs| == |steps| && RunSteps(m, steps, envs).live
  {
    forall envs: seq<StepEnv> | |envs| == |steps| && Scenario.PlanAfter(steps).None?
      ensures !RunSteps(m, steps, envs).live
    {
      RefusedPlanNeverCompletes(m, steps, envs);
    }
    if steps != [] && Scenario.PlanAfter(steps).Some? {
      var n := |steps| - 1;
      PlanIsExact(m, steps[..n]);
      PlanIsSound(m, steps[..n], FairEnvs(n));
      assert FairEnvs(|steps|)[..n] == FairEnvs(n);
      FairStepSucceeds(RunSteps(m, steps[..n], FairEnvs(n)), Scenario.PlanAfter(steps[..n]).value, m, steps[n]);
    }
  }

  lemma {:induction false} ResolvedStepsAreNormal(steps: seq<Scenario.Step>, runTimeout: int)
    requires runTimeout <= 600000 && Scenario.NormalizeAll(steps, Scenario.Vetting(runTimeout)) == Some(steps)
    ensures forall i :: 0 <= i < |steps| ==> Normal(steps[i])
  {
    if steps != [] {
      var n := |steps| - 1;
      var init := Scenario.NormalizeAll(steps[..n], Scenario.Vetting(runTimeout)).value;
      assert steps == init + [steps[n]];
      assert init == steps[..n];
      ResolvedStepsAreNormal(steps[..n], runTimeout);
      assert Scenario.Normalize(steps[n], runTimeout) == Some(steps[n]);
      forall i | 0 <= i < |steps| ensures Normal(steps[i]) {
        if i < n { assert steps[i] == steps[..n][i]; }
      }
    }
  }

  /**
  For a scenario Validate accepts: after any number of steps, and whatever the sandbox did,
  the agent has refused nothing the plan covers, and while every step so far succeeded its
  clock flag and live services are the validator's.
  */
  lemma ValidatedPlanIsSound(d: Scenario.Document, m: Manifest, envs: seq<StepEnv>, j: nat)
    requires Scenario.Acceptable(d) && j <= |Scenario.Resolved(d).steps| && |envs| == j
    ensures var steps := Scenario.Resolved(d).steps[..j];
            var r := RunSteps(m, steps, envs);
            && Scenario.PlanAfter(steps).Some?
            && (forall i :: 0 <= i < |r.replies| ==> !PlanRefusal(r.replies[i]))
            && (r.live ==> r.done == j && Agrees(r.guest, Scenario.PlanAfter(steps).value))
  {
    var e := Scenario.WithDefaults(d);
    var steps := Scenario.Resolved(d).steps;
    Scenario.VettingIsIdempotent(e.timeoutMs);
    Scenario.VettingKeepsIds(e.timeoutMs);
    Scenario.NormalizeAllIsIdempotent(e.steps, Scenario.Vetting(e.timeoutMs));
    ResolvedStepsAreNormal(steps, e.timeoutMs);
    Scenario.PlanPrefix(steps, j);
    PlanIsSound(m, steps[..j], envs);
  }
}
