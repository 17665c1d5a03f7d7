/**
One host/guest session: the client's Call (internal/guestclient/client.go:87-153), the
agent's connection loop (internal/guestagent/server.go:98-177) and the host's sequence
of calls (internal/engine/run.go:204-230, 324-334). Frames are whole: a frame cut on the
wire is never delivered. The connection may be cut, and either side may give up, at any
point.
*/
module Session {
  import opened Common
  import DecimalText
  import Scenario

  const MAX_REQUESTS: nat := 1024

  datatype Op = Hello | ClockRead | ClockSet | ActionExec | ServiceStart | ServiceStop | Shutdown

  /** A call and the scenario step it belongs to; hello and shutdown belong to none. */
  datatype Call = Call(op: Op, step: Option<nat>)

  datatype Request = Request(id: string, call: Call)

  /** `one` says the envelope holds exactly one well-formed result or error; `failed` that it is an error. */
  datatype Response = Response(id: string, op: Op, one: bool, failed: bool)

  predicate Changes(op: Op) {
    op == ClockSet || op == ActionExec || op == ServiceStart || op == ServiceStop
  }

  // ---- Request identities ------------------------------------------------------------

  /** The calls as requests, numbered from one. */
  function Numbered(calls: seq<Call>): (qs: seq<Request>)
    ensures |qs| == |calls|
  {
    if calls == [] then []
    else Numbered(calls[..|calls| - 1]) + [Request(DecimalText.Text(|calls|), calls[|calls| - 1])]
  }

  lemma {:induction false} NumberedAt(calls: seq<Call>, i: nat)
    requires i < |calls|
    ensures Numbered(calls)[i] == Request(DecimalText.Text(i + 1), calls[i])
  {
    if i < |calls| - 1 {
      NumberedAt(calls[..|calls| - 1], i);
    }
  }

  // ---- The client ---------------------------------------------------------------------

  /** What the connection gives back for one written request. */
  datatype Exchange = WriteFailed | ReadFailed | Received(response: Response, decodes: bool)

  datatype Outcome = NotSent | Unknown | ProtocolError | GuestError | Success

  /** The envelope checks of Call. */
  predicate Accepts(q: Request, r: Response) {
    r.id == q.id && r.op == q.call.op && r.one
  }

  predicate Fails(q: Request, x: Exchange) {
    !x.Received? || !Accepts(q, x.response) || (!x.response.failed && !x.decodes)
  }

  class Client {
    var next: nat
    var broken: bool

    constructor ()
      ensures next == 0 && !broken
    {
      next, broken := 0, false;
    }

    /** One call. An unusable connection sends nothing; a failure makes the connection unusable. */
    method Call(call: Call, cancelled: bool, x: Exchange) returns (sent: Option<Request>, outcome: Outcome)
      modifies this
      ensures sent == if old(broken) || cancelled then None else Some(Request(DecimalText.Text(next), call))
      ensures next == if sent.Some? then old(next) + 1 else old(next)
      ensures broken == (old(broken) || (sent.Some? && Fails(sent.value, x)))
      ensures outcome == NotSent <==> sent.None?
      ensures outcome == Unknown <==> broken && !old(broken) && call.op != Hello && call.op != ClockRead
      ensures outcome == ProtocolError <==> broken && !old(broken) && (call.op == Hello || call.op == ClockRead)
      ensures outcome == Success || outcome == GuestError ==>
                !broken && x.Received? && Accepts(sent.value, x.response) &&
                    (outcome == GuestError <==> x.response.failed)
    {
      if broken || cancelled { return None, NotSent; }
      next := next + 1;
      var q := Request(DecimalText.Text(next), call);
      sent := Some(q);
      var failure := if call.op != Hello && call.op != ClockRead then Unknown else ProtocolError;
      match x {
        case WriteFailed =>
          broken := true;
          return sent, failure;
        case ReadFailed =>
          broken := true;
          return sent, failure;
        case Received(r, decodes) =>
          if r.id != q.id || r.op != call.op || !r.one {
            broken := true;
            return sent, failure;
          }
          if r.failed { return sent, GuestError; }
          if !decodes {
            broken := true;
            return sent, failure;
          }
          return sent, Success;
      }
    }
  }

  // ---- The agent's connection loop --------------------------------------------------------

  function Ids(qs: seq<Request>): set<string> {
    set i | 0 <= i < |qs| :: qs[i].id
  }

  predicate Admits(handled: seq<Request>, q: Request) {
    q.id !in Ids(handled) && |Ids(handled)| < MAX_REQUESTS
  }

  /** serveConn over the frames that arrive; `written` says which replies could be written. */
  method ServeConn(frames: seq<Request>, written: seq<bool>) returns (n: nat, shutdown: bool)
    requires |written| == |frames|
    ensures n <= |frames| && n <= MAX_REQUESTS && |Ids(frames[..n])| == n
    ensures forall i :: 0 <= i < n - 1 ==> written[i] && frames[i].call.op != Shutdown
    ensures shutdown <==> n > 0 && frames[n - 1].call.op == Shutdown && written[n - 1]
    ensures n < |frames| ==>
              || !Admits(frames[..n], frames[n])
              || (n > 0 && (!written[n - 1] || frames[n - 1].call.op == Shutdown))
  {
    var seen: set<string> := {};
    n, shutdown := 0, false;
    assert frames[..0] == [];
    while n < |frames|
      invariant n <= |frames| && seen == Ids(frames[..n]) && |seen| == n <= MAX_REQUESTS && !shutdown
      invariant forall i :: 0 <= i < n ==> written[i] && frames[i].call.op != Shutdown
    {
      var q := frames[n];
      if q.id in seen || |seen| >= MAX_REQUESTS { return; }
      IdsNext(frames, n);
      seen := seen + {q.id};
      n := n + 1;
      if !written[n - 1] { return; }
      if q.call.op == Shutdown { shutdown := true; return; }
    }
  }

  lemma IdsNext(qs: seq<Request>, n: nat)
    requires n < |qs|
    ensures Ids(qs[..n + 1]) == Ids(qs[..n]) + {qs[n].id}
  {
    IdsSnoc(qs[..n], qs[n]);
    assert qs[..n] + [qs[n]] == qs[..n + 1];
  }

  lemma IdsSnoc(qs: seq<Request>, q: Request)
    ensures Ids(qs + [q]) == Ids(qs) + {q.id}
    ensures (qs + [q])[..|qs|] == qs
  {
    forall id ensures id in Ids(qs + [q]) <==> id in Ids(qs) + {q.id} {
      if id in Ids(qs) {
        var i :| 0 <= i < |qs| && qs[i].id == id;
        assert (qs + [q])[i].id == id;
      }
      assert (qs + [q])[|qs|].id == q.id;
    }
  }

  // ---- The session as a state machine -------------------------------------------------------

  function StepCalls(op: Scenario.Op, step: nat): seq<Call> {
    match op
    case ClockRead => [Call(ClockRead, Some(step))]
    case ClockSet => [Call(ClockSet, Some(step))]
    case ActionExec => [Call(ActionExec, Some(step))]
    case ServiceStart => [Call(ServiceStart, Some(step))]
    case ServiceStop => [Call(ServiceStop, Some(step))]
    case Wait => [Call(ClockRead, Some(step)), Call(ClockRead, Some(step))]
    case Unsupported => []
  }

  /** The calls of a scenario in order: hello, then each step, a wait being two reads. */
  function Script(ops: seq<Scenario.Op>): seq<Call> {
    if ops == [] then [Call(Hello, None)] else Script(ops[..|ops| - 1]) + StepCalls(ops[|ops| - 1], |ops| - 1)
  }

  const SHUTDOWN_CALL := Call(Shutdown, None)

  /**
  `issued` is every call whose frame was delivered to the connection, `answered` how many
  calls returned an accepted response, `stopped` that no further step will be sent.
  */
  datatype World = World(
    next: nat, broken: bool, waiting: bool, stopped: bool, shut: bool, answered: nat, issued: seq<Call>,
    toGuest: seq<Request>, toHost: seq<Response>, open: bool,
    handled: seq<Request>, reply: Option<Response>, up: bool, refused: bool)

  function Initial(): World {
    World(0, false, false, false, false, 0, [], [], [], true, [], None, true, false)
  }

  datatype Event =
    | Give                                       // the host stops before sending: deadline, failed observation
    | Send(delivered: bool, written: bool)       // the next call, or the shutdown once stopped
    | Take(failed: bool)                         // the agent reads, checks and handles one request
    | Reply(written: bool)                       // the agent writes the response
    | Hear(proceed: bool)                        // the host reads a response; `proceed` is its own verdict on it
    | Fail                                       // the host's read fails, or its deadline passes
    | Cut(lostRequests: nat, lostResponses: nat) // the connection breaks, losing what was last written
    | Down                                       // the agent ends

  function NextCall(w: World, script: seq<Call>): Call {
    if !w.stopped && w.answered < |script| then script[w.answered] else SHUTDOWN_CALL
  }

  predicate Enabled(w: World, script: seq<Call>, e: Event) {
    match e
    case Give => !w.waiting && !w.stopped
    case Send(delivered, written) =>
      && !w.waiting && !w.broken && !w.shut && (NextCall(w, script) == SHUTDOWN_CALL ==> w.answered > 0)
      && (written ==> delivered) && (delivered ==> w.open)
    case Take(_) => w.up && w.reply.None? && w.toGuest != []
    case Reply(written) => w.up && w.reply.Some? && (written ==> w.open)
    case Hear(_) => w.waiting && w.toHost != []
    case Fail => w.waiting
    case Cut(q, r) => w.open && q <= |w.toGuest| && r <= |w.toHost|
    case Down => w.up
  }

  function Sending(w: World, call: Call, delivered: bool, written: bool): World {
    w.(next := w.next + 1, waiting := written, broken := !written, shut := call == SHUTDOWN_CALL,
       stopped := w.stopped || call == SHUTDOWN_CALL || !written,
       issued := if delivered then w.issued + [call] else w.issued,
       toGuest := if delivered then w.toGuest + [Request(DecimalText.Text(w.next + 1), call)] else w.toGuest)
  }

  function Taking(w: World, failed: bool): World
    requires w.toGuest != []
  {
    var q := w.toGuest[0];
    if Admits(w.handled, q)
    then w.(toGuest := w.toGuest[1..], handled := w.handled + [q],
            reply := Some(Response(q.id, q.call.op, true, failed)))
    else w.(refused := true, up := false, open := false)
  }

  function Hearing(w: World, call: Call, proceed: bool): World
    requires w.toHost != []
  {
    var r := w.toHost[0];
    var good := Accepts(Request(DecimalText.Text(w.next), call), r);
    w.(toHost := w.toHost[1..], waiting := false, broken := !good,
       answered := if good then w.answered + 1 else w.answered,
       stopped := w.stopped || !good || r.failed || !proceed)
  }

  function Next(w: World, script: seq<Call>, e: Event): World
    requires Enabled(w, script, e)
  {
    match e
    case Give => w.(stopped := true)
    case Send(delivered, written) => Sending(w, NextCall(w, script), delivered, written)
    case Take(failed) => Taking(w, failed)
    case Reply(written) =>
      w.(reply := None, toHost := if written then w.toHost + [w.reply.value] else w.toHost,
         up := written && w.reply.value.op != Shutdown)
    case Hear(proceed) => Hearing(w, if w.shut then SHUTDOWN_CALL else NextCall(w, script), proceed)
    case Fail => w.(waiting := false, broken := true, stopped := true, open := false)
    case Cut(q, r) =>
      w.(open := false, toGuest := w.toGuest[..|w.toGuest| - q], toHost := w.toHost[..|w.toHost| - r])
    case Down => w.(up := false, open := false)
  }

  predicate IsSchedule(w: World, script: seq<Call>, es: seq<Event>)
    decreases |es|
  {
    es == [] || (Enabled(w, script, es[0]) && IsSchedule(Next(w, script, es[0]), script, es[1..]))
  }

  function Play(w: World, script: seq<Call>, es: seq<Event>): World
    requires IsSchedule(w, script, es)
    decreases |es|
  {
    if es == [] then w else Play(Next(w, script, es[0]), script, es[1..])
  }

  // ---- Invariant -------------------------------------------------------------------------

  /** The calls are the script's, in order, then perhaps the shutdown. */
  predicate InOrder(issued: seq<Call>, script: seq<Call>, shut: bool) {
    || issued <= script
    || (shut && issued != [] && issued[|issued| - 1] == SHUTDOWN_CALL && issued[..|issued| - 1] <= script)
  }

  /** How far the host is, against what it issued. */
  predicate HostOk(w: World) {
    && w.answered <= |w.issued| <= w.answered + 1
    && (w.waiting ==> !w.broken && |w.issued| == w.answered + 1)
    && (!w.waiting && !w.broken ==> |w.issued| == w.answered)
    && (!w.broken ==> w.next == |w.issued|)
    && (w.broken || w.shut ==> w.stopped)
  }

  predicate RepliesOk(handled: seq<Request>, toHost: seq<Response>, reply: Option<Response>) {
    && (forall i :: 0 <= i < |toHost| ==> toHost[i].id in Ids(handled))
    && (reply.Some? ==> reply.value.id in Ids(handled))
  }

  predicate Inv(w: World, script: seq<Call>) {
    && InOrder(w.issued, script, w.shut) && HostOk(w)
    && w.handled + w.toGuest <= Numbered(w.issued)
    && w.answered <= |w.handled|
    && RepliesOk(w.handled, w.toHost, w.reply)
    && !w.refused
  }

  lemma NumberedSnoc(calls: seq<Call>, call: Call)
    ensures Numbered(calls + [call]) == Numbered(calls) + [Request(DecimalText.Text(|calls| + 1), call)]
  {
    assert (calls + [call])[..|calls|] == calls;
  }

  lemma NextCallInOrder(w: World, script: seq<Call>)
    requires InOrder(w.issued, script, w.shut) && !w.shut && |w.issued| == w.answered
    ensures InOrder(w.issued + [NextCall(w, script)], script, NextCall(w, script) == SHUTDOWN_CALL)
  {
    var call := NextCall(w, script);
    assert (w.issued + [call])[..|w.issued|] == w.issued;
    if call != SHUTDOWN_CALL { assert script[..w.answered + 1] == w.issued + [call]; }
  }

  lemma SendKeepsInv(w: World, script: seq<Call>, delivered: bool, written: bool)
    requires Inv(w, script) && Enabled(w, script, Send(delivered, written))
    ensures Inv(Sending(w, NextCall(w, script), delivered, written), script)
  {
    var call := NextCall(w, script);
    assert w.handled + w.toGuest == Numbered(w.issued);
    if delivered {
      NumberedSnoc(w.issued, call);
      NextCallInOrder(w, script);
      var q := Request(DecimalText.Text(w.next + 1), call);
      assert w.handled + (w.toGuest + [q]) == Numbered(w.issued) + [q];
    }
  }

  lemma {:induction false} IdsCount(qs: seq<Request>)
    ensures |Ids(qs)| <= |qs|
  {
    if qs != [] {
      IdsCount(qs[..|qs| - 1]);
      IdsSnoc(qs[..|qs| - 1], qs[|qs| - 1]);
      assert qs[..|qs| - 1] + [qs[|qs| - 1]] == qs;
    }
  }

  /** The agent's duplicate and quota checks pass for the next request of a session. */
  lemma NextIsAdmitted(calls: seq<Call>, n: nat)
    requires n < |calls| <= MAX_REQUESTS
    ensures Admits(Numbered(calls)[..n], Numbered(calls)[n])
  {
    IdsCount(Numbered(calls)[..n]);
    forall i | 0 <= i < n ensures Numbered(calls)[..n][i].id != Numbered(calls)[n].id {
      NumberedAt(calls, i);
      NumberedAt(calls, n);
      DecimalText.TextsDiffer(i + 1, n + 1);
    }
  }

  lemma TakeKeepsInv(w: World, script: seq<Call>, failed: bool)
    requires Inv(w, script) && Enabled(w, script, Take(failed)) && |script| < MAX_REQUESTS
    ensures Inv(Taking(w, failed), script)
  {
    var n, q := |w.handled|, w.toGuest[0];
    assert (w.handled + w.toGuest)[n] == q;
    assert Numbered(w.issued)[..n] == (w.handled + w.toGuest)[..n] == w.handled;
    NextIsAdmitted(w.issued, n);
    IdsSnoc(w.handled, q);
    assert w.handled + [q] + w.toGuest[1..] == w.handled + w.toGuest;
  }

  lemma HearKeepsInv(w: World, script: seq<Call>, call: Call, proceed: bool)
    requires Inv(w, script) && w.waiting && w.toHost != []
    ensures Inv(Hearing(w, call, proceed), script)
  {
    var r := w.toHost[0];
    if Accepts(Request(DecimalText.Text(w.next), call), r) {
      var i :| 0 <= i < |w.handled| && w.handled[i].id == r.id;
      assert (w.handled + w.toGuest)[i] == Numbered(w.issued)[i];
      NumberedAt(w.issued, i);
      DecimalText.TextsDiffer(i + 1, |w.issued|);
    }
  }

  lemma ReplyKeepsInv(w: World, script: seq<Call>, written: bool)
    requires Inv(w, script) && Enabled(w, script, Reply(written))
    ensures Inv(Next(w, script, Reply(written)), script)
  {
  }

  /** Either side gives up; nothing moves on the connection. */
  lemma EndingKeepsInv(w: World, script: seq<Call>, e: Event)
    requires Inv(w, script) && Enabled(w, script, e) && (e.Give? || e.Fail? || e.Down?)
    ensures Inv(Next(w, script, e), script)
  {
  }

  lemma CutKeepsInv(w: World, script: seq<Call>, q: nat, r: nat)
    requires Inv(w, script) && Enabled(w, script, Cut(q, r))
    ensures Inv(Next(w, script, Cut(q, r)), script)
  {
    CutPrefix(w.handled, w.toGuest, |w.toGuest| - q, Numbered(w.issued));
  }

  lemma CutPrefix<T>(a: seq<T>, b: seq<T>, k: nat, all: seq<T>)
    requires k <= |b| && a + b <= all
    ensures a + b[..k] <= all
  {
    assert a + b[..k] == (a + b)[..|a| + k];
  }

  lemma StepKeepsInv(w: World, script: seq<Call>, e: Event)
    requires Inv(w, script) && Enabled(w, script, e) && |script| < MAX_REQUESTS
    ensures Inv(Next(w, script, e), script)
  {
    match e {
      case Send(delivered, written) => SendKeepsInv(w, script, delivered, written);
      case Take(failed) => TakeKeepsInv(w, script, failed);
      case Reply(written) => ReplyKeepsInv(w, script, written);
      case Hear(proceed) => HearKeepsInv(w, script, if w.shut then SHUTDOWN_CALL else NextCall(w, script), proceed);
      case Cut(q, r) => CutKeepsInv(w, script, q, r);
      case _ => EndingKeepsInv(w, script, e);
    }
  }

  lemma {:induction false} InvAlongSchedule(w: World, script: seq<Call>, es: seq<Event>)
    requires Inv(w, script) && IsSchedule(w, script, es) && |script| < MAX_REQUESTS
    ensures Inv(Play(w, script, es), script)
    decreases |es|
  {
    if es != [] {
      StepKeepsInv(w, script, es[0]);
      InvAlongSchedule(Next(w, script, es[0]), script, es[1..]);
    }
  }

  // ---- At most once ------------------------------------------------------------------------

  /** The steps of the state-changing calls, in order. */
  function ChangingSteps(calls: seq<Call>): seq<nat> {
    if calls == [] then []
    else
      var last := calls[|calls| - 1];
      ChangingSteps(calls[..|calls| - 1]) + if Changes(last.op) && last.step.Some? then [last.step.value] else []
  }

  function Calls(qs: seq<Request>): seq<Call> {
    seq(|qs|, i requires 0 <= i < |qs| => qs[i].call)
  }

  /** The state-changing steps of a scenario, in order. */
  function Changing(ops: seq<Scenario.Op>): seq<nat> {
    if ops == [] then []
    else Changing(ops[..|ops| - 1]) + if ChangesGuest(ops[|ops| - 1]) then [|ops| - 1] else []
  }

  predicate ChangesGuest(op: Scenario.Op) {
    op == Scenario.ClockSet || op == Scenario.ActionExec || op == Scenario.ServiceStart || op == Scenario.ServiceStop
  }

  lemma {:induction false} ChangingStepsAdds(a: seq<Call>, b: seq<Call>)
    ensures ChangingSteps(a + b) == ChangingSteps(a) + ChangingSteps(b)
  {
    if b == [] {
      assert a + b == a;
    } else {
      ChangingStepsAdds(a, b[..|b| - 1]);
      assert (a + b)[..|a + b| - 1] == a + b[..|b| - 1];
    }
  }

  lemma StepCallsChange(op: Scenario.Op, n: nat)
    ensures ChangingSteps(StepCalls(op, n)) == if ChangesGuest(op) then [n] else []
    ensures |StepCalls(op, n)| <= 2
  {
    var calls := StepCalls(op, n);
    if |calls| == 2 {
      assert calls[..1][..0] == [];
      assert ChangingSteps(calls[..1]) == [];
    } else if |calls| == 1 {
      assert calls[..0] == [];
    }
  }

  lemma {:induction false} ScriptChangesInOrder(ops: seq<Scenario.Op>)
    ensures ChangingSteps(Script(ops)) == Changing(ops)
    ensures |Script(ops)| <= 1 + 2 * |ops|
  {
    if ops != [] {
      var n := |ops| - 1;
      ScriptChangesInOrder(ops[..n]);
      StepCallsChange(ops[n], n);
      ChangingStepsAdds(Script(ops[..n]), StepCalls(ops[n], n));
    } else {
      assert Script(ops)[..0] == [];
    }
  }

  /** Changing lists exactly the state-changing steps, each once, in increasing order. */
  lemma {:induction false} ChangingIsTheSteps(ops: seq<Scenario.Op>)
    ensures forall i :: i in Changing(ops) <==> 0 <= i < |ops| && ChangesGuest(ops[i])
    ensures forall i, j :: 0 <= i < j < |Changing(ops)| ==> Changing(ops)[i] < Changing(ops)[j]
  {
    if ops != [] {
      var init := Changing(ops[..|ops| - 1]);
      ChangingIsTheSteps(ops[..|ops| - 1]);
      assert forall i :: 0 <= i < |init| ==> init[i] in init;
    }
  }

  lemma ChangingStepsPrefix(a: seq<Call>, b: seq<Call>)
    requires a <= b
    ensures ChangingSteps(a) <= ChangingSteps(b)
  {
    var rest := b[|a|..];
    assert b == a + rest;
    ChangingStepsAdds(a, rest);
  }

  lemma ChangingStepsSnoc(a: seq<Call>, b: seq<Call>)
    requires a <= b && |b| <= |a| + 1
    ensures |ChangingSteps(b)| <= |ChangingSteps(a)| + 1
  {
    if |b| == |a| { assert a == b; } else { assert b[..|b| - 1] == a; }
  }

  lemma {:induction false} NumberedCalls(calls: seq<Call>)
    ensures Calls(Numbered(calls)) == calls
  {
    if calls != [] {
      NumberedCalls(calls[..|calls| - 1]);
      assert calls == calls[..|calls| - 1] + [calls[|calls| - 1]];
    }
  }

  lemma CallsOfPrefix(handled: seq<Request>, rest: seq<Request>, all: seq<Request>)
    requires handled + rest <= all
    ensures |handled| <= |all| && Calls(handled) == Calls(all)[..|handled|]
  {
    forall i | 0 <= i < |handled| ensures handled[i] == all[i] {
      assert handled[i] == (handled + rest)[i];
    }
  }

  lemma InOrderChanges(issued: seq<Call>, script: seq<Call>, shut: bool)
    requires InOrder(issued, script, shut)
    ensures ChangingSteps(issued) <= ChangingSteps(script)
  {
    if issued <= script {
      ChangingStepsPrefix(issued, script);
    } else {
      ChangingStepsPrefix(issued[..|issued| - 1], script);
    }
  }

  /**
  The state-changing steps the agent has handled are a prefix of the scenario's, each once and in
  order; they are those the host has answers to, or one more; and no request was refused as a
  duplicate or over quota.
  */
  predicate HandledInOrder(w: World, ops: seq<Scenario.Op>) {
    var done := ChangingSteps(Calls(w.handled));
    && done <= Changing(ops)
    && w.answered <= |w.issued|
    && ChangingSteps(w.issued[..w.answered]) <= done
    && |done| <= |ChangingSteps(w.issued[..w.answered])| + 1
    && !w.refused && |w.handled| <= 2 + 2 * |ops|
  }

  /** The calls of the handled requests are the first of those issued. */
  lemma HandledAreIssued(w: World, script: seq<Call>)
    requires Inv(w, script)
    ensures |w.handled| <= |w.issued| && Calls(w.handled) == w.issued[..|w.handled|]
  {
    NumberedCalls(w.issued);
    CallsOfPrefix(w.handled, w.toGuest, Numbered(w.issued));
  }

  lemma InvMeansInOrder(w: World, ops: seq<Scenario.Op>)
    requires Inv(w, Script(ops))
    ensures HandledInOrder(w, ops)
  {
    HandledAreIssued(w, Script(ops));
    ScriptChangesInOrder(ops);
    InOrderChanges(w.issued, Script(ops), w.shut);
    HandledBetween(w.issued, w.answered, |w.handled|);
  }

  lemma HandledBetween(issued: seq<Call>, answered: nat, handled: nat)
    requires answered <= handled <= |issued| <= answered + 1
    ensures ChangingSteps(issued[..answered]) <= ChangingSteps(issued[..handled]) <= ChangingSteps(issued)
    ensures |ChangingSteps(issued[..handled])| <= |ChangingSteps(issued[..answered])| + 1
  {
    ChangingStepsPrefix(issued[..handled], issued);
    assert issued[..handled][..answered] == issued[..answered];
    ChangingStepsPrefix(issued[..answered], issued[..handled]);
    ChangingStepsSnoc(issued[..answered], issued[..handled]);
  }

  /** Whatever is cut, lost or fails. */
  lemma AtMostOnce(ops: seq<Scenario.Op>, w: World, es: seq<Event>)
    requires |ops| <= Scenario.MAX_STEPS && w == Initial() && IsSchedule(w, Script(ops), es)
    ensures HandledInOrder(Play(w, Script(ops), es), ops)
  {
    ScriptChangesInOrder(ops);
    assert Numbered([]) == [];
    InvAlongSchedule(w, Script(ops), es);
    InvMeansInOrder(Play(w, Script(ops), es), ops);
  }

  /** Once a step has failed, no step is ever sent: only one shutdown, and not on a broken connection. */
  lemma {:induction false} NothingAfterFailure(w: World, script: seq<Call>, es: seq<Event>)
    requires w.stopped && (w.waiting ==> !w.broken) && IsSchedule(w, script, es)
    ensures var w' := Play(w, script, es);
            && w'.stopped && (w.shut ==> w'.shut)
            && (w'.issued == w.issued || (w'.issued == w.issued + [SHUTDOWN_CALL] && !w.shut && !w.broken))
            && (w'.shut || w'.issued == w.issued)
    decreases |es|
  {
    if es != [] {
      NothingAfterFailure(Next(w, script, es[0]), script, es[1..]);
    }
  }
}
