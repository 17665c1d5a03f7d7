/**
The agent-authority workload (workloads/agent-authority-expiry/main.go): a restart is
authorized when asked for and again when carried out, and a pending request is consumed
durably before it is carried out. Commands run one after another; a command may fail,
be killed, or lose power between any two file operations. Instants are integers, and a
timestamp text that does not parse is None.
*/
module Authority {
  import opened Common

  datatype Decision =
    | Authorized | NotYetValid | Expired | CapabilityMismatch | ResourceMismatch
    | MalformedAuthority | PrincipalMismatch | MalformedRequest | UnsupportedOperation

  datatype Grant = Grant(principal: string, capability: string, resource: string, notBefore: Option<int>,
      expiresAt: Option<int>)

  datatype Request = Request(id: string, agent: string, operation: string, resource: string, grant: Grant)

  const RESTART := "worker.restart"

  predicate SafeId(s: string) {
    && 1 <= |s| <= 64 && s[0] != '_' && s[0] != '-'
    && forall i :: 0 <= i < |s| ==>
        'a' <= s[i] <= 'z' || 'A' <= s[i] <= 'Z' || '0' <= s[i] <= '9' || s[i] == '_' || s[i] == '-'
  }

  predicate WellFormed(g: Grant) {
    && 1 <= |g.principal| <= 256 && 1 <= |g.capability| <= 128 && 1 <= |g.resource| <= 128
    && g.notBefore.Some? && g.expiresAt.Some? && g.notBefore.value < g.expiresAt.value
  }

  function Authorize(q: Request, now: int): Decision {
    if !SafeId(q.id) || !SafeId(q.agent) || !SafeId(q.resource) then MalformedRequest
    else if q.operation != RESTART then UnsupportedOperation
    else if !WellFormed(q.grant) then MalformedAuthority
    else if q.grant.principal != "agent://" + q.agent then PrincipalMismatch
    else if q.grant.capability != q.operation then CapabilityMismatch
    else if q.grant.resource != q.resource then ResourceMismatch
    else if now < q.grant.notBefore.value then NotYetValid
    else if now >= q.grant.expiresAt.value then Expired
    else Authorized
  }

  /** The grant names this agent, operation and resource, and now is in [not_before, expires_at). */
  predicate Covers(q: Request, now: int) {
    && q.operation == RESTART
    && q.grant.principal == "agent://" + q.agent && q.grant.capability == q.operation && q.grant.resource == q.resource
    && q.grant.notBefore.Some? && q.grant.expiresAt.Some?
    && q.grant.notBefore.value <= now < q.grant.expiresAt.value
  }

  predicate Nameable(q: Request) {
    SafeId(q.id) && SafeId(q.agent) && SafeId(q.resource)
  }

  lemma AuthorizedExactly(q: Request, now: int)
    ensures Authorize(q, now) == Authorized <==> Nameable(q) && Covers(q, now)
  {
  }

  /** The commands below use whatever rule decides at an instant; the program's is Authorize. */
  type Rule = (Request, int) -> bool

  function Program(): Rule {
    (q, now) => Authorize(q, now) == Authorized
  }

  /** `serial` tells accepted requests apart, even ones with the same text. */
  datatype Pending = Pending(request: Request, acceptedAt: int, serial: nat)

  datatype Worker = Worker(resource: string, restarts: nat, lastRequest: string)

  /** A restart that reached the worker file. */
  datatype Raise = Raise(request: Request, at: int, serial: Option<nat>)

  /** Where the running command stands. */
  datatype Proc =
    | Idle
    | PendingReady(p: Pending)                      // request: about to create the temporary file
    | PendingWritten(p: Pending)                    // ... it is synced, about to be renamed
    | PendingRenamed                                // ... about to sync the directory
    | Removing(p: Pending)                          // execute-pending: about to remove the file
    | Removed(p: Pending)                           // ... about to sync the directory
    | Deciding(p: Pending)                          // ... about to authorize again
    | Restarting(r: Raise)                          // about to read the worker file
    | WorkerReady(r: Raise, next: Worker)           // about to create the temporary file
    | WorkerWritten(r: Raise, next: Worker)         // about to rename it
    | WorkerRenamed                                 // about to sync the directory

  /** A directory entry as programs see it, and as it would be found after losing power. */
  datatype Entry<T> = Entry(seen: Option<T>, durable: Option<T>)

  datatype World = World(
    pending: Entry<Pending>, worker: Entry<Worker>, pendingTmp: bool, workerTmp: bool, proc: Proc,
    accepted: nat, raises: seq<Raise>)

  function Initial(): World {
    World(Entry(None, None), Entry(None, None), false, false, Idle, 0, [])
  }

  datatype Event =
    | Attempt(request: Request, first: int, second: int)
    | Ask(request: Request, now: int)
    | ExecutePending
    | Decide(now: int)
    | Proceed                                       // the next file operation succeeds
    | Fail                                          // ... fails, and writeJSON removes its temporary file
    | Kill
    | PowerLoss(keepPending: bool, keepWorker: bool, pendingTmp: bool, workerTmp: bool)

  predicate Enabled(w: World, e: Event) {
    match e
    case Attempt(_, _, _) => w.proc.Idle?
    case Ask(_, _) => w.proc.Idle?
    case ExecutePending => w.proc.Idle?
    case Decide(_) => w.proc.Deciding?
    case Proceed => !w.proc.Idle? && !w.proc.Deciding?
    case Fail => !w.proc.Idle?
    case _ => true
  }

  function Kept<T>(e: Entry<T>, keep: bool): Entry<T> {
    if keep then Entry(e.seen, e.seen) else Entry(e.durable, e.durable)
  }

  function Synced(w: World): World {
    w.(pending := Kept(w.pending, true), worker := Kept(w.worker, true))
  }

  /** restartWorker's view of the worker file; None when the file is another worker's. */
  function Restarted(worker: Option<Worker>, q: Request): Option<Worker> {
    if !SafeId(q.resource) then None
    else match worker
      case None => Some(Worker(q.resource, 1, q.id))
      case Some(s) => if s.resource != q.resource then None else Some(Worker(s.resource, s.restarts + 1, q.id))
  }

  /** The file operations on the pending request, of request and execute-pending. */
  function PendingStep(w: World): World {
    match w.proc
    case PendingReady(p) => w.(pendingTmp := true, proc := if w.pendingTmp then Idle else PendingWritten(p))
    case PendingWritten(p) => w.(pending := w.pending.(seen := Some(p)), pendingTmp := false, proc := PendingRenamed)
    case PendingRenamed => Synced(w).(proc := Idle)
    case Removing(p) => w.(pending := w.pending.(seen := None), proc := Removed(p))
    case Removed(p) => Synced(w).(proc := Deciding(p))
    case _ => w
  }

  /** The file operations of restartWorker. */
  function WorkerStep(w: World): World {
    match w.proc
    case Restarting(r) =>
      var next := Restarted(w.worker.seen, r.request);
      w.(proc := if next.None? then Idle else WorkerReady(r, next.value))
    case WorkerReady(r, next) => w.(workerTmp := true, proc := if w.workerTmp then Idle else WorkerWritten(r, next))
    case WorkerWritten(r, next) =>
      w.(worker := w.worker.(seen := Some(next)), workerTmp := false, raises := w.raises + [r], proc := WorkerRenamed)
    case WorkerRenamed => Synced(w).(proc := Idle)
    case _ => w
  }

  predicate OnWorker(p: Proc) {
    p.Restarting? || p.WorkerReady? || p.WorkerWritten? || p.WorkerRenamed?
  }

  function Next(w: World, e: Event, rule: Rule): World
    requires Enabled(w, e)
  {
    match e
    case Attempt(q, first, second) =>
      if rule(q, first) && rule(q, second)
      then w.(proc := Restarting(Raise(q, second, None))) else w
    case Ask(q, now) =>
      if rule(q, now) && w.pending.seen.None?
      then w.(proc := PendingReady(Pending(q, now, w.accepted)), accepted := w.accepted + 1) else w
    case ExecutePending => if w.pending.seen.Some? then w.(proc := Removing(w.pending.seen.value)) else w
    case Decide(now) =>
      var p := w.proc.p;
      w.(proc := if rule(p.request, now) then Restarting(Raise(p.request, now, Some(p.serial))) else Idle)
    case Proceed => if OnWorker(w.proc) then WorkerStep(w) else PendingStep(w)
    case Fail =>
      w.(pendingTmp := if w.proc.PendingWritten? then false else w.pendingTmp,
         workerTmp := if w.proc.WorkerWritten? then false else w.workerTmp, proc := Idle)
    case Kill => w.(proc := Idle)
    case PowerLoss(keepPending, keepWorker, pendingTmp, workerTmp) =>
      w.(pending := Kept(w.pending, keepPending), worker := Kept(w.worker, keepWorker),
         pendingTmp := pendingTmp, workerTmp := workerTmp, proc := Idle)
  }

  predicate IsSchedule(w: World, es: seq<Event>, rule: Rule)
    decreases |es|
  {
    es == [] || (Enabled(w, es[0]) && IsSchedule(Next(w, es[0], rule), es[1..], rule))
  }

  function Play(w: World, es: seq<Event>, rule: Rule): World
    requires IsSchedule(w, es, rule)
    decreases |es|
  {
    if es == [] then w else Play(Next(w, es[0], rule), es[1..], rule)
  }

  // ---- Invariant ---------------------------------------------------------------------------

  predicate Unused(p: Pending, accepted: nat, raises: seq<Raise>) {
    p.serial < accepted && forall i :: 0 <= i < |raises| ==> raises[i].serial != Some(p.serial)
  }

  predicate EntryUnused(e: Entry<Pending>, accepted: nat, raises: seq<Raise>) {
    && (e.seen.Some? ==> Unused(e.seen.value, accepted, raises))
    && (e.durable.Some? ==> Unused(e.durable.value, accepted, raises))
  }

  predicate RaiseUnused(r: Raise, pending: Entry<Pending>, accepted: nat, raises: seq<Raise>, rule: Rule) {
    && rule(r.request, r.at)
    && (r.serial.Some? ==>
          && pending == Entry(None, None) && r.serial.value < accepted
          && forall i :: 0 <= i < |raises| ==> raises[i].serial != r.serial)
  }

  function Restarts(worker: Option<Worker>): nat {
    if worker.Some? then worker.value.restarts else 0
  }

  /** What the running command may rely on. */
  predicate ProcOk(w: World, rule: Rule) {
    match w.proc
    case PendingReady(p) => Unused(p, w.accepted, w.raises)
    case PendingWritten(p) => Unused(p, w.accepted, w.raises)
    case Removing(p) => Unused(p, w.accepted, w.raises)
    case Removed(p) => Unused(p, w.accepted, w.raises) && w.pending.seen.None?
    case Deciding(p) => Unused(p, w.accepted, w.raises) && w.pending == Entry(None, None)
    case Restarting(r) => RaiseUnused(r, w.pending, w.accepted, w.raises, rule)
    case WorkerReady(r, next) => RaiseUnused(r, w.pending, w.accepted, w.raises, rule) &&
        next.restarts == Restarts(w.worker.seen) + 1
    case WorkerWritten(r, next) => RaiseUnused(r, w.pending, w.accepted, w.raises, rule) &&
        next.restarts == Restarts(w.worker.seen) + 1
    case _ => true
  }

  predicate RaisesOk(raises: seq<Raise>, accepted: nat, rule: Rule) {
    && (forall i :: 0 <= i < |raises| ==> rule(raises[i].request, raises[i].at))
    && (forall i :: 0 <= i < |raises| && raises[i].serial.Some? ==> raises[i].serial.value < accepted)
    && (forall i, j :: 0 <= i < j < |raises| && raises[i].serial.Some? ==> raises[i].serial != raises[j].serial)
  }

  predicate Inv(w: World, rule: Rule) {
    && RaisesOk(w.raises, w.accepted, rule) && EntryUnused(w.pending, w.accepted, w.raises) && ProcOk(w, rule)
    && Restarts(w.worker.durable) <= Restarts(w.worker.seen) <= |w.raises|
  }

  lemma RaiseKeepsRaisesOk(w: World, r: Raise, rule: Rule)
    requires RaisesOk(w.raises, w.accepted, rule) && RaiseUnused(r, w.pending, w.accepted, w.raises, rule)
    ensures RaisesOk(w.raises + [r], w.accepted, rule)
  {
    var raises := w.raises + [r];
    forall i, j | 0 <= i < j < |raises| && raises[i].serial.Some? ensures raises[i].serial != raises[j].serial {
      if j == |w.raises| { assert raises[i] == w.raises[i]; }
    }
  }

  lemma PendingStepKeepsInv(w: World, rule: Rule)
    requires Inv(w, rule) && !OnWorker(w.proc)
    ensures Inv(PendingStep(w), rule)
  {
  }

  lemma WorkerStepKeepsInv(w: World, rule: Rule)
    requires Inv(w, rule) && OnWorker(w.proc)
    ensures Inv(WorkerStep(w), rule)
  {
    if w.proc.WorkerWritten? { RaiseKeepsRaisesOk(w, w.proc.r, rule); }
  }

  lemma StepKeepsInv(w: World, e: Event, rule: Rule)
    requires Inv(w, rule) && Enabled(w, e)
    ensures Inv(Next(w, e, rule), rule)
  {
    if e.Proceed? {
      if OnWorker(w.proc) { WorkerStepKeepsInv(w, rule); } else { PendingStepKeepsInv(w, rule); }
    }
  }

  lemma {:induction false} InvAlongSchedule(w: World, es: seq<Event>, rule: Rule)
    requires Inv(w, rule) && IsSchedule(w, es, rule)
    ensures Inv(Play(w, es, rule), rule)
    decreases |es|
  {
    if es != [] {
      StepKeepsInv(w, es[0], rule);
      InvAlongSchedule(Next(w, es[0], rule), es[1..], rule);
    }
  }

  /** The restart count did not rise, or by one, with one restart recorded at an instant the rule allows. */
  ghost predicate RisesAsAllowed(w: World, w': World, rule: Rule) {
    || (w'.raises == w.raises && Restarts(w'.worker.seen) <= Restarts(w.worker.seen))
    || (exists r ::
          && w'.raises == w.raises + [r] && rule(r.request, r.at)
          && Restarts(w'.worker.seen) == Restarts(w.worker.seen) + 1)
  }

  lemma WorkerStepRises(w: World, rule: Rule)
    requires Inv(w, rule) && OnWorker(w.proc)
    ensures RisesAsAllowed(w, WorkerStep(w), rule)
  {
    if w.proc.WorkerWritten? {
      var r := w.proc.r;
      assert WorkerStep(w).raises == w.raises + [r];
    }
  }

  lemma CountRisesOnlyWhenAllowed(w: World, e: Event, rule: Rule)
    requires Inv(w, rule) && Enabled(w, e)
    ensures RisesAsAllowed(w, Next(w, e, rule), rule)
  {
    if e.Proceed? && OnWorker(w.proc) { WorkerStepRises(w, rule); }
  }

  /** Every restart happened inside the window of a matching grant, and no pending request did it twice. */
  predicate RestartsJustified(w: World) {
    && (forall i :: 0 <= i < |w.raises| ==> Covers(w.raises[i].request, w.raises[i].at))
    && (forall i, j :: 0 <= i < j < |w.raises| && w.raises[i].serial.Some? ==> w.raises[i].serial != w.raises[j].serial)
    && Restarts(w.worker.seen) <= |w.raises|
  }

  lemma InvMeansJustified(w: World)
    requires Inv(w, Program())
    ensures RestartsJustified(w)
  {
    forall i | 0 <= i < |w.raises| ensures Covers(w.raises[i].request, w.raises[i].at) {
      AuthorizedExactly(w.raises[i].request, w.raises[i].at);
    }
  }

  /** Over any commands, clock readings, failures, kills and power losses. */
  lemma EveryRestartIsJustified(w: World, es: seq<Event>)
    requires w == Initial() && IsSchedule(w, es, Program())
    ensures RestartsJustified(Play(w, es, Program()))
  {
    InvAlongSchedule(w, es, Program());
    InvMeansJustified(Play(w, es, Program()));
  }

  // ---- The commands, updating the files -----------------------------------------------------

  datatype Outcome = Outcome(initial: Decision, execution: Option<Decision>, accepted: bool, performed: bool)

  /** What a command reports, from its first decision and the one at execution, if it got there. */
  predicate Consistent(o: Outcome) {
    && o.accepted == (o.initial == Authorized) && (o.execution.Some? ==> o.accepted)
    && o.performed == (o.execution == Some(Authorized))
  }

  class Files {
    var pending: Option<Pending>
    var worker: Option<Worker>

    constructor ()
      ensures pending == None && worker == None
    {
      pending, worker := None, None;
    }

    /** None when the worker file is another worker's or its write fails, which it may after the rename. */
    method RestartWorker(q: Request, write: SaveOutcome) returns (state: Option<Worker>)
      modifies this`worker
      ensures state == if write == Saved then Restarted(old(worker), q) else None
      ensures worker ==
              if write != Lost && Restarted(old(worker), q).Some? then Restarted(old(worker), q) else old(worker)
      ensures worker != old(worker) ==>
                Restarts(worker) == Restarts(old(worker)) + 1 && worker.value.lastRequest == q.id
    {
      if !SafeId(q.resource) { return None; }
      var s := if worker.Some? then worker.value else Worker(q.resource, 0, "");
      if s.resource != q.resource { return None; }
      s := s.(restarts := s.restarts + 1, lastRequest := q.id);
      if write == Lost { return None; }
      worker := Some(s);
      return if write == Saved then worker else None;
    }

    method Attempt(q: Request, first: int, second: int, write: SaveOutcome) returns (o: Option<Outcome>)
      modifies this`worker
      ensures o.Some? ==> Consistent(o.value) && o.value.initial == Authorize(q, first)
      ensures o.Some? && o.value.accepted ==> o.value.execution == Some(Authorize(q, second))
      ensures o.None? <==> MayRestart(q, first, second) && !(write == Saved && Restarted(old(worker), q).Some?)
      ensures worker == if MayRestart(q, first, second) && write != Lost && Restarted(old(worker), q).Some?
                        then Restarted(old(worker), q) else old(worker)
      ensures worker != old(worker) ==>
                Covers(q, first) && Covers(q, second) && Restarts(worker) == Restarts(old(worker)) + 1
      // The command errs although the worker was restarted exactly if the write failed after its rename.
      ensures o.None? && worker != old(worker) <==>
                MayRestart(q, first, second) && write == Unsure && Restarted(old(worker), q).Some?
    {
      AuthorizedExactly(q, first);
      AuthorizedExactly(q, second);
      var initial := Authorize(q, first);
      if initial != Authorized { return Some(Outcome(initial, None, false, false)); }
      var execution := Authorize(q, second);
      if execution != Authorized { return Some(Outcome(initial, Some(execution), true, false)); }
      var state := RestartWorker(q, write);
      if state.None? { return None; }
      return Some(Outcome(initial, Some(execution), true, true));
    }

    /** A request is stored only if it is authorized now and nothing is pending. */
    method Ask(q: Request, now: int, serial: nat, write: SaveOutcome) returns (o: Option<Outcome>)
      modifies this`pending
      ensures o.Some? ==> Consistent(o.value) && o.value.initial == Authorize(q, now) && o.value.execution.None?
      ensures o.None? <==> Covers(q, now) && Nameable(q) && (old(pending).Some? || write != Saved)
      ensures pending == if Covers(q, now) && Nameable(q) && old(pending).None? && write != Lost
                         then Some(Pending(q, now, serial)) else old(pending)
      // The command errs although the request was stored exactly if the write failed after its rename.
      ensures o.None? && pending != old(pending) <==>
                Covers(q, now) && Nameable(q) && old(pending).None? && write == Unsure
    {
      var decision := Authorize(q, now);
      AuthorizedExactly(q, now);
      if decision != Authorized { return Some(Outcome(decision, None, false, false)); }
      if pending.Some? || write == Lost { return None; }
      pending := Some(Pending(q, now, serial));
      return if write == Saved then Some(Outcome(decision, None, true, false)) else None;
    }

    /** The pending request is consumed before it is decided again, whatever the decision is. */
    method ExecutePending(now: int, removeOk: bool, syncOk: bool, write: SaveOutcome) returns (o: Option<Outcome>)
      modifies this
      ensures pending == if removeOk then None else old(pending)
      ensures o.Some? ==>
                && old(pending).Some? && Consistent(o.value)
                && o.value.execution == Some(Authorize(old(pending).value.request, now))
      ensures o.Some? <==>
                && old(pending).Some? && removeOk && syncOk
                && (Authorize(old(pending).value.request, now) == Authorized ==>
                      write == Saved && Restarted(old(worker), old(pending).value.request).Some?)
      ensures worker != old(worker) <==>
                && old(pending).Some? && removeOk && syncOk && Authorize(old(pending).value.request, now) == Authorized
                && write != Lost && Restarted(old(worker), old(pending).value.request).Some?
      ensures worker != old(worker) ==>
                && worker == Restarted(old(worker), old(pending).value.request)
                && Covers(old(pending).value.request, now)
                && Restarts(worker) == Restarts(old(worker)) + 1 && pending.None?
    {
      if pending.None? { return None; }
      var p := pending.value;
      if !removeOk { return None; }
      pending := None;
      if !syncOk { return None; }
      var execution := Authorize(p.request, now);
      if execution != Authorized { return Some(Outcome(Authorized, Some(execution), true, false)); }
      AuthorizedExactly(p.request, now);
      var state := RestartWorker(p.request, write);
      if state.None? { return None; }
      return Some(Outcome(Authorized, Some(execution), true, true));
    }
  }

  /** Authorized at both readings of the clock. */
  predicate MayRestart(q: Request, first: int, second: int) {
    Nameable(q) && Covers(q, first) && Covers(q, second)
  }
}
