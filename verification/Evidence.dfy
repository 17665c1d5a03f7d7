/**
The evidence recorder (internal/evidence/evidence.go): one byte budget shared by log
writers, events and saved files, used from several goroutines. Each step below is one
critical section; SaveRaw is two, since it publishes outside the lock. What the disk
does to a write is free.
*/
module Evidence {
  import opened Common

  const REPORT_RESERVE: nat := 2 * 1024 * 1024
  const METADATA_RESERVE: nat := 64 * 1024
  const QUOTA: nat := MAX_BYTES - REPORT_RESERVE - METADATA_RESERVE

  /** `data` is on disk; `offered` is all that was ever passed to Write. */
  datatype Log = Log(data: seq<Byte>, offered: seq<Byte>)

  datatype Failure = QuotaExceeded | EventQuota | Storage | ShortWrite

  /** `pending` are the saves between their two critical sections, by caller. */
  datatype State = State(
    used: nat, events: nat, err: Option<Failure>, cancels: nat,
    logs: seq<Log>, pending: map<nat, nat>, saved: map<string, nat>, report: nat, manifest: nat)

  function Fresh(): State {
    State(0, 0, None, 0, [], map[], map[], 0, 0)
  }

  /** failLocked: only the first failure is kept, and only it cancels. */
  function Failing(s: State, f: Failure): State {
    s.(err := if s.err.None? then Some(f) else s.err, cancels := if s.err.None? then s.cancels + 1 else s.cancels)
  }

  /** What the disk does: `n` bytes stored, and whether it also reports an error. */
  datatype Disk = Disk(n: nat, failed: bool)

  datatype Action =
    | Open
    | Write(log: nat, p: seq<Byte>, disk: Disk)
    | Number                                           // Event takes its sequence number
    | Reserve(caller: nat, size: nat)                  // SaveRaw, under the lock
    | Publish(caller: nat, name: string, outcome: SaveOutcome)
    | Final(size: nat, outcome: SaveOutcome)
    | SaveManifest(size: nat, outcome: SaveOutcome)

  predicate Enabled(s: State, a: Action) {
    match a
    case Write(log, p, disk) => log < |s.logs| && disk.n <= |p|
    case Reserve(caller, _) => caller !in s.pending
    case Publish(caller, _, _) => caller in s.pending
    case _ => true
  }

  function Wrote(s: State, log: nat, p: seq<Byte>, disk: Disk): State
    requires Enabled(s, Write(log, p, disk))
  {
    var l := s.logs[log].(offered := s.logs[log].offered + p);
    if s.err.Some? then s.(logs := s.logs[log := l])
    else if s.used + |p| > QUOTA then Failing(s.(logs := s.logs[log := l]), QuotaExceeded)
    else
      var t := s.(used := s.used + disk.n, logs := s.logs[log := l.(data := l.data + p[..disk.n])]);
      if disk.failed then Failing(t, Storage) else if disk.n != |p| then Failing(t, ShortWrite) else t
  }

  function Reserved(s: State, caller: nat, size: nat): State {
    if s.err.Some? then s
    else if s.used + size > QUOTA then Failing(s, QuotaExceeded)
    else s.(used := s.used + size, pending := s.pending[caller := size])
  }

  function Published(s: State, caller: nat, name: string, outcome: SaveOutcome): State
    requires caller in s.pending
  {
    var t := s.(pending := s.pending - {caller},
                saved := if outcome == Lost then s.saved else s.saved[name := s.pending[caller]]);
    if outcome == Saved then t else Failing(t, Storage)
  }

  function Next(s: State, a: Action): State
    requires Enabled(s, a)
  {
    match a
    case Open => s.(logs := s.logs + [Log([], [])])
    case Write(log, p, disk) => Wrote(s, log, p, disk)
    case Number => if s.events >= MAX_EVENTS then Failing(s, EventQuota) else s.(events := s.events + 1)
    case Reserve(caller, size) => Reserved(s, caller, size)
    case Publish(caller, name, outcome) => Published(s, caller, name, outcome)
    case Final(size, outcome) => if size <= REPORT_RESERVE && outcome != Lost then s.(report := size) else s
    case SaveManifest(size, outcome) => if size <= METADATA_RESERVE && outcome != Lost then s.(manifest := size) else s
  }

  predicate IsSchedule(s: State, actions: seq<Action>)
    decreases |actions|
  {
    actions == [] || (Enabled(s, actions[0]) && IsSchedule(Next(s, actions[0]), actions[1..]))
  }

  function Play(s: State, actions: seq<Action>): State
    requires IsSchedule(s, actions)
    decreases |actions|
  {
    if actions == [] then s else Play(Next(s, actions[0]), actions[1..])
  }

  // ---- Byte counts -------------------------------------------------------------------

  function LogBytes(logs: seq<Log>): nat {
    if logs == [] then 0 else LogBytes(logs[..|logs| - 1]) + |logs[|logs| - 1].data|
  }

  ghost function Total<K>(m: map<K, nat>): nat {
    if m == map[] then 0 else var k :| k in m; m[k] + Total(m - {k})
  }

  /** Everything on disk that the recorder is answerable for. */
  ghost function Kept(s: State): nat {
    LogBytes(s.logs) + Total(s.pending) + Total(s.saved) + s.report + s.manifest
  }

  lemma {:induction false} TotalWithout<K>(m: map<K, nat>, k: K)
    requires k in m
    ensures Total(m) == m[k] + Total(m - {k})
    decreases |m|
  {
    var j :| j in m && Total(m) == m[j] + Total(m - {j});
    if j != k {
      TotalWithout(m - {j}, k);
      TotalWithout(m - {k}, j);
      assert m - {j} - {k} == m - {k} - {j};
    }
  }

  lemma TotalWith<K>(m: map<K, nat>, k: K, v: nat)
    ensures Total(m[k := v]) <= Total(m) + v
    ensures k !in m ==> Total(m[k := v]) == Total(m) + v
  {
    TotalWithout(m[k := v], k);
    if k in m {
      TotalWithout(m, k);
      assert m[k := v] - {k} == m - {k};
    } else {
      assert m[k := v] - {k} == m;
    }
  }

  lemma {:induction false} LogBytesUpdate(logs: seq<Log>, i: nat, l: Log)
    requires i < |logs|
    ensures LogBytes(logs[i := l]) == LogBytes(logs) - |logs[i].data| + |l.data|
  {
    var n := |logs| - 1;
    if i < n {
      LogBytesUpdate(logs[..n], i, l);
      assert logs[i := l][..n] == logs[..n][i := l];
    } else {
      assert logs[i := l][..n] == logs[..n];
    }
  }

  // ---- What every interleaving keeps ---------------------------------------------------

  predicate LogOk(l: Log, err: Option<Failure>) {
    l.data <= l.offered && (err.None? ==> l.data == l.offered)
  }

  predicate LogsOk(logs: seq<Log>, err: Option<Failure>) {
    forall i :: 0 <= i < |logs| ==> LogOk(logs[i], err)
  }

  ghost predicate Inv(s: State) {
    && LogBytes(s.logs) + Total(s.pending) + Total(s.saved) <= s.used <= QUOTA
    && s.report <= REPORT_RESERVE && s.manifest <= METADATA_RESERVE
    && s.events <= MAX_EVENTS
    && s.cancels == (if s.err.Some? then 1 else 0)
    && LogsOk(s.logs, s.err)
  }

  /** Dropping a write, and storing the first n bytes of one, as the log's owner sees it. */
  lemma WriteKeepsPrefix(l: Log, p: seq<Byte>, n: nat)
    requires l.data <= l.offered && n <= |p|
    ensures l.data <= l.offered + p
    ensures l.data == l.offered ==> l.data + p[..n] <= l.offered + p && (n == |p| ==> l.data + p[..n] == l.offered + p)
  {
    assert p[..|p|] == p;
    if l.data == l.offered { assert (l.offered + p)[..|l.data| + n] == l.data + p[..n]; }
  }

  lemma WriteKeepsInv(s: State, log: nat, p: seq<Byte>, disk: Disk)
    requires Inv(s) && Enabled(s, Write(log, p, disk))
    ensures Inv(Wrote(s, log, p, disk))
  {
    var l, t := s.logs[log], Wrote(s, log, p, disk);
    WriteKeepsPrefix(l, p, disk.n);
    LogBytesUpdate(s.logs, log, t.logs[log]);
    assert t.logs == s.logs[log := t.logs[log]];
    assert LogOk(t.logs[log], t.err);
  }

  lemma PublishKeepsInv(s: State, caller: nat, name: string, outcome: SaveOutcome)
    requires Inv(s) && caller in s.pending
    ensures Inv(Published(s, caller, name, outcome))
  {
    TotalWithout(s.pending, caller);
    TotalWith(s.saved, name, s.pending[caller]);
  }

  lemma OpenKeepsInv(s: State)
    requires Inv(s)
    ensures Inv(Next(s, Open))
  {
    var t := Next(s, Open);
    assert t.logs[..|s.logs|] == s.logs;
  }

  lemma ReserveKeepsInv(s: State, caller: nat, size: nat)
    requires Inv(s) && caller !in s.pending
    ensures Inv(Reserved(s, caller, size))
  {
    TotalWith(s.pending, caller, size);
  }

  lemma FailingKeepsInv(s: State, f: Failure)
    requires Inv(s)
    ensures Inv(Failing(s, f))
  {
    forall i | 0 <= i < |s.logs| ensures LogOk(s.logs[i], Failing(s, f).err) {
      assert LogOk(s.logs[i], s.err);
    }
  }

  lemma StepKeepsInv(s: State, a: Action)
    requires Inv(s) && Enabled(s, a)
    ensures Inv(Next(s, a))
  {
    match a {
      case Open => OpenKeepsInv(s);
      case Write(log, p, disk) => WriteKeepsInv(s, log, p, disk);
      case Number => FailingKeepsInv(s, EventQuota);
      case Reserve(caller, size) => ReserveKeepsInv(s, caller, size);
      case Publish(caller, name, outcome) => PublishKeepsInv(s, caller, name, outcome);
      case Final(_, _) =>
      case SaveManifest(_, _) =>
    }
  }

  lemma {:induction false} InvAlongSchedule(s: State, actions: seq<Action>)
    requires Inv(s) && IsSchedule(s, actions)
    ensures Inv(Play(s, actions))
    decreases |actions|
  {
    if actions != [] {
      StepKeepsInv(s, actions[0]);
      InvAlongSchedule(Next(s, actions[0]), actions[1..]);
    }
  }

  /**
  What is kept, with the report and the manifest, is at most 8 MiB; each log is a prefix of what
  was written to it, and all of it unless the recorder failed; the recorder cancelled once,
  exactly if it failed.
  */
  ghost predicate InBudget(s: State) {
    && Kept(s) <= MAX_BYTES
    && (forall i :: 0 <= i < |s.logs| ==> s.logs[i].data <= s.logs[i].offered)
    && (s.err.None? ==> forall i :: 0 <= i < |s.logs| ==> s.logs[i].data == s.logs[i].offered)
    && s.cancels == (if s.err.Some? then 1 else 0)
  }

  lemma InvMeansInBudget(s: State)
    requires Inv(s)
    ensures InBudget(s)
  {
    assert forall i :: 0 <= i < |s.logs| ==> LogOk(s.logs[i], s.err);
  }

  /** For any interleaving of writers, events and saves, and whatever the disk does. */
  lemma EvidenceStaysInBudget(s: State, actions: seq<Action>)
    requires s == Fresh() && IsSchedule(s, actions)
    ensures InBudget(Play(s, actions))
  {
    InvAlongSchedule(s, actions);
    InvMeansInBudget(Play(s, actions));
  }

  /** The first failure is the last: it is never replaced, and nothing is stored after it. */
  lemma {:induction false} FirstFailureIsFinal(s: State, actions: seq<Action>)
    requires s.err.Some? && IsSchedule(s, actions)
    ensures var t := Play(s, actions);
            && t.err == s.err && t.cancels == s.cancels && t.used == s.used
            && |s.logs| <= |t.logs| && forall i :: 0 <= i < |s.logs| ==> t.logs[i].data == s.logs[i].data
    decreases |actions|
  {
    if actions != [] {
      FirstFailureIsFinal(Next(s, actions[0]), actions[1..]);
    }
  }

  /** All reserves taken: one log as long as the quota, and a manifest as long as its reserve. */
  function FullState(): State {
    State(QUOTA, 0, None, 0, [Log(seq(QUOTA, _ => 0), seq(QUOTA, _ => 0))], map[], map[], 0, METADATA_RESERVE)
  }

  function Filling(): seq<Action> {
    [Open, Write(0, seq(QUOTA, _ => 0), Disk(QUOTA, false)), SaveManifest(METADATA_RESERVE, Saved)]
  }

  /** A recorder gets there: one log write that fills the quota, and the longest manifest. */
  lemma FullStateIsReached()
    ensures IsSchedule(Fresh(), Filling()) && Play(Fresh(), Filling()) == FullState()
  {
    var actions := Filling();
    var bytes: seq<Byte> := seq(QUOTA, _ => 0);
    var empty := Fresh().(logs := [Log([], [])]);
    var filled := empty.(used := QUOTA, logs := [Log(bytes, bytes)]);
    assert [] + bytes[..QUOTA] == bytes && [] + bytes == bytes;
    assert actions[1..][1..] == actions[2..] && actions[2..][1..] == [];
    PlayFirst(filled, actions[2..], FullState());
    PlayFirst(empty, actions[1..], filled);
    PlayFirst(Fresh(), actions, empty);
  }

  lemma PlayFirst(s: State, actions: seq<Action>, t: State)
    requires actions != [] && Enabled(s, actions[0]) && Next(s, actions[0]) == t && IsSchedule(t, actions[1..])
    ensures IsSchedule(s, actions) && Play(s, actions) == Play(t, actions[1..])
  {
  }

  ghost predicate Fits(s: State, actions: seq<Action>, report: nat)
    requires IsSchedule(s, actions)
  {
    Kept(Play(s, actions).(report := report)) <= MAX_BYTES
  }

  ghost predicate AlwaysFits(s: State, report: nat) {
    forall actions :: IsSchedule(s, actions) ==> Fits(s, actions, report)
  }

  lemma FullStateOverflows()
    ensures Kept(FullState().(report := REPORT_RESERVE + 1)) == MAX_BYTES + 1
  {
    assert FullState().logs[..0] == [];
    assert LogBytes(FullState().logs) == QUOTA;
  }

  /**
  Recovery writes its report one byte longer than the length it checks
  (internal/engine/recover.go:292-295). The budget holds after everything a recorder can do
  exactly if that length is below the reserve.
  */
  lemma RecoveredReportFitsExactly(s: State, encoded: nat)
    requires s == Fresh() && encoded <= REPORT_RESERVE
    ensures encoded < REPORT_RESERVE <==> AlwaysFits(s, encoded + 1)
  {
    if encoded < REPORT_RESERVE {
      forall actions | IsSchedule(s, actions) ensures Fits(s, actions, encoded + 1) {
        InvAlongSchedule(s, actions);
      }
    } else {
      FullStateIsReached();
      FullStateOverflows();
      assert IsSchedule(s, Filling()) && !Fits(s, Filling(), encoded + 1);
    }
  }

  // ---- The recorder, updating its fields --------------------------------------------------

  class Recorder {
    var used: nat
    var events: nat
    var err: Option<Failure>
    var cancels: nat
    var logs: seq<Log>
    var pending: map<nat, nat>
    var saved: map<string, nat>
    var report: nat
    var manifest: nat

    constructor ()
      ensures Current() == Fresh()
    {
      used, events, err, cancels := 0, 0, None, 0;
      logs, pending, saved, report, manifest := [], map[], map[], 0, 0;
    }

    function Current(): State
      reads this
    {
      State(used, events, err, cancels, logs, pending, saved, report, manifest)
    }

    method FailLocked(f: Failure)
      modifies this`err, this`cancels
      ensures Current() == Failing(old(Current()), f)
    {
      if err.None? {
        err := Some(f);
        cancels := cancels + 1;
      }
    }

    /** drainWriter.Write: the caller is always told that everything was consumed. */
    method Write(log: nat, p: seq<Byte>, disk: Disk) returns (n: nat)
      requires Enabled(Current(), Action.Write(log, p, disk))
      modifies this
      ensures n == |p| && Current() == Next(old(Current()), Action.Write(log, p, disk))
    {
      logs := logs[log := Log(logs[log].data, logs[log].offered + p)];
      if err.Some? { return |p|; }
      if used + |p| > QUOTA {
        FailLocked(QuotaExceeded);
        return |p|;
      }
      logs := logs[log := Log(logs[log].data + p[..disk.n], logs[log].offered)];
      used := used + disk.n;
      if disk.failed {
        FailLocked(Storage);
      } else if disk.n != |p| {
        FailLocked(ShortWrite);
      }
      return |p|;
    }

    /** Event, up to the point where it releases the lock to write its line. */
    method TakeNumber() returns (number: Option<nat>)
      modifies this
      ensures Current() == Next(old(Current()), Number)
      ensures number == if old(events) < MAX_EVENTS then Some(events) else None
    {
      if events >= MAX_EVENTS {
        FailLocked(EventQuota);
        return None;
      }
      events := events + 1;
      return Some(events);
    }

    method ReserveSave(caller: nat, size: nat) returns (ok: bool)
      requires caller !in pending
      modifies this
      ensures Current() == Next(old(Current()), Reserve(caller, size))
      ensures ok <==> caller in pending
    {
      if err.Some? { return false; }
      if used + size > QUOTA {
        FailLocked(QuotaExceeded);
        return false;
      }
      used := used + size;
      pending := pending[caller := size];
      return true;
    }

    /** The second half of SaveRaw: the reserved bytes become the file's, unless the rename never happened. */
    method FinishSave(caller: nat, name: string, outcome: SaveOutcome)
      requires caller in pending
      modifies this`saved, this`pending, this`err, this`cancels
      ensures Current() == Next(old(Current()), Publish(caller, name, outcome))
      ensures caller !in pending && forall c :: c != caller ==> (c in pending <==> c in old(pending))
      ensures outcome != Lost ==> name in saved && saved[name] == old(pending)[caller]
      ensures forall n :: n != name || outcome == Lost ==>
                (n in saved <==> n in old(saved)) && (n in saved ==> saved[n] == old(saved)[n])
      ensures err == if old(err).Some? || outcome == Saved then old(err) else Some(Storage)
      ensures cancels > old(cancels) <==> old(err).None? && outcome != Saved
    {
      if outcome != Lost { saved := saved[name := pending[caller]]; }
      pending := pending - {caller};
      if outcome != Saved { FailLocked(Storage); }
    }

    /** Final ignores an earlier failure: its space is reserved. It may err with the new report in place. */
    method Final(size: nat, outcome: SaveOutcome) returns (ok: bool)
      modifies this`report
      ensures Current() == Next(old(Current()), Action.Final(size, outcome))
      ensures ok <==> size <= REPORT_RESERVE && outcome == Saved
      ensures report <= REPORT_RESERVE || report == old(report)
      ensures ok ==> report == size
      ensures !ok && report != old(report) ==> outcome == Unsure && report == size
    {
      if size > REPORT_RESERVE { return false; }
      if outcome != Lost { report := size; }
      return outcome == Saved;
    }
  }
}
