# Epoch, verified

Epoch boots one Firecracker virtual machine, sets the guest's clock, runs the declared
steps of a scenario against an agent in the guest, judges the results and cleans up. It
has to stay safe if its controller dies at any instant. This project models that logic in
Dafny and proves what it promises. `dafny verify dfyconfig.toml` checks everything.

| module | what it models |
|---|---|
| `RunProtocol`, `LiveVmms`, `RunSafety` | `run` and `Recover` as programs over their durable effects, on a host with crashes, reboots and PID reuse; exactly which schedules are safe; what a recovery could check to be safe |
| `OvertakenRecovery`, `OvertakenPairs`, `TwoVmms` | the recovery that goes wrong: it removes a live VMM's disk, what could have told, and how a second VMM follows |
| `Recovery`, `RuntimeDir` | an applied recovery as a class over manifest, report and runtime directory, dying after any effect; what a dead run leaves in that directory |
| `OwnedSignal`, `VmmStop`, `GroupReaper` | the three concurrent protocols around processes: pidfd signalling, stopping the VMM, reaping a process group |
| `Scenario`, `Guest`, `Session` | the plan validator, the guest agent it predicts, and the session between host and guest |
| `DecimalText`, `JsonNumber`, `Json`, `JsonDecode`, `JsonPointer`, `ResultPointer`, `Assertions` | exact numbers, equality, decoding, RFC 6901 pointers, the static pointer check, evaluation |
| `Evidence`, `Framing`, `PartialRead` | the byte budget, line framing, reading a cut log |
| `ClockReadback`, `Results`, `Verdict`, `Authority` | the clock check, the results a run owes, outcome and exit code, the pending-request workload |

Concurrent parts are state machines whose schedules are arbitrary sequences of actions:
timers, cancellation, system-call errors, crashes and lost bytes are actions like any
other. Methods that update something are methods of a class, or loops, proved against a
function that the theorems are about. What the program cannot decide (processes, the
disk, clocks, the network) enters as parameters that are free at every use.

Seven promises turned out not to hold on all inputs. Each has a concrete instance and an
exact condition.

- `Recover` reads the manifest before it takes the operator lock and never again
  (`internal/engine/recover.go:200`, `:226`). If the run boots and its controller dies in
  between, recovery removes the disk of a live VMM
  (`OvertakenRecovery.OvertakenRecoveryDeletesLiveDisk`). That happens exactly if the
  manifest it holds predates BOOTING and the run's VMM lives
  (`OvertakenRecovery.RecoveryUnsafeExactly`). A schedule is safe at every moment exactly if
  no recovery removes a disk under a live VMM (`LiveVmms.OneVmmAndItsDiskExactly`). Which
  current manifests would have told is `OvertakenPairs.PairIsUnclearExactly`.
- The same recovery then files its run COMPLETE, the next run is admitted, and two VMMs live
  at once (`TwoVmms.TwoVmmsLive`). At most one VMM lives as long as no recovery files
  COMPLETE over a live VMM (`LiveVmms.AtMostOneVmm`), and every such filing can go on to a
  second one (`TwoVmms.FalseFilingExactly`).
- A run killed inside the write of its configuration leaves a temporary file that recovery
  does not recognise, so its runtime directory stays and no run is admitted
  (`RuntimeDir.KilledInsideTheWrite`, `RuntimeDir.NeverCleaned`). Recovery recognises
  everything exactly if the run did not stop inside that write
  (`RuntimeDir.CleanableExactly`).
- A recovered report is measured before its newline is added, so its run is admitted again,
  and it fits the evidence budget, exactly if its encoding is below 2 MiB
  (`Recovery.Store.Recover`, `Evidence.RecoveredReportFitsExactly`,
  `Evidence.FullStateIsReached`). Otherwise every further recovery is refused
  (`Recovery.RecoveredButNotAdmitted`).
- report.json and the report `run` returns differ exactly if the write of a COMPLETED report
  fails after its rename: the file then says COMPLETED, and `run` returns ERROR
  (`Verdict.Run.Conclude`, `Verdict.FiledAndReturnedDiffer`).
- Host and guest agree on a clock readback except where the guest's saturating difference
  meets its own bound (`ClockReadback.HostAgreesExactly`, `ClockReadback.AgreementCanFail`).
- A correct setter passes the readback exactly if elapsed time plus tolerance fits a
  64-bit duration (`ClockReadback.UnitRatePassesExactly`, `ClockReadback.UnitRateCanFail`).

## Model

| member | source | states |
|---|---|---|
| `LiveVmms.OneVmmAndItsDiskExactly` | internal/engine/run.go:76-357 | Over every interleaving of runs, dry and applied recoveries, crashes, reboots and PID reuse: at every moment at most one VMM lives and every live VMM has its disk, if and only if no recovery removes the disk of a run whose VMM lives. |
| `LiveVmms.AtMostOneVmm` | internal/engine/recover.go:113-140 | Over every such interleaving on which no recovery files COMPLETE for a run whose VMM lives, at most one VMM lives. |
| `LiveVmms.StepKeepsInv` | internal/engine/recover.go:113-302 | Every action but such a filing keeps: a live VMM is the only one, its run is the only one not COMPLETE and the only one with a runtime directory, and whoever is past the lock holds it. |
| `LiveVmms.StepKeepsDisks` | internal/engine/recover.go:234-302 | Every action but a removal under a live VMM keeps the disk of every live VMM, and is not a false filing either. |
| `TwoVmms.FalseFilingExactly` | internal/engine/recover.go:268-302 | After any schedule without a false filing, an action can go on to two live VMMs, without another false filing, if and only if it files COMPLETE for a run whose VMM lives. |
| `TwoVmms.UntimelyLockLeadsToTwo` | internal/engine/recover.go:218-302 | Every schedule that lets a recovery lock with a manifest from before BOOTING while the run's VMM lives extends, through that lock, to two live VMMs. |
| `TwoVmms.NextRunLaunches` | internal/engine/run.go:76-182 | Wherever the lock is free and admission passes, a new run gets to its VMM, and every process there was goes on. |
| `TwoVmms.TimelyIsHarmless` | internal/engine/recover.go:218-302 | From a world of the safety invariant, a schedule without such a lock neither removes a live VMM's disk nor files COMPLETE over it. |
| `TwoVmms.TwoVmmsLive` | internal/engine/recover.go:196-302 | A schedule from the initial state after which the VMMs of two runs live. |
| `RunSafety.TimelyRecoveriesAreSafe` | internal/engine/recover.go:199-232 | What a recovery could check at the lock is enough: at most one VMM lives and has its disk on every interleaving on which no applied recovery locks with a manifest from before BOOTING while the run's VMM lives. |
| `RunSafety.StepKeepsInv` | internal/engine/recover.go:113-302 | Every action, except such a lock, keeps the invariant: VMM started implies persisted stage at least BOOTING, recorded identities name only the run's process, COMPLETE or a stage past BOOTING without a process means no VMM will ever run again, the lock orders all writers. |
| `RunSafety.InvAlongSchedule` | internal/engine/run.go:76-357 | The invariant holds after any schedule without such a lock. |
| `RunSafety.StageNeverFalls` | internal/engine/run.go:108-115 | No action lowers the persisted stage of any run. |
| `RunSafety.KeepsLaunch` | internal/engine/run.go:171-182 | Starting the VMM after BOOTING is persisted keeps the invariant; before the identity is persisted the stage alone protects the disk. |
| `RunSafety.KeepsSave` | internal/engine/recover.go:304-314 | A manifest write that succeeds, fails, or fails after publishing keeps the invariant at every stage of a run. |
| `RunSafety.KeepsRecoveryLock` | internal/engine/recover.go:218-232 | An applied recovery that takes the lock keeps the invariant, unless its manifest predates BOOTING and the run's VMM lives. |
| `RunSafety.KeepsReboot` | internal/engine/recover.go:203-217 | A reboot, which kills all processes and may lose runtime directories, keeps the invariant. |
| `RunSafety.RecoveryStopsOnlyItsVmm` | internal/engine/recover.go:234-267 | When recovery decides to stop a process, it is live and is the VMM of the run being recovered. |
| `OvertakenRecovery.RecoveryUnsafeExactly` | internal/engine/recover.go:196-268 | Locking, deciding and removing leaves a live VMM without its disk if and only if the loaded manifest predates BOOTING and the run's VMM lives; the three are then possible as actions of a schedule. |
| `OvertakenRecovery.UntimelyLockIsUnsafe` | internal/engine/recover.go:218-268 | Every schedule from an empty host that lets such a recovery lock can be continued: the lock and two more actions of that recovery leave a live VMM without its disk (two live VMMs are `TwoVmms.UntimelyLockLeadsToTwo`). |
| `OvertakenRecovery.LockDecideRemoveIsASchedule` | internal/engine/recover.go:218-268 | With a manifest from before BOOTING, lock, decision and removal are enabled one after another and lead to the world they compute. |
| `OvertakenRecovery.OvertakenRecoveryDeletesLiveDisk` | internal/engine/recover.go:196-268 | A schedule from the initial state on which recovery removes the disk of a running VMM. |
| `OvertakenPairs.PairIsUnclearExactly` | internal/engine/recover.go:199-232 | Over the worlds schedules reach from an empty host, a live VMM occurs with a loaded manifest from before BOOTING and a current one if and only if the current one is INCOMPLETE, at least BOOTING, and names a process or still says BOOTING. |
| `OvertakenPairs.OtherPairsAreClear` | internal/engine/recover.go:199-232 | Any other current manifest proves the run over, so that recovery is safe. |
| `Recovery.Store.RemoveOwnedRuntime` | internal/engine/recover.go:144-185 | Foreign entries leave everything in place; otherwise files go one at a time and then the directory, and a crash leaves exactly the rest. |
| `Recovery.Store.Recover` | internal/engine/recover.go:196-302 | Dry runs and refusals change nothing; a crash at any effect keeps the verdict and leaves fewer effects to do; success is characterised exactly, removes the directory, marks manifest and report FINISHED and COMPLETE, keeps a saved outcome and turns a missing one into INTERRUPTED; the run is admitted again if and only if the encoding is below 2 MiB. |
| `Recovery.Store.RecoverThroughCrashes` | internal/engine/recover.go:268-302 | Any attempts, dry or applied, refused, dying at arbitrary effects, with report lengths and hosts of their own, end recovered once one gets what it needs, with the original verdict; the run is admitted if and only if that attempt's encoding is below 2 MiB. |
| `Recovery.RecoveredButNotAdmitted` | internal/engine/recover.go:288-302 | A recovery that succeeds with an encoding of exactly 2 MiB, whose run is still refused, and which no further attempt recovers. |
| `Recovery.Store.RetryUnsound` | internal/engine/recover.go:144-302 | A run whose report readers refuse, or whose directory holds a foreign entry, is recovered by no sequence of attempts: report and manifest stay, and it is never admitted. |
| `RuntimeDir.CleanableExactly` | internal/engine/run.go:152-162 | Wherever a run stops, by death or by an error, cleanup recognises every entry of its runtime directory if and only if the run did not stop inside the write of the configuration and no removal of its temporary file failed. |
| `RuntimeDir.StepKeepsInv` | internal/safefs/safefs.go:126-153 | Every operation, failure and death keeps: the temporary file is there exactly inside the write or after its failed removal, and everything else has a name cleanup recognises. |
| `RuntimeDir.KilledInsideTheWrite` | internal/safefs/safefs.go:126-153 | A schedule that ends with the temporary file beside the disk. |
| `RuntimeDir.NeverCleaned` | internal/engine/recover.go:144-185 | With that directory no attempts recover the run, and it is never admitted. |
| `Recovery.RecoveredReportIsValid` | internal/engine/recover.go:96-111 | A recovered report satisfies the outcome check that readers apply. |
| `OwnedSignal.SignalsOnlyTheRecordedProcess` | internal/firecracker/process_linux.go:273-354 | Whatever exits and PID reuse happen between the calls, every signal goes to the recorded process, and nil means it no longer runs. |
| `OwnedSignal.StepKeepsInv` | internal/firecracker/process_linux.go:273-354 | Each call and each host event keeps: after the second inspection the pidfd holds the recorded process. |
| `OwnedSignal.PidfdAloneIsNotEnough` | internal/firecracker/process_linux.go:300-325 | A schedule on which the open pidfd names a stranger, so the second inspection is needed. |
| `VmmStop.NilMeansReaped` | internal/firecracker/process_linux.go:150-226 | For every interleaving the stop routine and Wait each run at most once, and Stop returns nil only after Wait has returned. |
| `VmmStop.FailedStopIsFinal` | internal/firecracker/firecracker.go:65-78 | A failed stop routine is never retried: later callers get nil only by finding on entry that Wait has returned. |
| `VmmStop.InvAlongSchedule` | internal/firecracker/firecracker.go:65-78 | The invariant relating wait, done, routine and answers holds along every schedule. |
| `GroupReaper.NoSignalAfterReap` | internal/guestagent/process_linux.go:109-244 | For any number of terminators and any interleaving, no group signal follows the reap, and terminate returns nil only after the reap and an empty scan, with the group still empty. |
| `GroupReaper.StepKeepsInv` | internal/guestagent/process_linux.go:109-244 | Every step of waiter, terminators and host keeps the invariant over lock, reaping flag and scan. |
| `Scenario.Scenario.Validate` | internal/scenario/scenario.go:152-275 | Accepts exactly the acceptable documents and leaves the resolved one: defaults filled, steps normalized in place. |
| `Scenario.Scenario.ValidateSteps` | internal/scenario/scenario.go:188-232 | The loop over the steps accepts exactly steps that are distinct, valid and plannable, and returns the plan's waits and the steps by ID. |
| `Scenario.Scenario.PlanOne` | internal/scenario/scenario.go:203-230 | The two switches on the operation compute one step of the plan. |
| `Scenario.Scenario.ValidateAssertions` | internal/scenario/scenario.go:236-273 | Accepts exactly assertions with distinct usable IDs, each about a pointer its step's result can hold and a value its comparison can use. |
| `Scenario.CheckAllMeans` | internal/scenario/scenario.go:188-232 | What the loop keeps (seen IDs, clock flag, services, waits) is the plan of the normalized steps; it stops exactly where a condition fails. |
| `Scenario.DistinctIdsMeans` | internal/scenario/scenario.go:192-199 | The loop's check against earlier IDs means pairwise different IDs, and looking a step up by ID finds it. |
| `Scenario.AssertionsOkMeans` | internal/scenario/scenario.go:236-245 | The loop's check means pairwise different IDs and every assertion fitting its step. |
| `Scenario.NormalizeIsIdempotent` | internal/scenario/scenario.go:277-379 | Validating a validated step accepts it and changes nothing. |
| `Scenario.ValidateIsIdempotent` | internal/scenario/scenario.go:152-275 | Validating a resolved scenario accepts it and changes nothing. |
| `Guest.Server.Handle` | internal/guestagent/server.go:187-294 | For every request and sandbox: exactly when the agent answers service_exited, clock_not_ready and live_clock_denied; the clock flag is the last readback and nothing else moves it; the service table changes only for the service named. |
| `Guest.HandledMeans` | internal/guestagent/server.go:187-294 | The same of the transition function that the plan is compared with. |
| `Guest.Manager.Start` | internal/guestagent/process_linux.go:320-377 | Refused as started or over the limit if and only if the clock could be read and the name is present or four services run; a launched service stays in the table although readiness fails; no other entry changes. |
| `Guest.Manager.Stop` | internal/guestagent/process_linux.go:378-418 | A service leaves the table if and only if it was running and has been terminated; a failed termination keeps it, marked expected; no other entry changes. |
| `Guest.SentTimeoutIsAccepted` | internal/engine/steps.go:22-45 | Whatever is left of the run, the timeout sent is positive, within the step's and the run's budget, and used unchanged by the agent. |
| `Guest.StepFollowsPlan` | internal/engine/steps.go:51-147 | One step: if the plan refuses it the step fails; otherwise no reply is a refusal the plan covers, and a successful step takes agent and plan to agreeing states. |
| `Guest.PlanIsSound` | internal/scenario/scenario.go:188-235 | Running a plannable list, stopping at the first failure, the agent never answers clock_not_ready, live_clock_denied, already started, limit reached or not running, in any sandbox. |
| `Guest.RefusedPlanNeverCompletes` | internal/scenario/scenario.go:188-235 | A list the plan refuses is completed in no sandbox. |
| `Guest.PlanIsExact` | internal/scenario/scenario.go:188-235 | The plan accepts a list if and only if some sandbox lets an agent complete it. |
| `Guest.ValidatedPlanIsSound` | internal/scenario/scenario.go:152-235 | For every scenario Validate accepts, after any number of steps: no covered refusal, and while all steps succeeded the agent's clock flag and live services are the validator's. |
| `Session.Client.Call` | internal/guestclient/client.go:87-153 | A broken or cancelled client sends nothing; IDs count up from one; a failure breaks the client for good, with outcome unknown exactly for state-changing calls; only a matching response counts as an answer. |
| `Session.ServeConn` | internal/guestagent/server.go:125-177 | Handles the longest run of frames with new IDs under the quota whose replies could be written, up to shutdown. |
| `Session.StepKeepsInv` | internal/guestclient/client.go:87-153 | Every host, agent and network event keeps: handled and undelivered requests are a prefix of those issued, which follow the script. |
| `Session.AtMostOnce` | internal/engine/run.go:204-230 | With the connection cut anywhere: the state-changing steps handled are a prefix of the scenario's, equal to those answered or one more, and no request is refused as duplicate or over quota. |
| `Session.NothingAfterFailure` | internal/engine/run.go:204-334 | After a failed step only a shutdown is ever sent, once, and not on a broken connection. |
| `Session.ChangingIsTheSteps` | internal/engine/run.go:204-216 | The order referred to lists exactly the state-changing steps, each once, increasing. |
| `DecimalText.TextIsCanonical` | internal/guestclient/client.go:108-110 | Request IDs are decimal digits without leading zeros that determine the counter, so they never repeat. |
| `DecimalText.CanonicalIsText` | internal/scenario/assertions.go:212-228 | Every canonical index text is the text of its value. |
| `JsonNumber.CompareIsExact` | internal/scenario/assertions.go:149-164 | Comparing two bounded literals as rationals orders them as the real numbers their digits denote. |
| `JsonNumber.RatIsExact` | internal/scenario/assertions.go:149-164 | The rational built from a literal is its mathematical value, with fraction and exponent. |
| `JsonNumber.OrderingLaws` | internal/scenario/assertions.go:149-164 | The comparison is antisymmetric and transitive, and exactly one of less, equal, greater holds. |
| `Json.Equal` | internal/scenario/assertions.go:99-147 | On decoded values equality never errors and is equality of values: numbers by value, objects by key set. |
| `Json.SubsetOfSameSize` | internal/scenario/assertions.go:129-143 | Equal sizes and one-sided key inclusion give equal key sets. |
| `Json.SameValueReflexive` | internal/scenario/assertions.go:99-147 | Equality is reflexive. |
| `Json.SameValueSymmetric` | internal/scenario/assertions.go:99-147 | Equality is symmetric. |
| `Json.SameValueTransitive` | internal/scenario/assertions.go:99-147 | Equality is transitive. |
| `JsonDecode.CheckValue` | internal/jsonutil/decode.go:118-171 | The recursive check with its loops and seen sets computes the acceptance function over the token stream. |
| `JsonDecode.DecodeAcceptsExactlyLegal` | internal/jsonutil/decode.go:23-33 | A document's tokens are accepted without trailing data if and only if nesting is bounded, keys are unique in every object and numbers are bounded. |
| `JsonDecode.AcceptsExactlyDocuments` | internal/jsonutil/decode.go:23-33 | Any token list is accepted if and only if it is that of some legal document. |
| `JsonDecode.AcceptsExactlyLegal` | internal/jsonutil/decode.go:118-171 | At any depth and before any further tokens, the check consumes exactly the document, if and only if it is legal there. |
| `JsonDecode.FieldsAreTheMembers` | internal/jsonutil/decode.go:130-147 | With unique keys the decoded object holds exactly the members. |
| `JsonDecode.AcceptedValuesAreDecoded` | internal/jsonutil/decode.go:165-186 | Every accepted document decodes to a value on which equality cannot error. |
| `JsonPointer.PointerTokens` | internal/scenario/assertions.go:167-198 | The parser's loops compute the pointer's tokens, or none. |
| `JsonPointer.ResolvePointer` | internal/scenario/assertions.go:200-235 | The resolver's loop computes the node the tokens lead to, missing, or malformed. |
| `JsonPointer.ParsePrint` | internal/scenario/assertions.go:167-198 | Parsing an escaped token list of admissible length gives the list back. |
| `JsonPointer.PrintParse` | internal/scenario/assertions.go:167-198 | Printing the tokens of an accepted pointer gives the pointer back. |
| `JsonPointer.EveryNodeResolves` | internal/scenario/assertions.go:200-235 | The tokens of every node of every document resolve to that node, canonical array indices included. |
| `JsonPointer.EveryResolutionIsANode` | internal/scenario/assertions.go:200-235 | Every successful resolution is a node with exactly those tokens. |
| `JsonPointer.PointersNameNodes` | internal/scenario/assertions.go:200-235 | A pointer resolves if and only if it names a node, which is then unique. |
| `JsonPointer.OnePointerPerNode` | internal/scenario/assertions.go:167-235 | A node is named by its printed tokens and by no other pointer. |
| `ResultPointer.AcceptedPointersResolve` | internal/scenario/assertions.go:237-265 | An accepted pointer, outside stdout_json, resolves in every result of its operation; for a service's stdout and stderr exactly when they are not empty. |
| `ResultPointer.RefusedPointersMiss` | internal/scenario/assertions.go:237-265 | A well-formed pointer that is refused resolves in no result of that operation. |
| `Assertions.Evaluate` | internal/scenario/assertions.go:23-97 | One result per assertion in order up to the first that cannot be judged, each pass exactly if the assertion holds mathematically of the observation. |
| `Assertions.Compare` | internal/scenario/assertions.go:51-82 | A comparison passes exactly if it holds of the values' mathematical meaning, and is undecided exactly for an ordering of non-numbers. |
| `Assertions.ComparisonsAreOrdered` | internal/scenario/assertions.go:59-82 | Of two numbers exactly one of lt, eq, gt passes, and gte, lte, ne are the unions and the negation. |
| `Evidence.EvidenceStaysInBudget` | internal/evidence/evidence.go:62-185 | For any interleaving and any disk, writes that fail after their rename included: everything kept is at most 8 MiB, each log is a prefix of what was written and all of it if nothing failed, and the recorder cancels once if and only if it failed. |
| `Evidence.FirstFailureIsFinal` | internal/evidence/evidence.go:62-98 | After the first failure the error, the byte count and every log stay as they are. |
| `Evidence.StepKeepsInv` | internal/evidence/evidence.go:62-185 | Every critical section keeps: bytes on disk and in unfinished saves are at most the bytes counted. |
| `Evidence.RecoveredReportFitsExactly` | internal/engine/recover.go:289-297 | The budget survives a recovered report after everything a recorder can do if and only if the encoding is below the reserve. |
| `Evidence.FullStateIsReached` | internal/evidence/evidence.go:79-98 | Three actions of a fresh recorder that take all of its quota and of the manifest's reserve. |
| `Evidence.Recorder.Write` | internal/evidence/evidence.go:79-98 | A log write always reports full consumption and changes the recorder as the budget allows, through short writes and errors. |
| `Evidence.Recorder.TakeNumber` | internal/evidence/evidence.go:112-123 | Event numbers count up to 4096; the next one fails the recorder. |
| `Evidence.Recorder.ReserveSave` | internal/evidence/evidence.go:147-164 | A save reserves its bytes under the lock or fails the recorder. |
| `Evidence.Recorder.FinishSave` | internal/evidence/evidence.go:165-173 | The reserved bytes become the file's unless the rename never happened, every other file and save is untouched, an earlier error stays, and the recorder cancels exactly if this is its first failure. |
| `Evidence.Recorder.Final` | internal/evidence/evidence.go:175-185 | The final report is bounded by its reserve and ignores earlier failures; it errs with the new report in place exactly if the write fails after its rename. |
| `Framing.Reader.ReadLine` | internal/protocol/protocol.go:180-200 | For every buffer size and every refill, the result is the first line of the unread bytes, or the error, and the bytes after the line stay unread. |
| `Framing.Writer.WriteFrame` | internal/protocol/protocol.go:201-221 | With arbitrary partial writes the stream gains exactly what they store of frame and newline, and the call succeeds if and only if that is all of it; an oversized frame writes nothing. |
| `Framing.WriteFrames` | internal/protocol/protocol.go:201-221 | Successive frames leave their encoding on the stream, or that encoding cut somewhere. |
| `Framing.ReadFrames` | internal/guestagent/server.go:108-124 | The reading loop returns every line up to the first error, for every buffering. |
| `Framing.FramesReadBack` | internal/protocol/protocol.go:180-221 | Written frames are read back as the same list, and what follows is read as if they had not been there. |
| `Framing.CutFrameIsNeverYielded` | internal/protocol/protocol.go:195-198 | A stream cut at any byte yields exactly the whole frames, then end of file at a boundary and unexpected end inside a frame. |
| `PartialRead.ReadPartial` | internal/evidence/partial.go:13-51 | The nested loops compute the reading of the file, for every buffering: trimmed lines, each quota with its own error, and the record limit. |
| `PartialRead.CutLogIsReadBack` | internal/evidence/partial.go:13-51 | A log of JSON objects, one a line, cut at any byte is read as exactly its complete records, without error, and is partial if and only if the cut falls inside a record. |
| `PartialRead.ObjectsAreRecords` | internal/evidence/partial.go:42-46 | Trimming the line of a JSON object gives the object back. |
| `ClockReadback.Set` | internal/guestclock/clock.go:71-103 | Which requests are answered, and the answer's fields and verdict, with 64-bit wrap-around and saturation. |
| `ClockReadback.HostAgreesExactly` | internal/engine/steps.go:62-83 | On valid samples the host's check accepts exactly the results the guest calls valid, if and only if the difference does not saturate at the bound. |
| `ClockReadback.AgreementCanFail` | internal/engine/steps.go:62-83 | Samples on which guest and host disagree. |
| `ClockReadback.UnitRatePassesExactly` | internal/guestclock/clock.go:95-102 | A setter that took effect between the samples and ticks at unit rate passes both checks if and only if elapsed plus tolerance fits a duration. |
| `ClockReadback.UnitRateCanFail` | internal/guestclock/clock.go:95-102 | Samples of a correct setter that fails the readback. |
| `ClockReadback.AcceptanceConfinesOffset` | internal/engine/steps.go:71-82 | Acceptance confines realtime minus monotonic time to a width of elapsed plus twice the tolerance. |
| `Verdict.Run.ExecuteSteps` | internal/engine/run.go:204-277 | The loop succeeds if and only if every step goes well, every assertion can be judged and the observations fit 1 MiB; the results recorded are always the first of those owed, and all of them on success. |
| `Verdict.Run.EvaluateStep` | internal/engine/run.go:243-259 | Evaluate runs on the step's own observation, and its results are then counted: the step fails exactly if an assertion cannot be judged or the quota is exceeded, and results are always the first of those owed. |
| `Results.OneResultEach` | internal/engine/run.go:243-273 | For every scenario Validate accepts, the results owed are one per declared assertion and one per action, under pairwise different IDs. |
| `Results.PassMeansHolds` | internal/scenario/assertions.go:23-97 | All results pass if and only if every assertion holds of its step's observation and every action exits as wanted. |
| `Verdict.EvaluateSelected` | internal/engine/run.go:243-249 | Evaluate on the assertions of a step and its observation gives the results owed, up to the first that cannot be judged. |
| `Verdict.Run.Conclude` | internal/engine/run.go:289-390 | Exactly when a run is COMPLETED, CANCELLED, evaluated and cleaned; exit code 0 if and only if everything went well and every result passed; every report in report.json passes the readers' check, and it differs from the one returned if and only if a COMPLETED report's write failed after its rename. |
| `Verdict.FiledAndReturnedDiffer` | internal/engine/run.go:381-390 | A run that went well but for the sync after its report's rename: report.json says COMPLETED and PASS, and the returned outcome is ERROR. |
| `Verdict.Run.CleanUp` | internal/engine/run.go:315-379 | Every cleanup step is tried; a failure takes COMPLETED back and cancellation overrides all. |
| `Verdict.Run.Execute` | internal/engine/run.go:204-390 | A COMPLETED run of a valid scenario holds exactly the results owed; exit code 0 if and only if nothing failed, every declared assertion holds of its step's observation and every action exited as wanted, and then report.json says the same. |
| `Authority.EveryRestartIsJustified` | workloads/agent-authority-expiry/main.go:213-322 | Over any commands, clock readings, failures, kills and power losses, every restart happened inside [not_before, expires_at) of a matching grant and no accepted pending request caused two. |
| `Authority.CountRisesOnlyWhenAllowed` | workloads/agent-authority-expiry/main.go:311-322 | In every step the restart count stays or falls, or rises by one together with a recorded restart at an authorized instant. |
| `Authority.StepKeepsInv` | workloads/agent-authority-expiry/main.go:266-309 | Every file operation, crash and power loss keeps: a request being executed is durably gone, and stored requests have not been executed. |
| `Authority.AuthorizedExactly` | workloads/agent-authority-expiry/main.go:166-211 | The decision is AUTHORIZED if and only if all names are safe and the grant covers the request at that instant. |
| `Authority.Files.ExecutePending` | workloads/agent-authority-expiry/main.go:266-309 | The pending request is consumed before it is decided, whatever the decision; exactly when there is an outcome; the worker restarts if and only if the request is authorized now and the write gets as far as its rename. |
| `Authority.Files.Attempt` | workloads/agent-authority-expiry/main.go:213-240 | A restart needs authorization at both readings of the clock and raises the count by one; both decisions are reported; the command errs with the worker restarted if and only if the write fails after its rename. |
| `Authority.Files.Ask` | workloads/agent-authority-expiry/main.go:242-264 | A request is stored if and only if it is authorized, nothing is pending and the write gets as far as its rename; the command errs with the request stored if and only if the write fails after that. |

## Left out

- `RunSafety.TimelyRecoveriesAreSafe`: excludes schedules that may still be safe, because each lock it excludes can only be continued to an unsafe world (`OvertakenRecovery.UntimelyLockIsUnsafe`); the exact statement is `LiveVmms.OneVmmAndItsDiskExactly`.
- `PartialRead.CutLogIsReadBack`: validity of a JSON text is a parameter, and records are JSON objects on one line, as the encoder writes them.
- `Guest.StepFollowsPlan`: the size limit on inputs is not proved end to end, because re-encoding JSON can change byte lengths; the agent's check of an input is an environment value.
- System calls, `/proc` parsing, KVM, vsock, file modes and symlink checks: abstract steps under the assumptions named in each module (exclusive lock, atomic rename, a reboot kills all processes, PID and start ticks unique per boot).
- SHA-256, random IDs, images and artifact loading: run IDs are fresh values, hashes do not appear.
- JSON tokenizing, exact field names, UTF-8 and RFC 3339 text: the models start from tokens or trees and from integer nanoseconds.
- Liveness and real time: tickers, grace periods and deadlines are events that may happen at any moment. A temporary file left by a crash can block later writes of the workload; nothing is claimed about progress.
- The output captures and the readiness loop of the guest manager, the capped version output of Firecracker, and `StopAll`: bounded copies and loops without a property of their own.
- Command line, configuration, hello identity strings, terminal quoting, schemas, scripts, the clock probe and the incident-response demo.
