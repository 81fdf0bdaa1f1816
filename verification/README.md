# Verification of the pgcopydb operator's Migration reconciler

This project models the Migration controller of the pgcopydb operator in Dafny and proves what it
promises over every run, and beside it four self-contained computations of the same program. Check it
with `dafny verify dfyconfig.toml`.

## The reconciler

A Migration is driven by passes. A pass reads the persisted status, the child Jobs and the pods, takes
one of many branches, and lands a few writes; it may crash after any of them. Between two passes the
world moves: Jobs finish or go away, pods start and end, users edit the spec, time passes.

- `Cluster.dfy`, `Conditions.dfy`, `Samples.dfy`: the persisted state (spec, status with its conditions,
  Jobs, unended pods, clock) and the effect of each write.
- `Passes.dfy`: one pass as a function of what it reads, giving the writes it lands in order. It is the
  specification of `Controller.dfy`, where the pass runs as it does in the source: methods that change a
  working copy step by step, write to the API server and may crash before any write. The method
  `Reconcile` is proved to land exactly the first writes of `Pass`.
- `Runs.dfy`: runs, with a crash point in every pass and every step of the outside world.
- `Invariant.dfy`: the bookkeeping of attempts, refunds, workers, rehearsals and finish Jobs, and the
  meaning of the conditions that double as latches.
- `Rules.dfy`: what each write may be, given the world it lands on and what its pass read. The rules are
  stated without the pass. `PassRules.dfy`, `GateRules.dfy`, `AttemptRules.dfy`, `ObserveRules.dfy`,
  `WorkerRules.dfy`, `FinishRules.dfy` and `ReconcileRules.dfy` prove, branch by branch, that every write
  of every pass obeys them and keeps the invariant; `Steps.dfy` proves it of each kind of write and of
  the outside world.
- `Histories.dfy`: the landed writes of a run in order. `Safety.dfy`, `Latches.dfy` and `Deadline.dfy`
  state the promises over whole runs: the budget, the gate, the cutover, the finish order, the latches.
- `Starts.dfy`: the guards under which a pass starts an attempt or a rehearsal run. `Pods.dfy`: one pod
  per attempt and per rehearsal run, what a pod's Job is worth for it, and exactly when a pass creates a
  second Job.
- `Blocked.dfy`: CommitsBlocked over a run of the reconciler fed by a run of the sampler.
- `Stale.dfy`: passes that work from a stale copy of the status, with the messages and generations of
  the conditions, which only a merge patch looks at.
- `Boundaries.dfy`: where promises stop: exact conditions for a suspend and a deletion, and runs that
  reach the other side of these and of `Pods.dfy`.

## The self-contained parts

- `GateLog.dfy`: the retry gate's probe script as a printer of lines, and the reader of its log.
- `Sentinel.dfy`: LSN and lag arithmetic with the 64-bit conversions written out.
- `Sampler.dfy`: the progress sampler as interleaved steps of its lock sections and goroutines, and as
  an object whose methods are those steps.
- `Passfile.dfy`: the passfile escaping against libpq's reader ("The Password File" in the PostgreSQL
  documentation), comment lines and the carriage returns it strips included.
- `TableScope.dfy`: the table audits' scope against what the copy and the publication select.
- `Text.dfy`: strings as the Go standard library cuts and scans them.

## Where the code and a promise part

- A suspend is meant to stop the worker. It stops the recorded one; a worker that a crashed pass created
  without recording it keeps running while the Migration reads Suspended.
  `Boundaries.SuspendStopsWorkersIff` gives the exact condition, `Boundaries.SuspendMissesAWorker` a run.
- The same unrecorded worker is missed by a deletion: with no attempt recorded the finalizer goes at
  once and no cleanup runs, with the worker still running as the finalizer goes; collecting it is then
  left to its owner reference. `Boundaries.ReleaseLeavesWorkersIff` says exactly when,
  `Boundaries.ReleaseMissesAWorker` gives a run.
- One pod per attempt holds as long as every unended worker pod still has its Job, which the
  controller's own foreground deletes respect (`Pods.OneAttemptAtATime`, `Pods.OnePodPerAttempt`). A
  pass that starts an attempt asks for pods of the attempt before only, so it creates a second Job
  beside a living pod if and only if the first is gone (`Pods.SecondWorkerIff`), its record landed or not;
  `Boundaries.SecondWorkerPod` is a run with two pods of attempt 1.
- One rehearsal pod holds likewise (`Pods.OneRehearsalPod`, `Pods.OnePodPerRun`). A start never asks for
  rehearsal pods: `Pods.SecondRehearsalIff`, `Boundaries.SecondRehearsalPod`.
- A password that ends in a carriage return, and a host that begins with #, are lost on libpq:
  `Passfile.SecretLineReadsBackIff`, `Passfile.CarriageReturnIsLost`, `Passfile.CommentHostIsLost`. A static host or user is written
  without escapes as coming from the validated spec (internal/conn/conn.go:563-565), but the spec's
  validation admits colons and backslashes in both (api/v1beta1/migration_types.go:33-50), a role
  name with a colon for one (`Passfile.ColonSpills`); `Passfile.StaticLineReadsBackIff` says which lines
  survive.
- A stale copy cannot touch the retry's accounts, but its unlocked patch replaces the whole list of
  conditions, an outcome the server already holds included, unless the copy holds to the message and
  the generation what the pass would set. `Stale.StaleRetryKeepsOutcomeIff` is the exact condition;
  `Stale.StaleHoldErasesOutcome` and `Stale.StaleMessageErasesOutcome` lose an outcome, and
  `Stale.StaleFailureFlipsComplete` turns Complete into Failed.
- A probe's log reads as a pass only if the script passed, cut or not, as long as nothing ahead of its
  first line spells the verdict: `GateLog.NoCutReadsAsPass`, `GateLog.SpoiledHeadReadsAsPass`.

## Model

| member | source | states |
|---|---|---|
| `ReconcileRules.PassIsLawful` | internal/controller/migration_controller.go:182-303 | every write of every pass, on any state that meets the invariant and any reading, obeys the rules of its kind and leaves the invariant |
| `Histories.InvAlways` | internal/controller/migration_controller.go:127-130 | the invariant holds after every run: passes that crash between any two writes, and any outside step between passes |
| `Histories.EveryWriteIsLawful` | internal/controller/migration_controller.go:127-130 | every landed write of every run obeys the rules in the world it lands on |
| `Controllers.Controller.Reconcile` | internal/controller/migration_controller.go:182-303 | the step-by-step pass lands exactly the first writes of `Pass`, up to the crash, and so is a step of the runs the theorems range over |
| `Safety.WithinBudget` | internal/controller/retry_gate_budget.go:38-48 | exemptAttempts stays at or below attempts, at most attempts − 1 while a worker is recorded, and with backoffLimit never lowered attempts ≤ backoffLimit + 1 + exemptAttempts, adopted workers included |
| `Safety.WorkerStarts` | internal/controller/migration_controller.go:877-923 | a worker is created only as the next attempt, with attempts − exemptAttempts < backoffLimit + 1 and no handover Job; a retry only with no unended pod of the previous attempt or a rehearsal, behind a probe that completed within 60 s on the current inputs and whose log passes every check, with the verdict settled |
| `Pods.OneAttemptAtATime` | internal/controller/retry_gate.go:171-185 | no two attempts have unended pods at the same time, and of one attempt's unended pods at most one still has its Job |
| `Pods.OnePodPerAttempt` | internal/controller/migration_controller.go:877-923 | at most one worker pod is unended in every run in which no worker Job goes away with a pod of it unended |
| `Pods.OwnedAlways` | internal/controller/migration_controller.go:127-130 | no pass, crash or outside step but such a removal takes an unended pod's Job away |
| `Pods.SecondWorkerIff` | internal/controller/migration_controller.go:877-923 | a pass with budget left and its gate cleared creates a Job of the next attempt if and only if none of its name exists and it gets to the create, whether it crashes behind it or not and whatever pods of the attempt live |
| `Boundaries.SecondWorkerPod` | internal/controller/migration_controller.go:908-923 | a run with two unended pods of attempt 1, the first without its Job |
| `Safety.CountersAreHistories` | internal/controller/retry_gate.go:326-334 | exemptAttempts is the number of landed Exempt verdicts and attempts the number of landed records |
| `Safety.VerdictStands` | internal/controller/retry_gate.go:136-140 | a verdict once given stays, with its refund, until the next attempt is recorded |
| `Safety.RefundNeedsAWait` | internal/controller/retry_gate_budget.go:60-69 | exemptAttempts rises only in a locked patch on an undecided verdict, for a named SyncRep wait that began 30 s or more before the failure |
| `Safety.GateNamesTheFailure` | internal/controller/migration_controller.go:1046-1054 | a retryGate record always names the last attempt, with no worker recorded |
| `Deadline.OverdueIsDecided` | internal/controller/retry_gate.go:60-67 | a pass on an active Migration at or after failedAt + 15 min leaves no verdict undecided |
| `Stale.StaleRetryKeepsOutcomeIff` | internal/controller/migration_controller.go:1249-1256 | Complete and Failed on the server keep their values through a stale retry if and only if, with the copy's budget spent, it holds Failed alone, and otherwise it holds neither, or a locked patch comes first, or the copy already holds, message and generation included, what the pass would set |
| `Stale.StaleRetryLands` | internal/controller/retry_gate.go:60-169 | what a stale retry lands before a locked patch, branch by branch: no worker, and no patch or exactly the one hold or failure its copy and readings give |
| `Stale.StaleMessageErasesOutcome` | internal/controller/retry_gate.go:92-95 | a hold of the same reason with a new message or generation, set from a stale copy, erases an outcome the server holds |
| `Stale.StaleFailureFlipsComplete` | internal/controller/migration_controller.go:893-896 | a stale copy with its budget spent turns Complete on the server into Failed |
| `Stale.StaleAdoptionIff` | internal/controller/migration_controller.go:880-891 | adopting a worker from a stale copy keeps the server's accounts if and only if the server recorded that very attempt and no failure since |
| `Stale.StaleRetryKeepsAccounts` | internal/controller/retry_gate.go:336-369 | what the retry path lands from a stale copy creates no worker, is one patch at most and, merged into the server's status, changes neither attempts, refunds, the recorded worker nor the verdict |
| `Safety.LatchIsLastMeasurement` | internal/controller/follow.go:58-67 | the ConfirmingCatchUp latch is exactly the measurement of the last acting pass whose status write landed |
| `Safety.CutoverIsConfirmed` | internal/controller/follow.go:160-207 | the endpos is asked for only in an acting pass below the threshold whose predecessor measured the same, with approval unless Automatic, while none is held |
| `Safety.EndposStays` | internal/controller/follow.go:138-158 | an endpos in status is never cleared, changed or asked for again |
| `Safety.FinishJobsAfterExit` | internal/controller/reown.go:318-329 | no verify, handover or non-deletion cleanup Job exists before a worker exited 0 |
| `Safety.CleanupIsEarned` | internal/controller/follow.go:230-282 | the cleanup Job is created only on deletion, or with the verify Job complete and a requested handover complete |
| `Safety.CompleteIsEarned` | internal/controller/follow.go:276-315 | Complete, other than by dry run, is set only with a worker exited 0, the handover and every requested compare finished, and on a live migration the drain proven and cleanup over |
| `Safety.TerminalIsAbsorbing` | internal/controller/migration_controller.go:209-226 | a terminal Migration keeps its outcome and creates nothing but a deletion's cleanup Job |
| `Safety.OutcomesExclude` | internal/controller/retry_gate.go:274-314 | Complete and Failed are never both True, and RetryHeld is True in neither, nor in phase Suspended |
| `Latches.StartOverIsLastFailure` | internal/controller/migration_controller.go:614-621 | the SnapshotLost latch is what the last handed-over failure's log said, until a record or a terminal failure clears it |
| `Latches.RestartIsLatched` | internal/controller/resources.go:139-143 | attempt n > 1 is built to start over if and only if the last failure latched a lost snapshot and dropIfExists is still set |
| `Latches.RefusalStands` | internal/controller/migration_controller.go:618-649 | a refused clone-done marker of a live migration stands until a pass's own sample owes no table and CloneCompleted turns True, a new attempt is recorded, a hand-over latches a lost snapshot, or the Migration fails |
| `Latches.CloneOnlyStays` | internal/controller/migration_controller.go:842-873 | CloneCompleted of a clone-only Migration never reverts, and no worker is created after it |
| `Latches.StartsAreSeparated` | internal/controller/rehearsal.go:56-94 | between two recorded rehearsal starts lies a landed pass that saw rehearsal = false and no unended rehearsal pod |
| `Pods.OneRehearsalPod` | internal/controller/rehearsal.go:104-132 | every unended rehearsal pod is of the open run, and at most one of them still has its Job, lost start writes included |
| `Pods.OnePodPerRun` | internal/controller/rehearsal.go:104-132 | at most one rehearsal pod is unended in every run in which no rehearsal Job goes away with a pod of it unended |
| `Pods.SecondRehearsalIff` | internal/controller/rehearsal.go:105-132 | a pass with a rehearsal asked for and none armed creates a Job of the open run if and only if none of its name exists and it gets to the create, beside any unended rehearsal pod, which is of that very run |
| `Latches.NothingBesideARehearsal` | internal/controller/rehearsal.go:280-326 | beside an unended rehearsal pod no probe and no retry is created, nor a drain verify before CutoverCompleted is True |
| `Latches.BlockedNeedsProof` | internal/controller/syncrep.go:56-83 | CommitsBlocked rises only on a confirmed wait, and falls only on a sample under 30 s or the worker's exit 0 |
| `BlockedCommits.BlockedNeedsTwoSamples` | internal/controller/sampler.go:143-160 | over every run fed by any interleaving of the sampler, CommitsBlocked rises only on a sample stored right after another of the same sampler run, both with a waiter at or over 30 s |
| `Boundaries.SuspendStopsWorkersIff` | internal/controller/migration_controller.go:769-840 | a whole suspending pass leaves no worker Job running undeleted if and only if no unrecorded worker of the next attempt exists |
| `Boundaries.SuspendMissesAWorker` | internal/controller/migration_controller.go:908-923 | a run in which a suspended Migration keeps a running worker |
| `Boundaries.ReleaseLeavesWorkersIff` | internal/controller/follow.go:478-518 | a whole deletion pass takes the finalizer off if and only if no attempt is recorded or the recorded worker is stopped and cleanup is over, and then leaves no worker running if and only if no unrecorded one of the next attempt runs |
| `Boundaries.ReleaseMissesAWorker` | internal/controller/follow.go:488-507 | a run in which the finalizer goes while attempt 1 runs and no cleanup Job was created |
| `Boundaries.SecondRehearsalPod` | internal/controller/rehearsal.go:105-132 | a run with two unended rehearsal pods, after a background delete |
| `GateRules.RetryGateRules` | internal/controller/retry_gate.go:60-169 | the gate lands only lawful writes, and a gate that clears leaves pods ended, a fresh pass on the current inputs and a settled verdict |
| `AttemptRules.StartAttemptRules` | internal/controller/migration_controller.go:877-967 | adopting, failing on a spent budget, gating and starting an attempt land only lawful writes |
| `ObserveRules.ObserveCopyMoves` | internal/controller/migration_controller.go:531-551 | how an observation may move CloneCompleted: only a judged marker raises it, only a sample that owes nothing lifts a refusal |
| `ObserveRules.MarkerBelievedIff` | internal/controller/migration_controller.go:629-649 | over any series of judgements the clone-done marker is believed if and only if the last sample that read the counts owes no table, or none read them |
| `ObserveRules.StageNeedsACopy` | internal/controller/migration_controller.go:692-705 | over any series of samples of one attempt the copy is latched as seen if and only if one of them saw it start, and Finalizing is reported only then |
| `ObserveRules.BlockedIsLastProof` | internal/controller/syncrep.go:59-83 | over any series of samples CommitsBlocked is what the last one that proved anything showed: a lost sample, or one over 30 s but unconfirmed, moves nothing |
| `ObserveRules.FollowEndpos` | internal/controller/follow.go:138-207 | the stream step asks for the cutover exactly under its conditions, and keeps a held endpos |
| `ObserveRules.RehearsalRules` | internal/controller/rehearsal.go:59-132 | the rehearsal step's writes are lawful, under every API error it swallows, and it re-arms only with no pod left |
| `WorkerRules.HandleFailedRules` | internal/controller/migration_controller.go:987-1064 | a failed worker either fails the Migration for a cause retries cannot fix or hands over to the gate, once |
| `FinishRules.FinishFollowRules` | internal/controller/follow.go:230-315 | the live finish path lands only lawful writes, in the order drain, handover, cleanup, compares, Complete |
| `FinishRules.FinishCloneRules` | internal/controller/verification.go:167-222 | the clone-only finish path lands only lawful writes, in the order catalog, handover, compares, Complete |
| `FinishRules.CompareLoopRules` | internal/controller/verification.go:250-315 | the compares run one at a time, schema first, and the results recorded are those of the finished Jobs |
| `Steps.EnvKeeps` | internal/controller/migration_controller.go:127-130 | nothing the outside world does breaks the invariant |
| `Controllers.Controller.RetryGateRun` | internal/controller/retry_gate.go:60-112 | runs the gate step by step, equal to its specification |
| `Controllers.Controller.JudgeProbeRun` | internal/controller/retry_gate.go:116-169 | judges a finished probe, equal to its specification |
| `Controllers.Controller.FindPod` | internal/controller/retry_gate.go:173-185 | the loop over the pod list finds an unended pod exactly when there is one |
| `Controllers.Controller.DecideVerdict` | internal/controller/retry_gate.go:318-334 | the verdict, the refund and the failure in one locked patch |
| `Controllers.Controller.SettleVerdict` | internal/controller/retry_gate.go:339-357 | the locked budget patch before a worker |
| `Controllers.Controller.StartAttemptRun` | internal/controller/migration_controller.go:877-923 | starts, adopts or refuses an attempt, equal to its specification |
| `Controllers.Controller.RecordRun` | internal/controller/migration_controller.go:926-967 | records the running attempt and removes its probe |
| `Controllers.Controller.NextAttemptRun` | internal/controller/migration_controller.go:851-873 | resumes the finish path or starts the next attempt |
| `Controllers.Controller.ObserveRun` | internal/controller/migration_controller.go:490-595 | observes a running worker: copy, stream, rehearsal, patch, stray probes |
| `Controllers.Controller.FollowRun` | internal/controller/follow.go:124-223 | carries the sample forward, sets the latch and drives the cutover |
| `Controllers.Controller.HandleFailure` | internal/controller/migration_controller.go:987-1064 | classifies a failed worker's log and writes the verdict or the hand-over |
| `Controllers.Controller.CancelRun` | internal/controller/rehearsal.go:164-216 | cancels the recorded rehearsal, then deletes the strays of one list in order |
| `Controllers.Controller.StartRun` | internal/controller/rehearsal.go:107-132 | deletes the previous run's Job, then creates the next run's |
| `Controllers.Controller.DrainRun` | internal/controller/follow.go:241-315 | the live finish path behind the cancel |
| `Controllers.Controller.FinishCloneRun` | internal/controller/verification.go:171-222 | the clone-only finish path |
| `Controllers.Controller.ReownRun` | internal/controller/reown.go:252-316 | the handover gate |
| `Controllers.Controller.CompareRun` | internal/controller/verification.go:259-291 | the loop over the enabled compares |
| `Controllers.Controller.SuspendRun` | internal/controller/migration_controller.go:771-840 | stops rehearsal, worker, preflight, handover and probe, then parks the Migration |
| `Controllers.Controller.DeletionRun` | internal/controller/follow.go:478-518 | stops the worker, runs cleanup, releases the finalizer |
| `Controllers.Controller.PreflightRun` | internal/controller/migration_controller.go:346-376 | only the first attempt waits for the preflight |
| `GateLog.LogReadsBack` | internal/controller/retry_gate_job.go:290-329 | parsing the log recovers the census numbers, the synchronous_commit value, the commit result and the verdict, for every outcome of the checks and whatever other lines went to it |
| `GateLog.PassedIffScriptPasses` | internal/controller/retry_gate_job.go:331-337 | passed(inputs) holds on the full log exactly when the script prints its pass line |
| `GateLog.NoCutReadsAsPass` | internal/controller/retry_gate_job.go:331-337 | no cut of a failing run's log reads as a pass, through no session line and no other line between the printed ones, whatever the current inputs |
| `GateLog.SpoiledHeadReadsAsPass` | internal/controller/retry_gate_job.go:290-337 | behind a line that ends in the verdict, the tail of a run that found no session reads as a pass of the census alone |
| `GateLog.HoldNamesAFailedCheck` | internal/controller/retry_gate_job.go:341-381 | the hold reason is empty exactly when passed holds, and names a check that did not pass |
| `GateLog.CensusReads` | internal/controller/retry_gate_job.go:320-329 | the census line parses back to its numbers |
| `GateLog.ParseGateLog` | internal/controller/retry_gate_job.go:290-317 | the line loop computes the specification |
| `Sentinel.LagIsExact` | internal/sentinel/sentinel.go:74-84 | LagBytes, when present, is the exact distance; it is absent exactly when a text does not parse, head precedes replay or the distance is 2^63 or more |
| `Sentinel.LSNReadsBack` | internal/sentinel/sentinel.go:201-216 | every 64-bit position printed as an LSN parses back |
| `Sentinel.ParseSample` | internal/sentinel/sentinel.go:104-122 | the field loop keeps the last valid value of each label |
| `Sentinel.SampleIsWellFormed` | internal/sentinel/sentinel.go:100-122 | a sample carries only texts that parse, and never an endpos |
| `Samplers.OneLoopPerKey` | internal/controller/sampler.go:106-127 | a key has at most one uncancelled loop, and it is the registered run's |
| `Samplers.NoGaugeAfterStop` | internal/controller/sampler.go:162-178 | after Stop no run writes a gauge of the key until the next Observe |
| `Samplers.HandedInOrder` | internal/controller/sampler.go:129-160 | within a run the samples handed to passes never step back in time, and copySeen stays |
| `Samplers.ConfirmedNeedsTwo` | internal/controller/sampler.go:143-160 | a stored sample confirms a wait exactly when it and the one stored before it are both over 30 s |
| `Samplers.HandedConfirmedIsStored` | internal/controller/sampler.go:106-127 | a pass is handed a confirmed wait only as the run's last stored sample |
| `Samplers.Sampler.Observe` | internal/controller/sampler.go:106-127 | replaces a run of another Job, registers one if need be and hands out its latest sample |
| `Samplers.Sampler.KeepLocked` | internal/controller/sampler.go:146-160 | latches the copy and stores the sample unless the run holds a newer one |
| `Samplers.Sampler.SampleNowEnds` | internal/controller/sampler.go:131-141 | a pass gets its own sample back, kept and judged as the run's if the run still stands, and never confirmed if it does not |
| `Samplers.Sampler.Stop` | internal/controller/sampler.go:164-178 | cancels and unregisters the run |
| `Samplers.Sampler.End` | internal/controller/sampler.go:89-101 | every run ends with Start |
| `Samplers.Sampler.LoopLands` | internal/controller/sampler.go:182-201 | a done context ends the loop before it writes |
| `Passfile.SecretLineReadsBackIff` | internal/conn/conn.go:508-512 | the line of a Secret's connection reads back as host, *, *, user, password if and only if the host does not begin with # and the password does not end in a carriage return |
| `Passfile.CarriageReturnIsLost` | internal/conn/conn.go:508-512 | a password file that ends in a carriage return and a newline is read without either |
| `Passfile.CommentHostIsLost` | internal/conn/conn.go:508-512 | the line of a host that begins with # is no entry |
| `Passfile.ColonSpills` | internal/conn/conn.go:563-582 | the static user a:b is read as the user a with the password b |
| `Passfile.StaticLineReadsBackIff` | internal/conn/conn.go:563-582 | the line of a static connection reads back if and only if host and user hold neither colon nor backslash, the host does not begin with # and the password does not end in a carriage return |
| `Passfile.FileReadsBack` | internal/conn/conn.go:570-588 | libpq's lookup in a file of static and Secret connections gives each target the password of the first connection that serves it, on any port and database |
| `Passfile.EscapeIsEscaped` | internal/conn/conn.go:445-446 | backslashes first, then colons, escapes each character exactly once |
| `TableScope.CopyAuditCovers` | internal/controller/resources.go:1077-1080 | every table the copy selects is in the audit's scope for every meaning of the entries that cannot be matched exactly; when all can, the scope is the selection |
| `TableScope.DataAuditCovers` | internal/controller/resources.go:1089-1097 | the same for the tables whose rows are copied |
| `TableScope.PublishAuditCovers` | internal/controller/resources.go:1082-1087 | the same for the publication, partitioned ancestors included |
| `TableScope.RenderScope` | internal/controller/resources.go:1117-1148 | the rendering computes the specification |
| `TableScope.RenderEntries` | internal/controller/resources.go:1150-1170 | the entry loop computes the specification |

## Left out

- API reads are current and passes are sequential; stale copies are modelled only for the retry path's patches (`Stale.dfy`). Time stands still within a pass.
- A status write is the whole status: on sequential passes a merge patch comes to that. `Stale.Merge` models the merge itself.
- Controllers.Controller.Reconcile: an API error other than those the rehearsal step swallows ends the pass like a crash does, so it is not a case of its own.
- StaleRetryKeepsAccounts: a stale pass that finds a worker of the next attempt already created adopts it, a path of its own: `Stale.StaleAdoptionIff`.
- NoCutReadsAsPass: lines that do not begin with the script's prefix may stand anywhere, but those ahead of its first line must not contain the verdict; see `GateLog.SpoiledHeadReadsAsPass`.
- OnePodPerAttempt: needs that no worker Job goes away with a pod of it unended; see `Boundaries.SecondWorkerPod`.
- OnePodPerRun: needs that no rehearsal Job goes away with a pod of it unended; see `Boundaries.SecondRehearsalPod`.
- BlockedNeedsTwoSamples: a pass that samples for itself, with no sampler running, hands itself an unconfirmed sample, as in the source.
- Controllers.Controller.ObserveRun: the zombie reaper's end of the pass is one of its crash points, and the pod it deletes is a step of the outside world.
- Controllers.Controller.FollowRun: the endpos nudge writes nothing this model holds.
- WithinBudget: the bound on attempts needs that backoffLimit is never lowered, because the adoption of an unrecorded worker does not check the budget again.
- The finish order is stated for the Jobs present when each write lands: a finished verify or cleanup Job can be collected after its TTL and is then created again.
- A deletion's cleanup may run while the worker Job is still terminating; nothing is claimed of worker pods then.
- Worker, probe and rehearsal Jobs start at most one pod, which their backoffLimit of 0 gives.
- Log classification, samples, probe results and the order of API lists are inputs of a pass; the bodies of Jobs other than the gate script's output are not modelled.
- The gate script's shell patterns are read on the census as numbers; the printed text of psql errors is any one-line text.
- Condition messages, events, metrics other than the sampler's gauge writes, node annotations, PVCs and ConfigMaps.
- Sampler runs live in an arena named by numbers instead of behind pointers; the loop's period is any delay.
- FileReadsBack: files with a static connection whose host or user holds a colon or a backslash are excluded; `Passfile.StaticLineReadsBackIff` says that such a line is not read back.
- The audits' other predicates (relation kinds, ownership, row-level security itself) and the JSON text of the scope.
- The Kubernetes client, informers, owner references, volumes, affinity, images, CRD defaulting and manager set-up: plumbing.
