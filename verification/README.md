# policytwin: evidence, containment and repair protocol

This project models the state machines that run policytwin's repair worker, its egress proxy
and its verifier in containers, account for their CPU time, contain them when something goes
wrong, and carry a repair through verification and review. Each machine is modelled with every
answer of the outside world arbitrary; what it promises is proved of every run.

`dafny verify dfyconfig.toml` checks the whole project.

## How the model is built

A machine that the source updates in place appears twice: as a class whose methods follow the
source's own steps and loops, and as a pure step function. Each method's contract equates the
object's new state and its reply with the step function applied to the old state. Everything
else is proved of the step functions and of runs, which are sequences of calls with all their
answers. The two classes in `Lifecycle` state their promises directly instead, over a record of
what was really performed.

| modules | part |
|---|---|
| `Evidence`, `Acceptor`, `Selection` | CPU evidence version 2 and the acceptor that re-checks it |
| `Producer`, `ProducerInvariant`, `ProducerLive`, `ContainmentTail`, `Transcripts` | the evidence producer, its invariant, and what a containment appends |
| `FailureAccepted`, `SuccessAccepted`, `Completeness`, `TranscriptSize`, `Runs` | producer within acceptor, over all runs |
| `Outcomes`, `HealthyRun` | what each call of a live session ends in, told on its transcript, and a run in which nothing fails |
| `Soundness` | what acceptance alone implies about a transcript |
| `ProducerMachine` | the session object |
| `LifecycleLedger`, `Lifecycle` | the 28-stage run, its independent cleanups and its CPU ledger |
| `DockerOwner`, `DockerRuns`, `DockerOwnerMachine` | two networks and three containers, what closing means, and the runs that clean up and that leak |
| `BigEndian`, `HelperCodec`, `HelperStream`, `NativeNumbers` | the helper's binary protocol, its stream reader and its number parsing |
| `HelperLockstep`, `HelperOutcomes`, `HelperMachines` | the native helper and its client, in lockstep, and what each operation ends in |
| `ReviewBridge`, `ReviewBridgeOutcomes`, `ReviewBridgeMachine` | one-use attempts, retries and reviews |
| `Orchestration`, `OrchestrationOutcomes`, `OrchestrationMachine` | the bounded repair loop, with and without its guards |
| `CpuLedger`, `CpuLedgerOutcomes`, `CpuLedgerMachine` | the static CPU ledger and its parser |
| `CanonicalDiff`, `CanonicalDiffOutcomes` | the diff printer, a parser that inverts it, and which changes it takes |

Conventions. SHA-256 is an uninterpreted function of the structured value that is hashed; only
its determinism is used, and the printer's node limit and the field checks before each hash are
kept. Decimal strings are the integers they denote. A clock or signal that can differ at each
append is a function of the transcript's length; a failed append poisons the session, so it is
asked once per length. Timestamps are their fields, with the verdict of the engine's own date
parser as one more input.

## What the code does not do

Where a promise turned out false of the code, the model keeps the code, and a lemma says exactly
when the promise holds.

- The producer's own parse can refuse its evidence: for a caller that reports
  `CPU_BUDGET_EXCEEDED` (the account is never over budget between calls), or
  `CONTAINMENT_ACTION_FAILED` when no action failed. `Runs.EvidenceAccepted` and
  `Runs.RefusedExactly` show there is no other case, `Runs.MisreportsAreRefused` that both occur.
- The producer's timestamp check and the binding hash's calendar check disagree (years 2 to
  1969, for one). In between, the port has bound a role that the session does not record:
  `Runs.BoundButUnrecorded` says exactly when, `Runs.UnrecordedExists` gives the case.
- A containment may stop egress before the worker is released, the reverse of the order every
  other run keeps: `Runs.FailureStopsEgressEarly` says exactly when, `Runs.EarlyStopHappens`
  gives a run.
- The Docker owner may close over a container that exists or is still to come: container removal
  does not wait for the creation, so one that began before the create call can succeed after it
  and clear the unresolved flag. `DockerOwner.CloseMeansNothingLeft` says exactly when,
  `DockerRuns.EarlyRemovalLeaks` and `DockerRuns.OverlappingRemovalLeaks` give the runs. And a
  container that such a removal has overtaken, and that a failed creation then leaves, is never
  removed any more: by `DockerRuns.LeftContainerIsRemoved` what a failed creation left is cleaned
  up exactly when no removal had succeeded before.
- A role whose start succeeds before the signal is looked at again, and the signal has fired, is
  lost: not counted as started. The lifecycle removes its container but neither stops the role
  nor releases its cgroup, and may report clean. By `Lifecycle.DedicatedLifecycle.Run`, a clean
  result means every role really started was stopped and released if and only if none was lost,
  and by `Lifecycle.DedicatedLifecycle.StartRoleHeld` a start that succeeds is lost exactly when
  the signal has fired at that look; `Lifecycle.LoseEgress` is such a run.
- The helper's client sends two binds the native side refuses, which closes the session: of a
  role it bound before and released, and with the process of a live role.
  `HelperLockstep.RebindIsTheOneRefusal` shows from the client's own records that there is no
  third, `HelperLockstep.RebindIsReachable` and `HelperLockstep.PidClashIsReachable` that both
  occur.
- The native clock's overflow guard looks at the seconds alone; in second 18446744073 the
  addition of nanoseconds can wrap: `NativeNumbers.RawClockExact`.
- The orchestrator alone can pass a second attempt after a first that never reached corpus
  verification: `Orchestration.UnguardedSkipsVerification`. Every attempt of a PASS reached it
  if and only if no command failed, by `Orchestration.PassVerifiedEveryAttempt`; and the unsigned
  worker's call counts refuse exactly the other passes, by `Orchestration.GuardedPassesExactly`.
- The static ledger lets egress be sealed before the worker has begun:
  `CpuLedger.DeadEndIsReachable`. No proof comes of it: whatever begins next, or a finalization,
  poisons the ledger, by `CpuLedger.DeadEndIsDead`.

## Model

| member | source | states |
|---|---|---|
| Runs.EvidenceAccepted | src/codex/linux-cgroup-cpu-evidence-producer.ts:711-887 | Completeness over every run: the acceptor refuses the producer's own evidence exactly when a usable session is told a misreport (over budget, or a failed action when none failed) and its containment is recorded to the end; every candidate handed out is accepted; a call that throws leaves the session unchanged or poisoned |
| Runs.RefusedExactly | src/codex/linux-cgroup-cpu-evidence-producer.ts:689-701 | With a clock and signal that serve the appends of one containment, a call is refused exactly when it is a misreport: over budget reported at all, or a failed action reported when no role is unfinished or every answer to the containment's actions is a success |
| Runs.MisreportsAreRefused | src/codex/live-linux-cgroup-cpu-evidence-v2.ts:1754-1811 | Both misreports are refused in a new session that has bound no role: the two exceptions are real |
| Runs.EvidenceReliable | src/codex/linux-cgroup-cpu-evidence-producer.ts:1059-1087 | End to end: any evidence any run hands out carries the binding the run was created with, its digests and identities recomputed over that run, and says in its fields what its events say; it has an account recomputable from its transcript and, for success, the exact partition and order, for failure, nothing admitted or started after the one failure and, when contained, every observed role released, the controller stop last and the three actions succeeded for a role that was executing |
| Runs.TranscriptKept | src/codex/linux-cgroup-cpu-evidence-producer.ts:361-395 | In every session that is not poisoned: positions 1, 2, 3, …, strictly increasing time, at most 3090 events, and no event of an unregistered role, in spite of the rollback of a failed admission |
| Runs.EventsNeverFull | src/codex/linux-cgroup-cpu-evidence-producer.ts:369-372 | No run, poisoned or not, comes near the 4096 events at which an append would refuse |
| Runs.OrderKept | src/codex/linux-cgroup-cpu-evidence-producer.ts:468-473 | In every session that is not poisoned, failed ones included, both releases precede the verifier's admission, and the worker's release precedes egress's stop unless a failure was observed before |
| Runs.FailureStopsEgressEarly | src/codex/linux-cgroup-cpu-evidence-producer.ts:773-789 | A containment stops egress before the worker's release exactly when the failure meets egress running and the worker not released |
| Runs.EarlyStopHappens | src/codex/linux-cgroup-cpu-evidence-producer.ts:773-789 | It happens in a run: egress started, no worker yet, and a reported failure |
| Runs.ReportContains | src/codex/linux-cgroup-cpu-evidence-producer.ts:689-701 | With a clock that serves the appends, an honest report is recorded in full and accepted |
| Runs.StepSound | src/codex/linux-cgroup-cpu-evidence-producer.ts:325-1116 | One call on any reachable session: soundness is kept, and refusal, candidate and throw mean what they should |
| Runs.RunSound | src/codex/linux-cgroup-cpu-evidence-producer.ts:325-1116 | Every reachable session is poisoned, closed with accepted evidence, or live with its full invariant |
| Runs.UnusableStep | src/codex/linux-cgroup-cpu-evidence-producer.ts:352-359 | A poisoned or terminal session answers every call with a throw and never changes again |
| Runs.BoundButUnrecorded | src/codex/linux-cgroup-cpu-evidence-producer.ts:487-498 | A role the port has bound is left unrecorded, in an unchanged and usable session, exactly when its start time fails the calendar check of the binding hash |
| Runs.UnrecordedExists | src/codex/linux-cgroup-cpu-evidence-producer.ts:483-498 | It happens: in a new session egress is observed to have started in the last second of 1969; the port has bound it, the call throws, and the session is as before |
| Outcomes.SampleDoneExactly | src/codex/linux-cgroup-cpu-evidence-producer.ts:572-604 | With a serving clock a sample is done if and only if its role runs and the reading is valid, of the bound cgroup, not below the role's last one, within 1024 readings and within the budget, all read off the transcript; of a role that does not run it is refused and changes nothing |
| Outcomes.SampleRecords | src/codex/linux-cgroup-cpu-evidence-producer.ts:572-604 | Then exactly one event is added, the sample with that very usage and the next index, and the record of its role alone takes it |
| Outcomes.SampleFaults | src/codex/linux-cgroup-cpu-evidence-producer.ts:585-602 | Every other reading ends in accepted evidence of one failure with the code of the first check it fails (unreadable, drift, regression, over budget), or past the 1024th reading or 64 bits in a poisoned session |
| Outcomes.StopDoneExactly | src/codex/linux-cgroup-cpu-evidence-producer.ts:606-650 | The same equivalence for a stop, which egress may only make after the worker's release |
| Outcomes.StopRecords | src/codex/linux-cgroup-cpu-evidence-producer.ts:617-650 | A stop is recorded before its last reading, and both events say exactly what was answered |
| Outcomes.StopFaults | src/codex/linux-cgroup-cpu-evidence-producer.ts:626-648 | A last reading that is not healthy is contained after the recorded stop, for its own code |
| Outcomes.BindAnswers | src/codex/linux-cgroup-cpu-evidence-producer.ts:442-538 | Every admission in full: refused, poisoned, or recorded as the bound event and its baseline under the identity it must have |
| Outcomes.StartAnswers | src/codex/linux-cgroup-cpu-evidence-producer.ts:540-570 | A start is recorded exactly in its order, and else refused |
| Outcomes.ReleaseAnswers | src/codex/linux-cgroup-cpu-evidence-producer.ts:652-674 | A release is recorded exactly for a stopped role the port confirms; of any other role it is refused |
| Outcomes.ReleaseFaults | src/codex/linux-cgroup-cpu-evidence-producer.ts:665-673 | One the port does not confirm is contained for that |
| Outcomes.ReportAnswers | src/codex/linux-cgroup-cpu-evidence-producer.ts:689-701 | An honest report is contained for its own code, with what the port then answered |
| Outcomes.ContainTells | src/codex/linux-cgroup-cpu-evidence-producer.ts:711-887 | The evidence of a containment says what the cleanup did: the statuses of the actions, the roles released, the processes remaining, whether the controller stopped; its outcome follows |
| Outcomes.FinalizeSucceeds | src/codex/linux-cgroup-cpu-evidence-producer.ts:992-1057 | With every role released, egress seen within the run of the worker and the controller stopped, finalization hands out success evidence of the account |
| Outcomes.FinalizeFaults | src/codex/linux-cgroup-cpu-evidence-producer.ts:1003-1016 | With one of the last two missing it is contained for that |
| Outcomes.FinalizeRefuses | src/codex/linux-cgroup-cpu-evidence-producer.ts:938-955 | Before every role is released it is refused and changes nothing |
| HealthyRun.HealthyRunSucceeds | src/codex/linux-cgroup-cpu-evidence-producer.ts:325-1116 | A run in which nothing fails, for all identities, readings and clocks within the limits: 21 events and accepted success evidence of exactly the CPU time the roles spent |
| Completeness.ContainAccepted | src/codex/linux-cgroup-cpu-evidence-producer.ts:711-887 | A containment that records everything, with a reportable code, ends in accepted failure evidence and that terminal state |
| Completeness.ContainRejected | src/codex/linux-cgroup-cpu-evidence-producer.ts:1073-1076 | A misreport that records everything is refused and poisons the session |
| Completeness.ContainSubmits | src/codex/linux-cgroup-cpu-evidence-producer.ts:829-886 | No hash throws and the account does not overflow between a recorded containment and the acceptor |
| Completeness.SuccessEnds | src/codex/linux-cgroup-cpu-evidence-producer.ts:1017-1056 | A complete session whose controller stopped ends in accepted success evidence |
| Completeness.FinalizeEnds | src/codex/linux-cgroup-cpu-evidence-producer.ts:992-1057 | Finalization in any live session: accepted evidence of either kind, a poisoned session, or an unchanged one; never a refusal |
| Completeness.BindEnds | src/codex/linux-cgroup-cpu-evidence-producer.ts:442-538 | An admission in any live session is never refused and keeps the invariant or poisons |
| Completeness.SampleEnds | src/codex/linux-cgroup-cpu-evidence-producer.ts:572-604 | The same for a sample, whatever the port and the clock answer; which answer leads where is `Outcomes.SampleDoneExactly` and `Outcomes.SampleFaults` |
| Completeness.StopEnds | src/codex/linux-cgroup-cpu-evidence-producer.ts:606-650 | The same for a stop and its last sample, judged as `Outcomes.StopDoneExactly` and `Outcomes.StopFaults` say |
| Completeness.ReleaseEnds | src/codex/linux-cgroup-cpu-evidence-producer.ts:652-674 | The same for a release |
| Completeness.ReportEnds | src/codex/linux-cgroup-cpu-evidence-producer.ts:689-701 | A caller's report: refused exactly for a recorded misreport, accepted or poisoned otherwise |
| ProducerInvariant.AppendKeeps | src/codex/linux-cgroup-cpu-evidence-producer.ts:361-395 | One recorded event of no role keeps the whole consistency of session and transcript |
| ProducerLive.BindLive | src/codex/linux-cgroup-cpu-evidence-producer.ts:442-538 | An admission that does not poison keeps the live invariant, roles in order and identities apart |
| ProducerLive.RecordSampleKeeps | src/codex/linux-cgroup-cpu-evidence-producer.ts:415-440 | A recorded sample keeps the link between transcript and role record |
| ProducerLive.StartLive | src/codex/linux-cgroup-cpu-evidence-producer.ts:540-570 | A start keeps the live invariant: worker inside egress, verifier after both releases |
| ProducerLive.ReleaseLive | src/codex/linux-cgroup-cpu-evidence-producer.ts:652-687 | A release keeps the live invariant |
| ContainmentTail.ContainKeeps | src/codex/linux-cgroup-cpu-evidence-producer.ts:720-802 | A recorded containment keeps consistency and appends exactly one failure, the three actions if some role was unfinished, stops and releases of roles, and at most one controller stop, in that order |
| FailureAccepted.FailureLinks | src/codex/live-linux-cgroup-cpu-evidence-v2.ts:1425-1585 | The transcript of a recorded containment passes the acceptor's linkage of roles, actions and controller |
| FailureAccepted.OutcomeConsistent | src/codex/live-linux-cgroup-cpu-evidence-v2.ts:1754-1812 | The outcome a containment states passes the acceptor's cross-checks whenever the code may be reported |
| FailureAccepted.OutcomeInconsistent | src/codex/live-linux-cgroup-cpu-evidence-v2.ts:1754-1812 | For a misreport no outcome the producer states passes them |
| FailureAccepted.FailureAccepts | src/codex/live-linux-cgroup-cpu-evidence-v2.ts:1587-1845 | All conditions on failure evidence together, for the evidence a containment builds |
| SuccessAccepted.PartitionExact | src/codex/live-linux-cgroup-cpu-evidence-v2.ts:1160-1173 | The producer's three proofs and the two controller events name every position of the transcript and nothing else |
| SuccessAccepted.ProofsOrdered | src/codex/live-linux-cgroup-cpu-evidence-v2.ts:1174-1189 | Egress brackets worker, the verifier follows, and an egress sample falls inside the worker's run, by the transcript's clock |
| SuccessAccepted.ProofsAccepted | src/codex/live-linux-cgroup-cpu-evidence-v2.ts:862-1066 | The three role proofs of a complete session are admitted and linked |
| SuccessAccepted.SuccessAccepts | src/codex/live-linux-cgroup-cpu-evidence-v2.ts:1068-1248 | All conditions on success evidence together |
| Transcripts.TranscriptValid | src/codex/live-linux-cgroup-cpu-evidence-v2.ts:842-860 | A consistent session's transcript is one the event parser admits |
| Transcripts.RoleLinks | src/codex/live-linux-cgroup-cpu-evidence-v2.ts:1475-1531 | A consistent role record passes the per-role linkage of the failure acceptor |
| Soundness.SuccessSound | src/codex/live-linux-cgroup-cpu-evidence-v2.ts:1158-1194 | Whoever produced it, accepted success evidence is of the expected run, within the expected budget, and has length 2 plus 4 and the sample count per role; each event stands in the proof of exactly the role it names; each role's first sample lies between its binding and its start, its last between its stop and its release, the others between start and stop; egress brackets worker with a sample strictly inside, the verifier follows; the aggregate is the transcript's own and within the budget |
| Soundness.RoleBracketed | src/codex/live-linux-cgroup-cpu-evidence-v2.ts:1006-1066 | Read off the transcript alone: each role is bound, started, stopped and released once, in that order, with its first and last samples around its run |
| Soundness.FailureSound | src/codex/live-linux-cgroup-cpu-evidence-v2.ts:1425-1585 | Accepted failure evidence is of the expected run and observes one failure and admits or starts nothing after it; its aggregate is the transcript's own; in both contained outcomes every observed role is released, the controller stop is last, and a role executing at the failure implies FREEZE, KILL, REAP once each, successful, in order, after it |
| Soundness.AcceptedReliable | src/codex/live-linux-cgroup-cpu-evidence-v2.ts:1847-1865 | Either kind of accepted evidence is of the expected run and gives what a reader relies on |
| Soundness.AcceptedForRun | src/codex/live-linux-cgroup-cpu-evidence-v2.ts:698-735 | Accepted evidence carries exactly the expected binding; its identities are digests over that run, in role order, no two in one container or cgroup; every other digest in it is recomputed over what it seals |
| Soundness.AcceptedProofsTold | src/codex/live-linux-cgroup-cpu-evidence-v2.ts:939-1066 | The steps, samples and numbers of an accepted role proof are those of its role in the transcript |
| Soundness.AcceptedFailureTold | src/codex/live-linux-cgroup-cpu-evidence-v2.ts:1425-1845 | The numbers, statuses, code and outcome of accepted failure evidence are those its events tell |
| Soundness.LinkedIsOrdered | src/codex/live-linux-cgroup-cpu-evidence-v2.ts:1475-1531 | Each observed role ran in order as far as it came: nothing of it before it is bound or after its release, at most one start, a stop only after it, no release of what was started before its stop, and readings counted from 0 that never fall |
| Soundness.OwnerIsUnique | src/codex/live-linux-cgroup-cpu-evidence-v2.ts:1160-1173 | No position is shared between roles and none is orphaned |
| Soundness.PartitionLength | src/codex/live-linux-cgroup-cpu-evidence-v2.ts:1168-1173 | The length of an accepted success transcript from its three sample counts |
| Soundness.LinkedBracketing | src/codex/live-linux-cgroup-cpu-evidence-v2.ts:1174-1189 | The acceptor's test on timestamps means the same order of positions |
| Soundness.PartitionUsage | src/codex/live-linux-cgroup-cpu-evidence-v2.ts:1190-1194 | The sum of the stated deltas is the usage read off the transcript |
| Soundness.FailureUsage | src/codex/live-linux-cgroup-cpu-evidence-v2.ts:1688-1698 | The same for the observed roles of a failure |
| Acceptor.ParseEvents | src/codex/live-linux-cgroup-cpu-evidence-v2.ts:842-860 | The loop admits exactly the valid, contiguous transcripts with an advancing clock |
| Acceptor.FilterEvents | src/codex/live-linux-cgroup-cpu-evidence-v2.ts:1476-1508 | A filter by event type and role is the selection by kind |
| Acceptor.CheckSamples | src/codex/live-linux-cgroup-cpu-evidence-v2.ts:914-936 | The two neighbour loops decide order over all pairs of samples and of positions |
| Acceptor.CheckLinkedExactly | src/codex/live-linux-cgroup-cpu-evidence-v2.ts:1160-1173 | The set the loop builds decides whether the proofs name exactly the transcript |
| Acceptor.CheckNamesObserved | src/codex/live-linux-cgroup-cpu-evidence-v2.ts:1466-1474 | The map and loop decide whether every role event names an observed role by its binding |
| Evidence.SelectExact | src/codex/live-linux-cgroup-cpu-evidence-v2.ts:1434-1446 | A selection holds exactly the events of its kind |
| Selection.SelectIs | src/codex/live-linux-cgroup-cpu-evidence-v2.ts:1475-1508 | A list of positions that names exactly the events of a kind, in order, is its selection |
| ProducerMachine.ProducerSession.AppendEvent | src/codex/linux-cgroup-cpu-evidence-producer.ts:361-395 | State after one append equals the step `Append`: one event at the next position, or poison |
| ProducerMachine.ProducerSession.RecordRoleSample | src/codex/linux-cgroup-cpu-evidence-producer.ts:415-440 | State after one sample equals the step `RecordSample`, the sample limit included |
| ProducerMachine.ProducerSession.AggregateUsage | src/codex/linux-cgroup-cpu-evidence-producer.ts:397-407 | The loop over the registered roles gives the account of the step functions, or poisons on overflow |
| ProducerMachine.ProducerSession.BindRole | src/codex/linux-cgroup-cpu-evidence-producer.ts:442-538 | State and reply equal the step `BindRole`, whatever the port answers, with the rollback of a failed first sample |
| ProducerMachine.ProducerSession.MarkExecutionStarted | src/codex/linux-cgroup-cpu-evidence-producer.ts:540-570 | State and reply equal the step `StartRole` |
| ProducerMachine.ProducerSession.SampleRole | src/codex/linux-cgroup-cpu-evidence-producer.ts:572-604 | State and reply equal the step `SampleRole`, up to containment and its evidence; `Outcomes` says which answer leads where |
| ProducerMachine.ProducerSession.MarkExecutionStopped | src/codex/linux-cgroup-cpu-evidence-producer.ts:606-650 | State and reply equal the step `StopRole`: the stop is recorded before the last reading is judged, as `Outcomes.StopDoneExactly` says |
| ProducerMachine.ProducerSession.MarkRoleReleased | src/codex/linux-cgroup-cpu-evidence-producer.ts:652-674 | State and reply equal the step `ReleaseRole` |
| ProducerMachine.ProducerSession.RecordControllerFailure | src/codex/linux-cgroup-cpu-evidence-producer.ts:689-701 | State and reply equal the step `Report` |
| ProducerMachine.ProducerSession.Contain | src/codex/linux-cgroup-cpu-evidence-producer.ts:711-887 | State and reply equal the step `ContainFailure`: actions, settling, controller stop, evidence |
| ProducerMachine.ProducerSession.FinalizeObserved | src/codex/linux-cgroup-cpu-evidence-producer.ts:992-1057 | State and reply equal the step `Finalize` |
| ProducerMachine.ProducerSession.Finish | src/codex/linux-cgroup-cpu-evidence-producer.ts:1059-1087 | Sealing and submitting: terminal when accepted, poisoned when refused |
| Lifecycle.DedicatedLifecycle.Run | src/codex/live-linux-cgroup-cpu-dedicated-lifecycle.ts:587-691 | The run completes, with 27 stages, if and only if nothing went wrong outside it: the signal not seen fired, no operation thrown, no cleanup failed, no reading at fault; readings that rise on a rising clock, quiescent at the end, within the budget are never at fault, and a run without a fault has only such; a failed run is sticky if and only if a cleanup failed or a reading was at fault, budget aside, on the failure path; and without a failed cleanup its code is exactly that of the first trouble, or of the signal seen with it, or over budget when that was vague and a later reading passed the budget. Wherever the run fails: the stages are a prefix of the list and every operation they stand for has succeeded; a result that is completed or not sticky means all three roles are gone from Docker, every role that counts as started was stopped and released from its cgroup, and the controller is stopped; every role whose start succeeded was, if and only if no start was lost to the signal; a lost one was neither stopped nor released, and the run reports an abort; completed means nothing lost, the first 27 stages, a final sample of every role and none over the budget; over budget is never reported within it; there is no result exactly when a cleanup never settled |
| Lifecycle.DedicatedLifecycle.HandleFailure | src/codex/live-linux-cgroup-cpu-dedicated-lifecycle.ts:647-675 | The failure path cleans up every role whatever else fails, and changes only a vague code, only to over budget |
| Lifecycle.DedicatedLifecycle.CleanupRole | src/codex/live-linux-cgroup-cpu-dedicated-lifecycle.ts:516-574 | One role's cleanup leaves nothing of the role unless a failure was recorded |
| Lifecycle.DedicatedLifecycle.StopAndSample | src/codex/live-linux-cgroup-cpu-dedicated-lifecycle.ts:534-544 | The role is stopped unless a failure was recorded; its final sample is taken before the stop may be marked |
| Lifecycle.DedicatedLifecycle.RunIndependentCleanup | src/codex/live-linux-cgroup-cpu-dedicated-lifecycle.ts:460-514 | One raced cleanup: success has had its effect, a failure is recorded, and only an unsettled one leaves work running |
| Lifecycle.DedicatedLifecycle.StopTheController | src/codex/live-linux-cgroup-cpu-dedicated-lifecycle.ts:576-585 | Without a recorded failure the controller is really stopped |
| Lifecycle.DedicatedLifecycle.Mark | src/codex/live-linux-cgroup-cpu-dedicated-lifecycle.ts:290-299 | A stage whose operations have succeeded is added exactly in its place, and the last one never |
| Lifecycle.DedicatedLifecycle.SetupRole | src/codex/live-linux-cgroup-cpu-dedicated-lifecycle.ts:404-429 | A setup that returns has marked four stages in order and recorded the role's baseline |
| Lifecycle.DedicatedLifecycle.StartRoleHeld | src/codex/live-linux-cgroup-cpu-dedicated-lifecycle.ts:411-413 | A start that succeeds counts as started exactly when the signal has not fired at the look after it, and is lost otherwise; none is asked for once it has fired |
| Lifecycle.DedicatedLifecycle.TryStart | src/codex/live-linux-cgroup-cpu-dedicated-lifecycle.ts:411-413 | The three ends of a start: counted, lost with an abort thrown, or thrown without success |
| Lifecycle.CleanMeansNoneLost | src/codex/live-linux-cgroup-cpu-dedicated-lifecycle.ts:647-675 | Where everything counted was stopped and released, everything really started was exactly when no start was lost |
| Lifecycle.LostIsAbandoned | src/codex/live-linux-cgroup-cpu-dedicated-lifecycle.ts:521-529 | A lost start is neither stopped nor released from its cgroup; every start that succeeded is counted or lost |
| Lifecycle.LoseEgress | src/codex/live-linux-cgroup-cpu-dedicated-lifecycle.ts:404-414 | It happens: a system whose signal fires with egress's start gives a clean result with egress neither stopped nor released from its cgroup |
| Lifecycle.DedicatedLifecycle.SampleActiveRoles | src/codex/live-linux-cgroup-cpu-dedicated-lifecycle.ts:383-402 | A round that returns has added one sample of each active role, in order, and left the account within the budget; one that reports over budget is over it |
| Lifecycle.DedicatedLifecycle.ObserveUntilRoleExit | src/codex/live-linux-cgroup-cpu-dedicated-lifecycle.ts:431-458 | Polling that returns has seen the exit and added whole rounds of samples, at least one before and one after |
| Lifecycle.DedicatedLifecycle.RecordRoleSample | src/codex/live-linux-cgroup-cpu-dedicated-lifecycle.ts:327-381 | One reading is recorded as the ledger's function says |
| Lifecycle.DedicatedLifecycle.RecomputeCumulative | src/codex/live-linux-cgroup-cpu-dedicated-lifecycle.ts:314-325 | The loop over the roles gives the sum, or throws on overflow |
| Lifecycle.InOrderIsPrefix | src/codex/live-linux-cgroup-cpu-dedicated-lifecycle.ts:290-299 | Stages marked in place are a proper prefix of the 28 |
| Lifecycle.AllSampled | src/codex/live-linux-cgroup-cpu-dedicated-lifecycle.ts:537-549 | Whoever has marked all stages but the last has a final sample of every role |
| LifecycleLedger.RecordKeeps | src/codex/live-linux-cgroup-cpu-dedicated-lifecycle.ts:327-381 | Any reading, accepted or refused, keeps the ledger: clocks strictly increase, each sample's cumulative value is the sum over roles of the last recorded usage above its baseline, and it never falls |
| LifecycleLedger.RecordReports | src/codex/live-linux-cgroup-cpu-dedicated-lifecycle.ts:327-381 | What the caller sees is what the samples show: appended within the budget, appended over it, or not appended |
| LifecycleLedger.RecordExactly | src/codex/live-linux-cgroup-cpu-dedicated-lifecycle.ts:327-381 | Told on the samples alone: which readings are recorded, as what, and the exact fault each refused one is refused for |
| LifecycleLedger.GoodIsRecorded | src/codex/live-linux-cgroup-cpu-dedicated-lifecycle.ts:327-381 | Told on the readings alone: one is recorded without a word exactly when its clock advances, its counter does not fall, a final one is quiescent and the sum of all stays within the budget |
| LifecycleLedger.OverflowIsFinal | src/codex/live-linux-cgroup-cpu-dedicated-lifecycle.ts:314-325 | An overflowing sum is never recorded, and after one no reading ever is |
| LifecycleLedger.OverBudgetIsSuffix | src/codex/live-linux-cgroup-cpu-dedicated-lifecycle.ts:375-380 | Over-budget samples are a suffix, empty exactly when the final sum is within the budget |
| LifecycleLedger.BaselineKeeps | src/codex/live-linux-cgroup-cpu-dedicated-lifecycle.ts:404-429 | A new baseline changes no sum, past or present |
| DockerOwner.CloseMeansNothingLeft | src/codex/live-linux-docker-owned-container.ts:1200-1216 | After any interleaving, at the waits for the daemon, of creation, removals and the daemon, a close that would succeed means nothing exists and nothing is pending, if and only if of no name the removal that succeeded had begun before its create call, which then took effect (for a network: verifiably) |
| DockerOwner.CloseAfterCreation | src/codex/live-linux-docker-owned-container.ts:1200-1216 | That is so whenever no removal begins before the settlement of the creation, the wait that network removal makes for itself |
| DockerOwner.CloseIsSettled | src/codex/live-linux-docker-owned-container.ts:832-841 | And such a close comes after the creation has settled |
| DockerOwner.CloseIsFinal | src/codex/live-linux-docker-owned-container.ts:1200-1216 | After such a close nothing comes back, for every continuation by owner and daemon |
| DockerRuns.EarlyRemovalLeaks | src/codex/live-linux-docker-owned-container.ts:1045-1101 | Without the proviso it fails: a verifier removed before it is created outlives the close |
| DockerRuns.OverlappingRemovalLeaks | src/codex/live-linux-docker-owned-container.ts:1045-1101 | And when the removal only begins before: it has looked, the create call fails with a delayed effect, recovery lists nothing, the removal goes on and clears the unresolved flag, and the close succeeds with the container still to come |
| DockerOwner.PendingStaysUnresolved | src/codex/live-linux-docker-owned-container.ts:1098-1099 | While a create call may still take effect its creation stays unresolved, for every run, but for a container overtaken by a removal that began before the call |
| DockerOwner.EmptyListingResolvesNothing | src/codex/live-linux-docker-owned-container.ts:1060-1067 | An empty listing never clears an unresolved creation: the removal that got it, and the creation that recovers on it, end with the record as it was |
| DockerOwner.RemoveAccounts | src/codex/live-linux-docker-owned-container.ts:1045-1108 | A removal that began after the create call succeeds only with nothing left or to come, whatever happened at its waits; a failed one loses track of nothing |
| DockerRuns.ContainerRemoval | src/codex/live-linux-docker-owned-container.ts:1045-1101 | After any run, a container removal at whose waits the daemon answers well cleans up, removed, resolved and gone, if and only if the daemon holds what the record needs: the one object to find again, the recorded one, or none |
| DockerRuns.LeftContainerIsRemoved | src/codex/live-linux-docker-owned-container.ts:1058-1099 | What a failed creation left, unresolved, is found, verified, deleted and resolved by such a removal exactly when no removal had succeeded before |
| DockerRuns.NetworkRemoval | src/codex/live-linux-docker-owned-container.ts:415-465 | The same of both networks once the containers are gone and the creation has settled, made, left over or never created |
| DockerOwner.CreateAccounts | src/codex/live-linux-docker-owned-container.ts:705-796 | Wherever a creation goes on, made or failed, no object is left that the record does not account for; what is made is verified and not pending |
| DockerOwner.RecoverAccounts | src/codex/live-linux-docker-owned-container.ts:467-578 | Recovery accounts for whatever a failed create call left or may still produce, also when a removal runs beside it: after the failure a container is gone or its creation unresolved, unless a removal that began before the call has overtaken it |
| DockerRuns.RecoveryCleans | src/codex/live-linux-docker-owned-container.ts:467-578 | When a create call fails although it made the object, or the verification of what it made fails, and the daemon answers well from then on, recovery finds, verifies, deletes and misses it: the creation fails with nothing left and nothing unresolved |
| DockerRuns.HealthyCreation | src/codex/live-linux-docker-owned-container.ts:705-796 | With a daemon that answers well all five objects are made and verified, under whatever ids |
| DockerRuns.HealthyOwnerCloses | src/codex/live-linux-docker-owned-container.ts:1045-1216 | And then all are removed, the close succeeds, and nothing is left |
| DockerOwner.UndoingKeeps | src/codex/live-linux-docker-owned-container.ts:415-465 | The removal by which the creation undoes a network knows the object until it is gone |
| DockerOwner.WaitingIsNeverLate | src/codex/live-linux-docker-owned-container.ts:1130-1150 | While removals wait for the creation, none that began before a create call meets a name that is created |
| DockerOwner.RunKeeps | src/codex/live-linux-docker-owned-container.ts:684-1216 | Every owner reachable by any interleaving accounts for every name |
| DockerOwnerMachine.OwnedResource.CallReturns | src/codex/live-linux-docker-owned-container.ts:774-788 | The object after the create call has answered: on to the verification, or into recovery |
| DockerOwnerMachine.OwnedResource.CreatorResumes | src/codex/live-linux-docker-owned-container.ts:534-578 | The object after the creation goes on with a reply, through verification, recovery and the undoing |
| DockerOwnerMachine.OwnedResource.StartRemoval | src/codex/live-linux-docker-owned-container.ts:1045-1068 | The object after a removal is asked for: answered, joined, or begun on the record as it is |
| DockerOwnerMachine.OwnedResource.ResumeRemoval | src/codex/live-linux-docker-owned-container.ts:415-465 | The record after a removal goes on with a reply, for networks and containers; `DockerRuns.ContainerRemoval` and `DockerRuns.NetworkRemoval` say when it cleans up |
| DockerOwnerMachine.OwnedResource.RemovalResumes | src/codex/live-linux-docker-owned-container.ts:1063-1101 | The object after its removal goes on, on the record as it is by then |
| DockerOwnerMachine.PrivateDockerOwner.BeginCreation | src/codex/live-linux-docker-owned-container.ts:832-841 | The single creation run begins once |
| DockerOwnerMachine.PrivateDockerOwner.CreationResumes | src/codex/live-linux-docker-owned-container.ts:705-796 | All five names after the creation goes on: to the next name when one is made, to the end when one fails |
| DockerOwnerMachine.PrivateDockerOwner.RemoveNetworks | src/codex/live-linux-docker-owned-container.ts:1130-1158 | Networks begin to go, outbound first, once creation has settled and every container is gone |
| DockerOwnerMachine.PrivateDockerOwner.RemovalGoesOn | src/codex/live-linux-docker-owned-container.ts:1045-1158 | All five names after a removal goes on; the worker network follows the outbound one |
| DockerOwnerMachine.PrivateDockerOwner.Destroy | src/codex/live-linux-docker-owned-container.ts:1200-1216 | The close succeeds exactly when every resource is removed and resolved |
| HelperLockstep.Lockstep | src/codex/linux-cgroup-helper-client.ts:301-384 | In every open session of a serial caller: sequence numbers agree; the native role-state test passes every request but a bind, and a bind exactly when the client never bound the role before and no live role of its has the process; and the client trusts every reply that is no error but an unfrozen freeze and a zero identity |
| HelperLockstep.SessionInStep | src/codex/linux-cgroup-helper-client.ts:301-819 | Live client roles correspond one to one to used handles, with matching states and counters, in every session that is not poisoned |
| HelperLockstep.TableAgrees | native/policytwin-linux-cgroup-helper.c:816-914 | Apart from binds the native role-state test refuses nothing the client sends |
| HelperLockstep.RebindIsTheOneRefusal | native/policytwin-linux-cgroup-helper.c:642-659 | A bind the client sends fails the table exactly for a role it bound before or a process one of its live roles has, both of which its own records show |
| HelperLockstep.RebindIsReachable | native/policytwin-linux-cgroup-helper.c:659-659 | That refusal happens: bound, observed, released and bound again, and the session is closed |
| HelperLockstep.PidClashIsReachable | native/policytwin-linux-cgroup-helper.c:650-656 | So does the other: a second role bound with a live role's process is sent, refused, and closes the session |
| HelperLockstep.SessionKnows | native/policytwin-linux-cgroup-helper.c:734-734 | In every open session the roles the native side has seen are roles the client has bound |
| HelperLockstep.RepliesAreTrusted | src/codex/linux-cgroup-helper-client.ts:243-280 | The client's checks on handle, counter and clock never fire on a reply of the helper |
| HelperLockstep.BindKeeps | src/codex/linux-cgroup-helper-client.ts:560-633 | A bind keeps the correspondence or closes the session |
| HelperLockstep.OperateKeeps | src/codex/linux-cgroup-helper-client.ts:655-743 | So do sample, freeze, kill and the quiescent reading, whose exact end is `HelperOutcomes.OperationSucceeds` |
| HelperLockstep.ReleaseKeeps | src/codex/linux-cgroup-helper-client.ts:745-775 | So does a release |
| HelperOutcomes.SessionReady | src/codex/linux-cgroup-helper-client.ts:301-819 | Every open session with a sequence number left is in the state the following rows start from |
| HelperOutcomes.OperationSucceeds | src/codex/linux-cgroup-helper-client.ts:655-743 | A sample, freeze, kill or quiescent reading that is sent succeeds if and only if the reply arrives, the checks pass, the counter has not fallen, the clock has advanced and the operation has had its effect; both sides then know the very counter and clock that were read, and the new status |
| HelperOutcomes.BindSucceeds | src/codex/linux-cgroup-helper-client.ts:560-633 | A bind that is sent succeeds if and only if its role is new, its process no live role has, and the world allows it; both sides then know its first reading, under a handle of its own |
| HelperOutcomes.ReleaseSucceeds | src/codex/linux-cgroup-helper-client.ts:745-775 | A release that is sent succeeds exactly when the checks pass and the reply arrives; the role is then unbound and its handle free |
| HelperOutcomes.ActivationSucceeds | src/codex/linux-cgroup-helper-client.ts:635-653 | A bound role becomes active exactly when the same container is observed again |
| HelperOutcomes.StopSucceeds | src/codex/linux-cgroup-helper-client.ts:777-819 | A stop with no role bound ends both sides, and is known to have succeeded exactly when its reply arrives |
| HelperOutcomes.NativeServes | native/policytwin-linux-cgroup-helper.c:845-913 | Whatever any client asks of a handle, the native side answers with the counter and clock read if and only if the state allows it and the readings advance; states move in one order |
| HelperOutcomes.NativeBinds | native/policytwin-linux-cgroup-helper.c:635-745 | And any bind with the first reading, under a handle that was free, if and only if a handle is free, the role was never seen, no used handle has the role or the process, and the checks and the clock allow it |
| HelperOutcomes.NativeCounts | native/policytwin-linux-cgroup-helper.c:973-998 | A request out of sequence, or with the last number, ends the helper without a reply; any other is answered and counted |
| HelperOutcomes.TrustedNeverRegresses | src/codex/linux-cgroup-helper-client.ts:243-280 | Whatever a helper answers, no reply the client trusts takes its clock or a counter back, tells of another role, or claims a freeze or a quiescence it does not show |
| HelperOutcomes.HealthySession | src/codex/linux-cgroup-helper-client.ts:301-819 | A session in which nothing fails carries all five readings of a role, whatever they are, from bind to release, and stops |
| HelperMachines.NativeHelper.ServeRequest | native/policytwin-linux-cgroup-helper.c:973-998 | The native loop body, over its handle array, is the step of the model |
| HelperMachines.NativeHelper.BindHandle | native/policytwin-linux-cgroup-helper.c:635-745 | A bind fills the first free slot, or changes nothing but the clock |
| HelperMachines.NativeHelper.OperateHandle | native/policytwin-linux-cgroup-helper.c:845-913 | A handle operation as the step of the model; when it succeeds, and with what reading, is `HelperOutcomes.NativeServes` |
| HelperMachines.NativeHelper.FindFree | native/policytwin-linux-cgroup-helper.c:642-649 | The scan finds the first unused handle |
| HelperMachines.HelperClient.RequestFrame | src/codex/linux-cgroup-helper-client.ts:301-384 | Anything but an orderly reply in time poisons the session |
| HelperMachines.HelperClient.Bind | src/codex/linux-cgroup-helper-client.ts:560-633 | Both sides after a bind equal the lockstep step, up to what a closed client still remembers |
| HelperMachines.HelperClient.FreezeRole | src/codex/linux-cgroup-helper-client.ts:674-697 | Both sides after a freeze equal the lockstep step, up to what a closed client still remembers |
| HelperMachines.HelperClient.KillRole | src/codex/linux-cgroup-helper-client.ts:699-718 | Both sides after a kill equal the lockstep step, up to what a closed client still remembers |
| HelperMachines.HelperClient.ReadQuiescentRole | src/codex/linux-cgroup-helper-client.ts:720-743 | Both sides after a final reading equal the lockstep step, up to what a closed client still remembers |
| HelperMachines.HelperClient.ReleaseRole | src/codex/linux-cgroup-helper-client.ts:745-775 | Both sides after a release equal the lockstep step, up to what a closed client still remembers |
| HelperMachines.HelperClient.Stop | src/codex/linux-cgroup-helper-client.ts:777-819 | Both sides after a stop equal the lockstep step, up to what a closed client still remembers |
| HelperCodec.DecodeEncoded | src/codex/linux-cgroup-helper-protocol.ts:44-91 | Decoding an encoded frame returns it, and its header announces its length |
| HelperCodec.DecodedIsEncoding | src/codex/linux-cgroup-helper-protocol.ts:65-91 | Only the encoding of a valid frame decodes |
| HelperCodec.LengthExactly | src/codex/linux-cgroup-helper-protocol.ts:93-108 | A stream header announces a length exactly when it is the header of a frame, its opcode and sequence aside, and then that of the frame |
| HelperCodec.EncodeFrame | src/codex/linux-cgroup-helper-protocol.ts:44-63 | The encoder refuses exactly what is no valid request, and fills its buffer with the frame's bytes |
| HelperCodec.BindRoundTrip | src/codex/linux-cgroup-helper-protocol.ts:165-201 | The client reads exactly the identity the native side wrote, and refuses a zero in it |
| HelperCodec.SampleRoundTrip | src/codex/linux-cgroup-helper-protocol.ts:212-236 | The same for a sample |
| HelperCodec.ErrorRoundTrip | src/codex/linux-cgroup-helper-protocol.ts:258-268 | The same for an error |
| HelperCodec.DecodedBindIsWritten | src/codex/linux-cgroup-helper-protocol.ts:165-201 | Nothing but a bind response as the native side lays it out is read as an identity |
| HelperCodec.DecodedSampleIsWritten | src/codex/linux-cgroup-helper-protocol.ts:212-236 | Nothing but such a sample is read as one, flags and reserved bytes included |
| HelperCodec.DecodedErrorIsWritten | src/codex/linux-cgroup-helper-protocol.ts:258-268 | Nothing but such an error is read as one |
| BigEndian.ReadWrite | native/policytwin-linux-cgroup-helper.c:125-159 | Reading back a value written in n bytes returns it |
| BigEndian.WriteRead | native/policytwin-linux-cgroup-helper.c:125-159 | Writing back what was read returns the bytes |
| BigEndian.ReadU64 | native/policytwin-linux-cgroup-helper.c:134-140 | The shift loop reads the big-endian value without losing a bit |
| BigEndian.WriteU64 | native/policytwin-linux-cgroup-helper.c:154-159 | The loop writes the eight bytes and touches nothing else |
| HelperStream.ChunksDoNotMatter | src/codex/linux-cgroup-helper-client.ts:91-120 | Successive reads give the same frames for every cutting of the bytes that respects the buffer bound |
| HelperStream.SmallChunksPass | src/codex/linux-cgroup-helper-client.ts:91-120 | The bound is respected whenever each chunk leaves room for one incomplete frame |
| HelperStream.BoundExactly | src/codex/linux-cgroup-helper-client.ts:99-110 | The bound is hit exactly by a chunk that does not fit beside a buffer that is still too short, and the buffer never exceeds it |
| HelperStream.StreamRoundTrip | src/codex/linux-cgroup-helper-client.ts:91-120 | Frames written one after another are read back exactly, however cut |
| HelperStream.HelperFrameReader.Read | src/codex/linux-cgroup-helper-client.ts:112-119 | The reader object is the functional reader |
| NativeNumbers.ParseDecimalU64 | native/policytwin-linux-cgroup-helper.c:331-342 | Succeeds exactly on canonical decimals up to 2^64-1, with their value, and no step wraps |
| NativeNumbers.ParseNamedU64 | native/policytwin-linux-cgroup-helper.c:344-367 | Succeeds exactly when one and only one line gives the name a non-empty value and that value parses |
| NativeNumbers.CountDirectProcesses | native/policytwin-linux-cgroup-helper.c:395-416 | Counts the listing's lines, or fails exactly when one is no process id |
| NativeNumbers.CountsExactly | native/policytwin-linux-cgroup-helper.c:395-416 | A listing counts exactly when every line that is not empty is a process id, and counts those lines |
| NativeNumbers.RawClockNs | native/policytwin-linux-cgroup-helper.c:233-243 | The 64-bit count of seconds and nanoseconds, and exactly when it is refused |
| NativeNumbers.RawClockExact | native/policytwin-linux-cgroup-helper.c:240-241 | The count is exact if and only if it is not in the unrepresentable part of second 18446744073 |
| NativeNumbers.RawClockWraps | native/policytwin-linux-cgroup-helper.c:240-241 | There the addition wraps to zero, past the overflow guard |
| ReviewBridge.OneResult | src/codex/repair-verifier-review-bridge.ts:397-586 | After any calls, at most one final result per request |
| ReviewBridge.ResultIsFinal | src/codex/repair-verifier-review-bridge.ts:397-586 | A result ends its request: no later call issues anything for it |
| ReviewBridge.SecondAttemptHasCause | src/codex/repair-verifier-review-bridge.ts:512-545 | Attempt two descends from a retry, which descends from attempt one of the same request, both used up |
| ReviewBridge.RetryNeedsFailure | src/codex/repair-verifier-review-bridge.ts:486-508 | A retry is granted exactly for attempt one with an admitted FAIL receipt by a run not seen before |
| ReviewBridge.UsedOnce | src/codex/repair-verifier-review-bridge.ts:430-435 | A dead attempt, retry or review, a live retry whose authorization is spent, and a capability already taken or settled: naming them again changes nothing |
| ReviewBridge.UsedAtMostOnce | src/codex/repair-verifier-review-bridge.ts:397-586 | In any run no two tokens come from one parent: an attempt leads to at most one outcome, a retry to one attempt, a review to one result |
| ReviewBridge.UsedUpForever | src/codex/repair-verifier-review-bridge.ts:397-586 | Whatever calls follow, what is dead, settled or spent stays so and nothing ever comes of it |
| ReviewBridge.NeverRevived | src/codex/repair-verifier-review-bridge.ts:397-586 | Over any further calls a token keeps its request, parent, run identity and kind, and is never revived, undelivered, unsettled or authorized again |
| ReviewBridge.UseIsFinal | src/codex/repair-verifier-review-bridge.ts:430-553 | An admission and a review spend their token at once, and a retry as soon as its authorization is consumed, even when a later step throws |
| ReviewBridge.RunIdsDistinct | src/codex/repair-verifier-review-bridge.ts:438-441 | The run identities on which a request's attempts, verifier outcomes and review results were issued are pairwise distinct |
| ReviewBridgeOutcomes.GrantedExactly | src/codex/repair-verifier-review-bridge.ts:397-586 | After any run, a call hands out a token if and only if it may: a first attempt for a new request, an outcome for a delivered, unsettled attempt's own valid receipt, a second attempt and a result for an authorization not spent, each on a run identity no token of the request carries; which kind of token follows from the call alone |
| ReviewBridgeOutcomes.EffectsExactly | src/codex/repair-verifier-review-bridge.ts:397-586 | And every token there was is as it was, but for the liveness, delivery, settlement or authorization that the call uses of the one it names |
| ReviewBridgeOutcomes.TokenHasCause | src/codex/repair-verifier-review-bridge.ts:397-586 | Every token of a run was made by a call of the run that was granted it: a result says approved only where an approving review was bound, failed only where a second FAIL receipt was admitted |
| ReviewBridgeOutcomes.FirstPassEnds | src/codex/repair-verifier-review-bridge.ts:397-586 | After any run, a new request whose first attempt passes ends in four calls with the result the review gave |
| ReviewBridgeOutcomes.SecondAttemptEnds | src/codex/repair-verifier-review-bridge.ts:486-545 | One whose first attempt fails gets a second, which leads to a review or to the final failure |
| ReviewBridge.RunKeeps | src/codex/verifier-exchange-authority.ts:547-741 | Every reachable bridge has one live token per request and honest descent |
| ReviewBridge.CheckCorpus | src/codex/verifier-exchange-authority.ts:527-545 | The loop accepts exactly the accepted cases, in order and with their expectations |
| ReviewBridgeMachine.RepairVerifierReviewBridge.AdmitVerifierReceipt | src/codex/repair-verifier-review-bridge.ts:430-510 | The bridge after an admission |
| ReviewBridgeMachine.RepairVerifierReviewBridge.PrepareRetryAttempt | src/codex/repair-verifier-review-bridge.ts:512-545 | The bridge after a retry |
| ReviewBridgeMachine.RepairVerifierReviewBridge.BindVerifierReview | src/codex/repair-verifier-review-bridge.ts:547-586 | The bridge after a review |
| Orchestration.PassIsProven | src/codex/orchestrate.ts:117-321 | For one or two attempts and all port answers the trailing failure is never reached, and PASS means: run identities distinct, last typecheck and test succeeded on one unbroken tree, the last receipt bound to that attempt, run and tree and covering the accepted cases, no HIGH or CRITICAL finding |
| Orchestration.PassCoversExactly | src/codex/orchestrate.ts:57-76 | With unique accepted ids the receipt of a PASS has exactly the accepted cases, each passed with its accepted decision |
| Orchestration.GuardedPassVerifiedEveryAttempt | src/codex/unsigned-worker-execution-core.ts:199-223 | Under the call-counting guards a PASS has as many receipts as attempts |
| Orchestration.UnguardedSkipsVerification | src/codex/unsigned-worker-execution-core.ts:211-218 | A run of each: unguarded, a first attempt that failed its commands is followed by PASS; under the guards the same answers fail |
| Orchestration.PassVerifiedEveryAttempt | src/codex/orchestrate.ts:158-254 | For every PASS, guarded or not, there are as many receipts as attempts if and only if every command of the run succeeded |
| Orchestration.GuardedPassesExactly | src/codex/unsigned-worker-execution-core.ts:184-225 | A guarded run passes if and only if the same answers pass unguarded with a receipt for every attempt, and then the reports are the same |
| Orchestration.AttemptKeeps | src/codex/orchestrate.ts:117-313 | One attempt keeps distinct identities and two commands per attempt |
| OrchestrationOutcomes.ReportExactly | src/codex/orchestrate.ts:78-321 | For one or two attempts, guarded or not, and all answers, the report is what the answers make it: how many attempts are made, PASS if and only if the last is approved and the guards let it verify, with exactly the repairs, commands, receipts and review that were answered, and else the reason of the first thing that failed |
| OrchestrationOutcomes.AttemptAnswersExactly | src/codex/orchestrate.ts:117-313 | One attempt from any progress: exactly when it retries, passes or fails, for what reason, and what of the answers it takes |
| OrchestrationMachine.OrchestrateRepair | src/codex/orchestrate.ts:78-321 | The loop over growing state returns the functional orchestrator's report |
| OrchestrationMachine.OrchestrationState.VerifyCorpus | src/codex/unsigned-worker-execution-core.ts:211-223 | The guarded corpus port accepts exactly a valid, covering, bound receipt |
| OrchestrationMachine.OrchestrationState.RunCommand | src/codex/unsigned-worker-execution-core.ts:199-209 | The guarded command port counts its calls and insists on the pair's order |
| CpuLedger.LedgerRefinesParser | src/codex/cpu-budget-contract.ts:338-496 | After any run that is neither poisoned nor finalized: the account is within the budget; finalization succeeds exactly when three roles are sealed, its proof is one the parser admits, and worker was sealed before egress and egress before the verifier began |
| CpuLedger.FinalizeParses | src/codex/cpu-budget-contract.ts:457-495 | Finalization of a kept ledger never meets a refusal of its own parser |
| CpuLedgerOutcomes.RunTold | src/codex/cpu-budget-contract.ts:338-455 | In any run that is not poisoned the ledger holds for every role what the calls said: identity, first and last reading, how many, and whether it was sealed |
| CpuLedgerOutcomes.PoisonsExactly | src/codex/cpu-budget-contract.ts:385-495 | A call poisons if and only if the calls before it do not allow it: out of turn, an identity used before, a reading of another identity, falling, one too many or past the budget, a finalization before three seals |
| CpuLedgerOutcomes.ProofTells | src/codex/cpu-budget-contract.ts:457-495 | A proof is given exactly when three roles were sealed, and reports their first and last readings, their numbers and the sum |
| CpuLedgerOutcomes.HealthyRunProves | src/codex/cpu-budget-contract.ts:338-495 | Whatever three distinct identities and six rising readings within the budget, the run ends with the proof of them |
| CpuLedger.DeadEndIsDead | src/codex/cpu-budget-contract.ts:391-393 | Once egress is sealed before the worker began, whatever begins next, or a finalization, poisons the ledger |
| CpuLedger.DeadEndIsReachable | src/codex/cpu-budget-contract.ts:385-455 | It is reached without a throw, by beginning and sealing egress; beginning the worker then poisons |
| CpuLedger.PoisonIsPermanent | src/codex/cpu-budget-contract.ts:361-364 | A poisoned or finalized ledger never changes again |
| CpuLedger.BeginKeeps | src/codex/cpu-budget-contract.ts:385-427 | Beginning a role keeps identities apart and the log on its one way |
| CpuLedger.SampleKeeps | src/codex/cpu-budget-contract.ts:429-445 | A sample keeps the ledger, or poisons it |
| CpuLedger.FinishKeeps | src/codex/cpu-budget-contract.ts:447-455 | Sealing a role keeps the ledger, or poisons it |
| CpuLedgerMachine.StaticSupervisorCpuBudgetLedger.BeginRole | src/codex/cpu-budget-contract.ts:385-427 | The ledger object after beginning a role |
| CpuLedgerMachine.StaticSupervisorCpuBudgetLedger.SampleRole | src/codex/cpu-budget-contract.ts:429-445 | The ledger object after a sample |
| CpuLedgerMachine.StaticSupervisorCpuBudgetLedger.FinishRole | src/codex/cpu-budget-contract.ts:447-455 | The ledger object after sealing a role |
| CpuLedgerMachine.StaticSupervisorCpuBudgetLedger.Finalize | src/codex/cpu-budget-contract.ts:457-495 | The ledger object and its proof after finalization |
| CanonicalDiff.ParsePrinted | src/codex/diff.ts:63-75 | A strict parser of the printed format, which insists on the paths of the header and on ranges that count the lines of both sides, returns exactly the printed changes, for all texts, empty ones and missing final newlines included |
| CanonicalDiff.DiffDeterminesChanges | src/codex/diff.ts:41-80 | The diff determines both sides of every change, sorted by path |
| CanonicalDiff.DiffIsInjective | src/codex/diff.ts:41-80 | Equal diffs come from the same changes |
| CanonicalDiff.DiffIsCanonical | src/codex/diff.ts:58-61 | The same changes in any order give the same diff |
| CanonicalDiffOutcomes.CreatedExactly | src/codex/diff.ts:41-80 | A diff is created if and only if there is a change, every change differs and has a path that stays inside (no empty, dot or climbing part, no colon or control character), the normalized paths differ and the text is within the limit |
| CanonicalDiff.SortSorts | src/codex/diff.ts:11-13 | The sort orders by path |
| CanonicalDiff.BuildSide | src/codex/diff.ts:25-35 | The pushing loop prints one side, with the marker exactly after a last line without newline |
| CanonicalDiff.LinesAssemble | src/codex/diff.ts:15-23 | A text's lines and its final-newline flag give the text back |

## Left out

- `src/codex/live-linux-docker-cgroup-system-adapter.ts`: its per-role flags only order calls to the owner, the barrier and the helper, which are modelled with arbitrary callers.
- The `PRE_EXECUTION_REJECTED` evidence, literal constant fields, exact JSON key sets and the byte limit on canonical strings: equality and pattern checks without state; every string the producer emits is far below the limit.
- Acceptor.Accepts: takes all nine expected binding fields, as the producer passes them; leaving some out is not modelled.
- Records behind references: the producer's role records, the client's bound roles and the bridge's metadata are values in a map or sequence, so aliasing between two references to one record is not captured. The Docker resources and the handle table are objects and an array.
- SHA-256, HMAC, randomness and durable replay storage: an uninterpreted function in the evidence part, one verdict per check in the bridge.
- Runs.EvidenceAccepted: says nothing when the session could not be created, beyond its being poisoned; the snapshot and validation of the binding at creation are the predicate `ValidConfig`.
- Lifecycle.DedicatedLifecycle.ObserveUntilRoleExit: polls an arbitrary finite number of times; that a role ever exits is not claimed, and the wait itself is one answer of the system.
- Lifecycle.DedicatedLifecycle.RunIndependentCleanup: failures are counted, not described; the containment reason handed to the port and the text of each failure are not modelled.
- Lifecycle.DedicatedLifecycle.StartRoleHeld: a start that throws although it took effect is a start that threw; only starts that succeed are called really started.
- Docker start, reobservation, role issuing, network connection, stop and the cleanup receipt: they neither create nor remove an owned object. Every other wait of the owner for the daemon is a step of its own, and anything may happen between two steps. The several queries of one look for absence are one observation, the last; a removal that waits for a start or an issue begins when it looks at the record.
- DockerOwner.CloseMeansNothingLeft: objects of other owners under the same names are not modelled; the source refuses names that exist before it creates any. After a close the source's calls throw; the model lets them go on, and DockerOwner.CloseIsFinal covers them.
- Signals of the Docker owner: an aborted call is a failing call.
- HelperLockstep.Lockstep: states the serial caller's case; a reply is taken to carry the sequence and opcode of its request, as the native side copies them, and the HELLO exchange, capability bits and capacity of pipes are left out. The helper's exit after a failed write is the same to the client as no reply.
- NativeNumbers.ParseNamedU64: the text is the part before the terminating NUL; reading the file is left out.
- Reading `/proc`, cgroup files, pidfds and mount identities, and the helper's waits: one verdict per request, with the readings as further inputs.
- HelperFrameReader: chunks that are not buffers and the decoder's checks on JavaScript types are left out.
- ReviewBridge.RunKeeps: request activity windows, clocks, snapshot trees and receipt windows are verdicts of a call; the contents of the result record are not modelled.
- Orchestration.PassIsProven: the redaction, the execution-mode field and the text of a report are not modelled; identities, trees, receipts, reviews and counts are.
- `src/codex/validate.ts`: of its parsers only the receipt's and the review's rules are modelled, as predicates, and of the repair parser only what the loop checks.
- CpuLedger.LedgerRefinesParser: `createStaticSupervisorCpuBudgetController` is left out; it drives the ledger with samples from a port.
- CanonicalDiff.DiffIsCanonical: text is a sequence of Unicode scalars, so paths are ordered by scalar and not by UTF-16 unit, and unpaired surrogates do not occur.
- User interface, HTTP, process spawning, TLS, the egress proxy, the start barrier's file checks, the policy evaluator and the model adapter: outside the machines above.
