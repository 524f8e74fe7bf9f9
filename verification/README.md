# Approval-gated patching: a verified model

The system patches fleets of Linux hosts. Plans are drafted from evidence, approved by operators, carried
out by workers that hold leases on durable jobs, and rolled out in campaigns batch by batch. This project
models the machinery that decides when a plan may touch a host and how often, and proves what it keeps.

## The files

| file | subject |
|---|---|
| Common, Plans, Snapshots | shared vocabulary; plans and the part of them their hash covers; what a scan collects |
| Jobs, SqlJobs | the durable-job store as a dictionary and as table rows, and their agreement |
| LeaseProtocol, ServiceSweep, SweepStops | workers, leases, heartbeats, stale whole-record saves, the sweeps, the sweep with campaign stops inside its loop |
| RemediationWorker, MutationOnce, MutationRepeated | the phase markers of a worker and why a host is not changed twice |
| Gate, ApprovalRuns, StalePlans, Drift | approval decisions, reconciliation, whole approval histories with the workers' old copies of the plan, the drift check |
| Executor | one executor run over an oracle of playbook outcomes |
| Campaign, Rollout, Cancellation, StopOnFailure | projection, batches, cancellation, stop on failure |
| WaitingJobs | when the gate may still let a waiting job through |
| RolloutRuns, OverlookedHosts, RolloutLimits | whole rollouts: the bound on who is in flight, why its condition is exact, the canary count |
| Samples | concrete plans and hosts for the lemmas that show a property failing |
| Evidence, Orchestrator | peer review, verifier, answer validation, plan construction |
| LoginLimiter | the fixed-window login limiter |

Code that changes state is a class or a method with loops, proved equal to a specification function of the
old state; what the code promises is then proved about those functions and about whole runs of them.

## How the source is read

- A plan hash is injective: the hash of a payload is the payload. Instants are integers.
- Each repository operation and each transaction block is one step. The service sweep is one step.
- Where an executor run lies between the read of a plan and its save, the two are separate steps: in the
  approval histories every worker holds its own copy of the plan and writes it back whole, however old it is.
- A claim draws an owner id that was never used before.
- A worker's write of its job and the matching write of the plan are one step in the rollout runs. There a
  scheduled job is released only if the gate lets it through at that moment, and a claim needs an attempt.
- Playbooks, snapshot providers, the collector, AI providers and caches are arbitrary values handed in. They
  return or the worker dies; they do not raise.
- The maintenance window and the classification of failure texts are arbitrary predicates.
- A refused batch start or cancellation leaves no trace, as in a transaction that is rolled back.
- Batch arithmetic is exact integer arithmetic; the source rounds up a floating-point quotient, which
  agrees for any number of hosts that fits in memory.

## Where the code does less than one would expect

Each of these has a lemma with the exact condition, a lemma with a concrete case, or both.

- The recovered phase written by a sweep is never cleared and is preferred to the current phase. A job that
  crashed harmlessly, was swept, and crashed again in the middle of a change can be re-claimed directly and
  changed a second time.
- A worker writes the plan it read before its executor run back whole. If a reconciliation has changed the plan
  in between, the version goes down again, the worker's old job is let through again, and a plan whose approval
  was invalidated is executed a second time.
- A plan that expects no reboot is rebooted without any reboot approval, and against a host policy that
  forbids reboots, if the playbooks report that one is required.
- A reboot that succeeded before a failed validation is reported as not performed, and change events of the
  validation do not prevent a retry.
- A batch start looks at the hosts' states, not at their jobs: a plan that a gate blocks while its job is
  queued leaves the batch's view, the next batch starts, and the old job can still be claimed. A scheduled job
  comes back in this way after a refused reboot approval, but not after an edit: the scheduler asks the gate, and
  the gate refuses it for good unless a worker writes back a copy of the plan that a reconciliation has overtaken.
- Stop on failure passes over a host whose entry still shows it running although its job has just been put
  back into the queue for a retry; the next synchronization shows it queued. It also passes over a host whose
  entry names a job that runs but is no remediation job.
- A sweep that finds a job without attempts left fails or blocks its plan and stops no campaign.
- A sweep hands out jobs that it has itself canceled: a stop in one turn of its loop reaches the waiting job of
  another host, before or after that job's own turn. If no stop follows that turn, the plan stays queued over
  the canceled job.
- The canary count stops binding once any host has completed, even one that needed no action.
- A cached peer review is not validated when it is used. An entry written for these claims keeps its
  objections; one written for other claims could drop the objection to a claim without evidence.
- The SQL store refuses a second job with the same idempotency key; the dictionary store keeps both.
- A claim can close an exhausted job on its own; nothing here says that every failed job has an alert.

## Model

| member | source | states |
|---|---|---|
| Jobs.InMemoryRepository.SaveJob | apps/api/sysadmin_api/repository.py:386-411 | A save under an owner is accepted exactly while that owner holds an unexpired lease at the record's own time; a running record then takes over the later heartbeat and expiry of the store; a save without an owner replaces the record. The whole next store is given |
| Jobs.InMemoryRepository.ClaimJob | apps/api/sysadmin_api/repository.py:413-447 | A queued job, or a running one whose lease has run out, goes to the claimer with one more attempt; if no attempt is left it is failed instead and nothing is handed out; every other job is left alone |
| Jobs.InMemoryRepository.HeartbeatJob | apps/api/sysadmin_api/repository.py:449-470 | A heartbeat moves heartbeat, expiry and update time, and only for the owner of an unexpired lease |
| Jobs.InMemoryRepository.RecoverExpiredJobs | apps/api/sysadmin_api/repository.py:472-502 | The loop over the dictionary leaves exactly the swept store and returns exactly the expired jobs, each once, split by whether attempts are left |
| Jobs.InMemoryRepository.CancelJob | apps/api/sysadmin_api/repository.py:504-524 | A job in an allowed status is canceled and loses its lease; in any other status it is returned unchanged |
| Jobs.TerminalizeExhaustedJob | apps/api/sysadmin_api/repository.py:102-116 | Closing an exhausted job: status, message of the last failure or the standard one cut at 2000 characters, no lease, last failure no longer retryable |
| Jobs.RecoverStaleJob | apps/api/sysadmin_api/repository.py:472-502 | One expired record: failure noted, lease dropped, phase remembered as the recovered phase, then queued again or closed |
| Jobs.StartAttempt | apps/api/sysadmin_api/repository.py:437-446 | One claimed record: an expired lease is noted as the last failure, the attempt counted, the lease taken |
| Jobs.SweepPartition | apps/api/sysadmin_api/repository.py:472-502 | The sweep splits exactly the expired jobs into requeued and failed ones; no job is in both lists and none is lost; all others stay as they were |
| SqlJobs.WriteRow | apps/api/sysadmin_api/repository.py:676-694 | Writing a job as row columns and payload and reading it back gives that job and touches no other |
| SqlJobs.SqlRepository.SaveJob | apps/api/sysadmin_api/repository.py:1160-1194 | On rows whose payload may disagree with the columns: same reply and same next jobs as the dictionary save, except that an idempotency key another row owns makes the save fail and change nothing |
| SqlJobs.SqlRepository.ClaimJob | apps/api/sysadmin_api/repository.py:1196-1236 | The row claim agrees with the dictionary claim |
| SqlJobs.SqlRepository.HeartbeatJob | apps/api/sysadmin_api/repository.py:1238-1264 | The row heartbeat agrees with the dictionary heartbeat |
| SqlJobs.SqlRepository.RecoverExpiredJobs | apps/api/sysadmin_api/repository.py:1266-1303 | The row sweep agrees with the dictionary sweep |
| SqlJobs.SqlRepository.CancelJob | apps/api/sysadmin_api/repository.py:1305-1330 | The row cancel agrees with the dictionary cancel |
| SqlJobs.RunBoth | apps/api/sysadmin_api/repository.py:1140-1330 | Whole runs of operations on both stores give equal replies and equal jobs until a save first meets an idempotency key another row owns, and that is the only way they part |
| LeaseProtocol.RunKeepsInv | apps/api/sysadmin_api/repository.py:386-524 | Every interleaving of claims, heartbeats, edits of local copies, guarded saves, sweeps, cancels and unguarded changes keeps the relation between the store and the workers' copies |
| LeaseProtocol.FencedSave | apps/api/sysadmin_api/repository.py:386-411 | An accepted guarded save comes from the most recent claimer, keeps identity and attempts as stored, and while the job runs on leaves the stored heartbeat and expiry as they are; everybody else's save changes nothing |
| LeaseProtocol.SupersededForever | apps/api/sysadmin_api/repository.py:386-447 | Once another claim has succeeded, no later save of the earlier claimer is ever accepted, whatever happens in between |
| LeaseProtocol.ExpiryNeverDecreases | apps/api/sysadmin_api/repository.py:401-409 | While the same worker holds a job no step moves its expiry back |
| LeaseProtocol.PunctualWorkerKeepsJob | apps/api/sysadmin_api/repository.py:413-502 | From the moment its claim is granted, a worker whose own heartbeats are less than a lease apart, and that only marks phases, holds the job throughout the run, whoever else claims, sweeps, saves or cancels. The condition speaks of the list of steps alone |
| LeaseProtocol.ServiceHeartbeatKeepsJob | apps/api/sysadmin_api/service.py:96-99 | The heartbeat interval the service computes meets that condition for every lease of two seconds or more and every configured interval of at least one second |
| LeaseProtocol.BeatExtends | apps/api/sysadmin_api/service.py:1885-1894 | A heartbeat of the holder gives it a whole lease from now |
| LeaseProtocol.HeartbeatFitsLease | apps/api/sysadmin_api/service.py:96-99 | The heartbeat interval is at most half a lease for every lease of two seconds or more, and shorter than the lease exactly then |
| LeaseProtocol.SweepTakesExactlyTheExpired | apps/api/sysadmin_api/repository.py:472-502 | The sweep takes a running job out of running exactly when a whole lease has passed since its last heartbeat |
| LeaseProtocol.ReachableJobs | apps/api/sysadmin_api/repository.py:413-524 | In every reachable world logged claims = attempts <= maximum, waiting jobs have attempts left, running jobs have expiry = heartbeat + lease, other jobs hold no lease |
| LeaseProtocol.QueuedClaimSucceeds | apps/api/sysadmin_api/repository.py:413-447 | Claiming a queued job with a fresh owner always succeeds and counts one attempt |
| LeaseProtocol.ExhaustedClaimCloses | apps/api/sysadmin_api/repository.py:431-434 | A direct claim of an expired job without attempts left fails it and is not counted as a claim; with attempts left it succeeds |
| LeaseProtocol.EndedForever | apps/api/sysadmin_api/repository.py:413-524 | Completed, failed and canceled records are never changed again by any run |
| ServiceSweep.RecoverExpiredJobs | apps/api/sysadmin_api/service.py:1090-1172 | The service sweep over the job store and the plans: the repository sweep, then every recovered remediation job whose recovered phase is uncertain is failed and the other recovered jobs are handed out; every plan gets the state that follows from one of its expired jobs, an exhausted one if there is any, and no other plan changes; the plans whose campaigns are to be stopped are exactly those of the recovered jobs failed at once |
| ServiceSweep.SweptPlanExactly | apps/api/sysadmin_api/trusted_change.py:889-921 | A plan with one expired job is blocked exactly if the job died in an uncertain phase, otherwise failed if no attempts are left and queued if some are; its campaigns are stopped exactly if the phase was uncertain and attempts were left |
| SweepStops.RecoverJobs | apps/api/sysadmin_api/service.py:1097-1144 | The loop over the recovered jobs with the stop and synchronization of a campaign inside it |
| SweepStops.HandedOutJobCanceledExactly | apps/api/sysadmin_api/service.py:1108-1144 | The job of a host shown running is handed out, and at the end of the sweep it is canceled, its plan with it, if and only if, after its own turn, one turn fails and synchronizes the campaign and a later one fails and stops it; otherwise job and plan are queued |
| SweepStops.WaitingHostLosesItsJob | apps/api/sysadmin_api/service.py:1108-1144 | The recovered job of a host still shown waiting is canceled by the first stop of the sweep, before or after its own turn, and handed out all the same |
| SweepStops.WaitingHostsPlanExactly | apps/api/sysadmin_api/service.py:1108-1144 | Its plan, if current, ends queued over the canceled job if and only if no stop comes after the job's own turn, and canceled otherwise |
| ServiceSweep.BlockedAsAssumed | apps/api/sysadmin_api/service.py:1108-1129 | For stores of remediation jobs with known plans, the jobs failed by the sweep are those the worker system assumes |
| RemediationWorker.ReclaimStopsExactlyWhenUnmasked | apps/api/sysadmin_api/service.py:585-609 | A worker that re-claims a job left in an uncertain phase stops if and only if the record does not carry a harmless recovered phase of an earlier sweep |
| MutationOnce.PlaySound | apps/api/sysadmin_api/service.py:671-809 | The write-ahead phase markers keep the worker invariant in every run without a masked re-claim |
| MutationOnce.ExecutorNotRepeated | apps/api/sysadmin_api/service.py:575-627 | In every such run, two executor starts for one job come from two workers, and the earlier one reported no change and no snapshot and was put back into the queue under its own lease |
| MutationOnce.NoLaterExecution | apps/api/sysadmin_api/service.py:729-763 | After a worker loses its lease with the stored phase in snapshot creation, execution or health check, no worker that claims the job later reaches the executor |
| MutationRepeated.ReclaimReachesExecutorExactlyWhenMasked | apps/api/sysadmin_api/trusted_change.py:889-921 | For a job left in an uncertain phase, a direct re-claim can reach the executor if and only if the record masks that phase |
| MutationRepeated.ExecutorCanRepeat | apps/api/sysadmin_api/trusted_change.py:890-892 | Without the condition: a concrete run in which two workers start the executor for one job and nothing was retried |
| Gate.EligibilityExactly | apps/api/sysadmin_api/trusted_change.py:594-648 | What eligibility for a job means: no open rollback failure, the approval and snapshot decisions, and the job's bindings to plan, host, scan, scope, version and content hash; the last two binding tests are redundant |
| Gate.ApprovalExactly | apps/api/sysadmin_api/trusted_change.py:296-356 | What the approval decision lets through, as one if-and-only-if over binding, catalog, evidence, hash, approval and reboot approval |
| Gate.SnapshotExactly | apps/api/sysadmin_api/trusted_change.py:724-746 | A snapshot is required and possible exactly for a plan with reboot risk on a host fully configured for snapshots; an incomplete configuration is refused, not skipped |
| Gate.OutcomeExactly | apps/api/sysadmin_api/trusted_change.py:788-847 | An outcome completes, requeues or fails the job, exactly one of them; it stops the others exactly if it fails, blocks the plan exactly under a standing or used snapshot, and never requeues after a change |
| Gate.ReconcilePlan | apps/api/sysadmin_api/trusted_change.py:396-459 | The step-by-step reconciliation yields the reconciled plan and reports exactly what changed |
| Gate.ReconcileSettles | apps/api/sysadmin_api/trusted_change.py:396-459 | Reconciling leaves the stored hash equal to the hash of the content, is idempotent, bumps the version exactly when content changed, and leaves no approval after a change |
| Gate.ApprovePlan | apps/api/sysadmin_api/trusted_change.py:462-505 | The plan approval transition and every refusal of it |
| Gate.ApproveReboot | apps/api/sysadmin_api/trusted_change.py:508-555 | The reboot approval transition, its refusals, and the blocking of the plan when the host forbids reboots |
| Gate.ApprovalsOpenTheGate | apps/api/sysadmin_api/trusted_change.py:296-356 | A granted plan approval opens the gate exactly when there is no reboot risk; a granted reboot approval opens it for the others |
| ApprovalRuns.EveryExecutionWasApproved | apps/api/sysadmin_api/service.py:742-783 | Over all runs, with arbitrary edits and with workers writing old copies back: every plan handed to the executor is, content and version, one that an actor approved with the right hostname and that the gate let this worker through with, and if it carries reboot risk a reboot approval of the same plan followed |
| ApprovalRuns.RebootApprovalMeansRisk | apps/api/sysadmin_api/trusted_change.py:508-555 | No plan the gate lets through in any run carries a reboot approval without reboot risk |
| StalePlans.VersionsGrowExactly | apps/api/sysadmin_api/repository.py:1570-1580 | Plan versions never go down in a run if and only if no worker in it writes back a copy that a reconciliation has overtaken |
| StalePlans.StaleWriteUndoes | apps/api/sysadmin_api/service.py:742-783 | Every such write-back takes the version down to one a reconciliation had left behind and makes the writer's own job eligible again |
| StalePlans.OldJobsStayDeadExactly | apps/api/sysadmin_api/trusted_change.py:626-647 | Jobs bound to a version that a reconciliation has left behind stay refused throughout a run, even if the approved text comes back, if and only if no worker in it writes back an overtaken copy |
| StalePlans.AdmissionsRestOnStandingApprovals | apps/api/sysadmin_api/service.py:742-763 | In a run without such write-backs every admission to the executor rests on a plan approval that nothing has invalidated or replaced, followed by the reboot approval if one is due |
| StalePlans.FreshPlansExactly | apps/api/sysadmin_api/service.py:742-783 | From a plan nobody has approved: versions grow and old jobs stay refused exactly in the runs without such write-backs, and there every admission rests on a standing approval |
| StalePlans.StepGoesForwardExactly | apps/api/sysadmin_api/repository.py:1570-1580 | A step raises the plan's version, or keeps version, hash and a closed approval, if and only if it is no such write-back |
| StalePlans.NoStepFallsBehindTheJob | apps/api/sysadmin_api/service.py:742-783 | No step, such a write-back included, takes the plan behind the version of the job its workers were let through with |
| StalePlans.StaleWriteRevives | apps/api/sysadmin_api/service.py:742-809 | Every plan a worker is let through with can go wrong this way: edit and reconciliation raise the version and the job is refused, the write-back lowers it and the job passes the gate again on an invalidated approval |
| StalePlans.InvalidatedPlanRunsTwice | apps/api/sysadmin_api/service.py:742-809 | A concrete history from a plan nobody had approved: approved once, executed, invalidated, executed again |
| Drift.SortedCanonical | apps/api/sysadmin_api/trusted_change.py:700-707 | Two lists sort to the same list exactly if they hold the same keys equally often |
| Drift.DriftExactly | apps/api/sysadmin_api/trusted_change.py:690-721 | The drift check allows execution if and only if both snapshots exist and agree on the multisets of package versions and failed units and on the reboot flag |
| Drift.DriftIsEquivalence | apps/api/sysadmin_api/trusted_change.py:690-721 | On snapshots the check is reflexive, symmetric, transitive and blind to order |
| Executor.RunOpening | apps/api/sysadmin_api/executor.py:163-221 | The opening loop runs the first three playbooks up to the first failure; the guard inside it never fires |
| Executor.Execute | apps/api/sysadmin_api/executor.py:143-322 | A run that is not admitted starts nothing; an admitted run starts exactly the workflow up to its first failure, then the diagnostics, and reports phases, events, change and reboot accordingly |
| Executor.RebootGuardPasses | apps/api/sysadmin_api/executor.py:230-238 | The guard before the reboot cannot refuse what the entry guard admitted |
| Executor.SuccessIsTheWholeWorkflow | apps/api/sysadmin_api/executor.py:279-322 | A run succeeds exactly if every phase of preflight, upgrade, reboot check, reboot if needed, and validation was run and succeeded |
| Executor.RetryExactly | apps/api/sysadmin_api/trusted_change.py:788-847 | The run is tried again exactly if it failed, no started opening playbook reported a change, no reboot was started, no snapshot stands or was used, and the summary is retryable |
| Executor.RebootStartsExactly | apps/api/sysadmin_api/executor.py:223-254 | A reboot starts exactly if the opening succeeded and a reboot is needed by the plan or reported by a playbook |
| Executor.RebootWithoutApprovalExactly | apps/api/sysadmin_api/trusted_change.py:651-658 | Without an approval of its reboot on a host that permits it, an admitted plan is rebooted exactly if it expected no reboot and the playbooks report that one is required |
| Executor.ForbiddenRebootStarts | apps/api/sysadmin_api/trusted_change.py:651-658 | A concrete admitted run that reboots a host whose policy forbids reboots, under a plan that expects none and has no reboot approval |
| Executor.RebootUnderreportedExactly | apps/api/sysadmin_api/executor.py:346-366 | A successful reboot is reported as not performed exactly if the validation after it failed |
| Executor.RebootDenied | apps/api/sysadmin_api/executor.py:346-366 | A concrete outcome of the playbooks with which every plan is rebooted and reported as not rebooted |
| Executor.ValidationChangesAreNotCounted | apps/api/sysadmin_api/executor.py:279-310 | A concrete run whose validation changed the host and failed is classified as retryable |
| Campaign.ProjectCampaign | apps/api/sysadmin_api/trusted_change.py:1048-1118 | The projection loop over the hosts computes the projected campaign |
| Campaign.ProjectCampaignStatus | apps/api/sysadmin_api/trusted_change.py:1166-1203 | The set-based status computation agrees with the status function, canceled campaigns included |
| Campaign.ProjectTerminalCampaignStatus | apps/api/sysadmin_api/trusted_change.py:1206-1252 | The counting part of the status |
| Campaign.ApprovedExactly | apps/api/sysadmin_api/trusted_change.py:1121-1163 | A host is projected as approved exactly if its plan is bound, unstarted and approved for all it needs, and no remediation job of it runs or was canceled |
| Campaign.ProjectionIdempotent | apps/api/sysadmin_api/trusted_change.py:1048-1118 | Projecting again with the same plans and jobs changes nothing but the time, sticky states, summaries, status and counter included |
| Campaign.StatusTable | apps/api/sysadmin_api/trusted_change.py:1180-1252 | For every status an if-and-only-if over the hosts' states; among them succeeded and failed |
| Campaign.CanceledStays | apps/api/sysadmin_api/trusted_change.py:1167-1179 | With a cancellation time every projection is cancelling or canceled |
| Campaign.ProjectionKeepsSized | apps/api/sysadmin_api/trusted_change.py:1098-1116 | The batch counter stays between 0 and the number of batches, never moves back, covers the completed hosts and reaches the end when all are completed |
| Campaign.CounterStaysZeroExactly | apps/api/sysadmin_api/trusted_change.py:1098-1116 | The counter is still zero after a projection exactly if it was zero and no host has completed for any reason |
| Campaign.AttachingRestoresSized | apps/api/sysadmin_api/service.py:2132-2171 | Attaching a proposal resets batch size and number of batches; after the projection the counters are in order and the size is within every host's and plan's limit |
| Campaign.CeilDivLeast | apps/api/sysadmin_api/service.py:1266-1267 | The rounded-up quotient is the least number of batches that hold all hosts |
| Campaign.CampaignBatch | apps/api/sysadmin_api/trusted_change.py:961-1019 | The selection loop computes the batch decision, its hosts and the hosts whose plan changed |
| Campaign.BatchExactly | apps/api/sysadmin_api/trusted_change.py:961-1019 | A batch is allowed exactly if the campaign is open, nobody is in flight and a candidate exists; it takes candidates in order, within every limit, and stops short of all of them only at a limit |
| Campaign.CandidatesMeans | apps/api/sysadmin_api/trusted_change.py:988-1008 | The candidates are exactly the approved hosts whose plan is still the attached one |
| Campaign.LimitMeans | apps/api/sysadmin_api/trusted_change.py:1003-1019 | The computed limit is exactly the conjunction of the campaign's, the plans' and, at counter zero, the canary limits |
| Campaign.StartCampaignBatch | apps/api/sysadmin_api/trusted_change.py:1022-1045 | The start loop puts exactly the hosts with a job in flight and advances the counter |
| Campaign.StartKeepsSized | apps/api/sysadmin_api/trusted_change.py:1039-1044 | Starting keeps the counters in order and advances by one unless at the end |
| Rollout.StopRemainingCampaignHosts | apps/api/sysadmin_api/service.py:2202-2250 | The stop loop over the hosts, with its effects on jobs and plans |
| Rollout.CancelCampaignHost | apps/api/sysadmin_api/service.py:1541-1574 | One turn of the cancellation loop |
| Rollout.CancelCampaign | apps/api/sysadmin_api/service.py:1518-1585 | Cancellation: synchronize, refuse what is over, cancel host by host, cancelling exactly if a job was met running |
| Cancellation.CancellationLeavesNothingWaiting | apps/api/sysadmin_api/service.py:1518-1585 | After canceling an open campaign no job of a host still open waits; hosts are left running exactly because their job runs, left alone if it had ended, and otherwise canceled with their unstarted plan; cancelling exactly if a running job was met; no further batch |
| Rollout.PrepareRemediationJob | apps/api/sysadmin_api/service.py:486-542 | Preparing one host's job: binding, gate, reuse by idempotency key, or a new job with the plan put in flight; refusals mark the host |
| Rollout.NewJobIsEligible | apps/api/sysadmin_api/service.py:512-530 | A job made for a plan the gate lets through is itself let through by the gate, and queued exactly if the window is open |
| Rollout.PrepareCampaignExecution | apps/api/sysadmin_api/service.py:1440-1516 | Starting a batch: synchronize, select, prepare, start; a refused start leaves everything as it was |
| WaitingJobs.MayPassExactly | apps/api/sysadmin_api/service.py:927-957 | The gate can let a waiting job through on some host, after its plan has gone forward in some way, if and only if the plan still has the version and hash the job is bound to, its approval is not closed, and the job's bindings are those of an admissible plan |
| WaitingJobs.ReviewIsGranted | apps/api/sysadmin_api/trusted_change.py:462-555 | The approvals that lead there are granted by the plan and reboot approval transitions |
| WaitingJobs.NewJobMayPass | apps/api/sysadmin_api/service.py:512-530 | Every job made for a plan the gate lets through is such a job |
| RolloutRuns.RolloutBound | apps/api/sysadmin_api/service.py:1440-1516 | Over whole runs in which no start overlooks a host (a job that is queued, runs, or is scheduled and may still pass the gate, while the reconciled plan is not in flight) and no worker takes the plan of a left-out host with an outstanding job back: every scheduled, queued or running host is in the batch started last, and every batch was within the limits of its campaign and candidates |
| OverlookedHosts.StartKeepsTheBoundExactly | apps/api/sysadmin_api/service.py:1440-1516 | The condition on starts is exact for each start: all runs after it that start nothing more and take no plan of a left-out host back keep every host in flight within the new batch if and only if the start overlooks nobody. Scheduled jobs are released by the gate only |
| OverlookedHosts.EditedCampaignBreaksTheBound | apps/api/sysadmin_api/trusted_change.py:968-980 | A concrete campaign in order whose second batch starts beside the queued job of the first, after one edit of a plan, and a run that then shows a host outside that batch in flight |
| OverlookedHosts.OverlookedBreaksTheBound | apps/api/sysadmin_api/service.py:917-957 | From every overlooked host such steps lead to a host in flight outside the batch started last: a queued job is claimed; for a scheduled one the plan and its reboot are approved, the scheduler asks the gate and releases it, and it is claimed |
| OverlookedHosts.EditedScheduledHostIsNotOverlooked | apps/api/sysadmin_api/service.py:927-957 | A host whose scheduled job's plan has been edited is not overlooked: its job never comes back |
| OverlookedHosts.RefusedRebootIsOverlooked | apps/api/sysadmin_api/trusted_change.py:508-555 | A host whose scheduled job had been let through before a reboot approval was refused is overlooked |
| OverlookedHosts.StaleWriteFreesJob | apps/api/sysadmin_api/repository.py:1570-1580 | The condition on the steps between is needed: one write-back of an overtaken copy frees a scheduled job the gate would have refused for good, and it runs beside the latest batch |
| OverlookedHosts.EditHidesQueuedHost | apps/api/sysadmin_api/trusted_change.py:433-439 | Editing the plan of a queued host takes it out of flight at the next synchronization while its job stays queued; the gate then refuses that job |
| OverlookedHosts.RefusedRebootLeavesJobEligible | apps/api/sysadmin_api/trusted_change.py:508-555 | A plan blocked by a refused reboot approval leaves its queued job eligible once the host permits reboots and one is approved, so executor starts are not bounded by the latest batch either |
| RolloutRuns.OutstandingIsOverlooked | apps/api/sysadmin_api/trusted_change.py:1121-1163 | An outstanding job met by a start is the one its entry names and does not run, and its host is overlooked if and only if the job may yet run |
| RolloutRuns.AttachedCampaignIsInOrder | apps/api/sysadmin_api/service.py:2132-2171 | A campaign with attached, unstarted plans satisfies the run invariant |
| RolloutRuns.CanceledStartsNothing | apps/api/sysadmin_api/trusted_change.py:375-381 | After cancellation no run starts another batch, even if a late proposal step overwrites the status |
| RolloutRuns.StartKeepsInv | apps/api/sysadmin_api/service.py:1440-1516 | A start, with its synchronization, selection, job creation and refusals, keeps the run invariant for the new batch |
| RolloutRuns.SyncKeepsInv | apps/api/sysadmin_api/service.py:2252-2314 | A synchronization shows nobody in flight who was not in the batch |
| StopOnFailure.SyncSettles | apps/api/sysadmin_api/service.py:2252-2314 | Every synchronization leaves the campaign at a fixpoint of the projection with reconciled plans |
| StopOnFailure.StoppingEmptiesTheRollout | apps/api/sysadmin_api/service.py:2202-2250 | For a campaign as it is found when a plan has failed, settled or not: after the stop and the next synchronization another host is approved, queued or scheduled if and only if its entry showed it over or running, or its job ran, although its plan and job said that it may start |
| StopOnFailure.NobodyIsSelectedAfterStop | apps/api/sysadmin_api/trusted_change.py:961-1019 | If no other host survives in that sense, the next batch is refused and takes nobody |
| StopOnFailure.SettledSurvivorExactly | apps/api/sysadmin_api/service.py:2202-2250 | A host whose entry shows what its plan and job say survives exactly if it may start and its entry names a running job that is no remediation job |
| StopOnFailure.RequeuedSiblingSurvives | apps/api/sysadmin_api/service.py:648-668 | A host still shown running whose retryable failure has put its job back into the queue survives |
| StopOnFailure.RetriedSiblingSurvives | apps/api/sysadmin_api/service.py:2173-2250 | A concrete campaign in which it does |
| StopOnFailure.StraySiblingSurvives | apps/api/sysadmin_api/service.py:2202-2250 | A concrete campaign in which a host survives whose entry names a running scan |
| RolloutLimits.CanaryCanBeSkipped | apps/api/sysadmin_api/trusted_change.py:1012-1019 | A concrete campaign, nothing started yet, whose first batch exceeds the canary count of every plan in it |
| RolloutLimits.CanaryBindsExactlyWhenNobodyCompleted | apps/api/sysadmin_api/trusted_change.py:1012-1019 | The canary counts bind the first batch exactly if no host has completed at the projection before it |
| RolloutLimits.LeaseStepsEvolve | apps/api/sysadmin_api/repository.py:386-524 | Every step of the lease protocol (claims, heartbeats, edits, saves, sweeps, cancels, parking and releasing) changes jobs as a rollout run admits, except creating a job for a campaign plan from outside and releasing a scheduled job against the gate |
| RolloutLimits.LeaseStepsAreAdmitted | apps/api/sysadmin_api/repository.py:386-524 | So a rollout run can take any such step as one of its own, with exactly that effect on the jobs |
| RolloutLimits.GateStepsEvolve | apps/api/sysadmin_api/trusted_change.py:396-555 | Reconciling and approving are steps a rollout run admits: they put no plan in flight and take no version back |
| Evidence.ValidateReviewResponse | apps/api/sysadmin_api/agents.py:829-864 | The entry-by-entry overwriting of the deterministic review by a provider's answer |
| Evidence.UncitedClaimIsObjectedExactly | apps/api/sysadmin_api/agents.py:274-307 | A relevant claim without evidence is objected to whatever the provider answers, and escapes exactly if a cached message does not object |
| Evidence.VerifyFindings | apps/api/sysadmin_api/verifier.py:35-71 | The verifier's loop yields the judged findings, the verified list and the rejections |
| Evidence.AcceptableExactly | apps/api/sysadmin_api/verifier.py:51-70 | A finding is verified exactly if it cites (or is informational), cites only the registry, proposes only cataloged actions with enough confidence, and is not contested |
| Evidence.VerdictLosesNothing | apps/api/sysadmin_api/verifier.py:47-71 | The verified list is, in order, the findings judged verified; the rejections are, in order, the ids and reasons of the findings judged rejected; together they are all |
| Evidence.RejectedAreUnacceptable | apps/api/sysadmin_api/verifier.py:47-71 | The rejected ids are the ids of exactly the unacceptable findings |
| Evidence.RejectsExactly | apps/api/sysadmin_api/verifier.py:47-71 | Nothing is rejected exactly if every finding is acceptable, and every rejection has reasons |
| Orchestrator.ValidateOrchestratorResponse | apps/api/sysadmin_api/agents.py:867-901 | The entry-by-entry overwriting of the fallback answer |
| Orchestrator.ValidatedReadyExactly | apps/api/sysadmin_api/agents.py:867-901 | A validated answer is ready exactly if no review, no rejection and no provider conflict stands and nobody withdrew; it cites only what it may |
| Orchestrator.PlanExactly | apps/api/sysadmin_api/agents.py:515-651 | When a plan is built from an answer, as an if-and-only-if |
| Orchestrator.ProviderCannotBuyPlan | apps/api/sysadmin_api/agents.py:589-651 | For given reviews, a plan under any provider or cached answer to the synthesis implies a plan without any answer |
| Orchestrator.AnswersCannotBuyPlan | apps/api/sysadmin_api/agents.py:737-799 | The same for the whole workflow: a plan under any answers to both reviews and the synthesis implies a plan without any answer, as long as used cache entries keep their objections |
| Orchestrator.WorkflowPlansExactly | apps/api/sysadmin_api/agents.py:737-799 | The whole workflow makes a plan exactly if every finding is acceptable, neither review objects, updates are pending and the answer does not stand in the way |
| Orchestrator.PlanMeansReviewedEvidence | apps/api/sysadmin_api/agents.py:155-249 | A plan implies that every claim under review has evidence, as long as used cache entries keep their objections |
| Orchestrator.OwnCachesCannotBuyPlan | apps/api/sysadmin_api/agents.py:199-215 | With cache entries the source wrote for these claims, a plan means that every claim under review has evidence and that the plan would have been made without any answer |
| Orchestrator.CachedReviewBuysPlan | apps/api/sysadmin_api/agents.py:199-202 | A concrete workflow in which a cached confirmation written for other claims lets an uncited claim through to a plan; the source's own keys and specialists do not lead there |
| Orchestrator.PlanCitesRegistry | apps/api/sysadmin_api/agents.py:653-709 | Every citation of a plan is in the snapshot's registry, for every provider and cache |
| Orchestrator.NewPlanIsFresh | apps/api/sysadmin_api/agents.py:653-709 | A new plan is unapproved, hashed over its content, at least as risky as the host demands, and rolled out one at a time at high risk |
| LoginLimiter.LoginRateLimiter.AllowMemory | apps/api/sysadmin_api/security.py:48-56 | One attempt: the answer and the whole next memory |
| LoginLimiter.LoginRateLimiter.Reset | apps/api/sysadmin_api/security.py:58-65 | Forgetting a key |
| LoginLimiter.OneWindowExactly | apps/api/sysadmin_api/security.py:48-56 | Within a window exactly the first attempts up to the maximum get through |
| LoginLimiter.AtMostTwicePerStretch | apps/api/sysadmin_api/security.py:48-56 | In any stretch as long as a window, both ends included, at most twice the maximum get through |
| LoginLimiter.TwiceIsReached | apps/api/sysadmin_api/security.py:48-56 | That bound is reached for every policy |
| LoginLimiter.OtherKeysDoNotMatter | apps/api/sysadmin_api/security.py:48-56 | Calls on other keys change nothing for a key |

## Left out

- RolloutRuns.RolloutBound: holds under a condition on each batch start that the source does not test, which is exact for each start, and under one on write-backs of overtaken plans, which StalePlans.StepGoesForwardExactly ties to the workers' copies.
- OverlookedHosts.StartKeepsTheBoundExactly: bounds who is shown in flight. Whether the executor then starts for an overlooked host is the gate's decision at that time. Maintenance windows may open at any time.
- ServiceSweep.RecoverExpiredJobs: the branches for scan jobs and snapshot deletions are not part of this model, and the stops of campaigns are given as a list; SweepStops carries them out inside the loop, for one campaign.
- SweepStops.HandedOutJobCanceledExactly: covers hosts shown running whose plan runs; WaitingHostLosesItsJob and WaitingHostsPlanExactly cover hosts shown waiting. A turn reaches only the campaigns its own plan is in, and a campaign attaches proposals made for it alone, so one campaign is modelled; a plan shared by several is not part of it.
- RolloutRuns.CanceledStartsNothing: does not say that no executor starts after a cancellation; a requeued job of a campaign that is still cancelling can be claimed again.
- MutationOnce.ExecutorNotRepeated: does not cover external calls that raise instead of returning; the source treats those as retryable.
- LoginLimiter.AtMostTwicePerStretch: covers keys that are not reset in between; the Redis counter in front of the memory is not modelled.
- Orchestrator.PlanExactly: the wording of rejections and the order of citations are simplified; a plan depends only on whether there are conflicts and on which citations there are.
- SSH, key scanning, Ansible processes, snapshot providers, the job transport, HTTP routes and the user interface: input and output.
- Sessions, row locks and nested transactions: each transaction block is one step.
- Encryption, password hashing, tokens and roles: library calls and thin checks.
- Redaction, parsing of front matter and JSON: text processing.
- Cron schedules and time zones: the maintenance window is an arbitrary predicate of time.
- Alerts, audit events, log records and free-text summaries: reports about what is modelled here; a host refused by a batch start keeps its earlier summary.
- Scan jobs and snapshot deletion beyond their place in the job store: they do not change a host.
- Queueing proposals for a campaign, beyond attaching their result: it adds only easy steps. StopOnFailure's entry that names a running scan is a state of the model; no run of the service is given that stops a campaign in it.
- The simulated executor: it changes nothing.
- Findings are values here; the source marks the verifier's verdict on shared objects, so the aliasing between reports and the list of all findings is not captured.
- The agent assignments inside a plan's decision record, and its title: no decision reads them; the hash of the model covers a decision record without them.
- The SQL store hands out a campaign's hosts sorted by name; the model takes them in the order given.
