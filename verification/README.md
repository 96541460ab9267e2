# ZeroOps release control: a model and its proofs

The platform turns an approved infrastructure plan into a running Azure release. Several processes
share that work and none of them may trust the others to be alive: a database queue hands deployment
jobs to workers under renewable leases, an at-least-once broker hands plan and apply messages to
scale-set runners, and write-once blobs decide which plan and which approval count. This project
models those components and proves what they keep over every interleaving, redelivery and crash.

| component | modules |
|---|---|
| Deployment queue: rows, the two reconcilers, claims and heartbeats | `Tables`, `Reconcile`, `JobQueue`, `ApiRecovery`, `PassMeaning`, `DrainLaws` |
| One worker: fenced writes, the side-effect boundary, the heartbeat thread | `JobRunner` (in `TerraformRunner.dfy`), `WorkerLoop` |
| The queue as a step system | `QueueProtocol`, `QueueInvariant`, `QueueTheorems`, `ReplayCondition`, `FailureHistory`, `FailureRoutes`, `Fencing` |
| Messages and write-once blobs | `Contracts`, `BlobStore` |
| Plan/apply runner: one process, then any number of them as a step system | `VmssRunner`, `RunnerProtocol`, `RunnerInvariant`, `RunnerTheorems`, `RunnerDelivery`, `RunnerEvents` |
| The timed state lease, alone and under the runners | `StateLease`, `LeasedRunners` |
| Plan guardrails, summaries, history events | `ExecutionGate`, `PlanSummary`, `HistoryEvents` |
| Rate limiter | `RateLimiter`, `RateLimiterLaws` |
| JSON Schema reducer | `Json`, `SchemaReducer`, `SchemaMeaning`, `DictLaws`, `DereferenceLaws`, `DereferenceCycles`, `DereferenceMeaning`, `ReducerLaws`, `ReducerFixpoint`, `ReducerMeaning`, `ReducerExactness` |
| Second factor | `Totp`, `Mfa`, `MfaLaws` |
| What each answer and each row means, in the program's own words | `SettledRows`, `WrittenRows`, `AcceptedMessages`, `AppliedBindings`, `MessageEndings`, `PlanMeaning`, `AcceptedPlans`, `HistoryMeaning`, `RateMeaning`, `ReducerMembers`, `DereferenceMembers`, `FactorMeaning`, `TextMeaning` |
| Shared text and ordering facts | `Wrappers`, `Text`, `Sorting` |

Code that changes rows, blobs or fields is a class whose methods are proved equal to functions on
values; the protocol modules then run those same functions in every order. The functions in turn are
pinned from outside: their results are stated exactly, in the literal statuses, action lists, paths,
characters and seconds that the program names, without using the functions' own definitions. The two step systems take
one committed transaction, or one external effect, per step; the exceptions are listed under Left out.

Assumptions: SHA-256 over files, canonical messages and event text has no collisions where
`CollisionFree` is asked for; lease tokens, TOTP secrets and salted hashes are never drawn twice; a
blob upload without overwrite is an atomic put-if-absent; a transaction is one step; the clock never
goes back; the release pipeline writes any deployment row except one whose status reads as queued
(`QueueProtocol.Disciplined`).

Where the code and a reader's expectation part, the model follows the code:

- `backend/main.py:513-527` imports a module that does not exist under that name, so its local
  fallback decides. It retries a missing deployment, ignores letter case and fails a stopped
  deployment (`ApiRecovery.DispositionsDiffer`); it also fails a deploying project that still has an
  active deployment, which the worker's pass spares (`PassMeaning.ApiPassFailsActiveProject`).
- "Queued job, queued deployment" holds with the status read as the fallback reads it: missing, empty
  or any spelling of `queued`. If the pipeline body wrote such a status, a crossed job could be
  claimed again, and only then (`ReplayCondition.ReplayExactly`).
- A failed job may keep an active deployment, in exactly three ways: the pipeline returned on a row
  that was still active, the raise that closed the job still owes its deployment mark, or a holder
  displaced by a pass wrote an active status afterwards (`FailureHistory.FailedJobActiveExactly`,
  with one run for each in `FailureRoutes`).
- A holder whose lease is gone can still change rows in exactly two ways: the deployment mark that
  its own raise owes, and the pipeline's write while it is executing (`Fencing.FencedExactly`).
- Apply is not exactly-once: from every reachable state between an apply and its receipt, a crash and
  a redelivery while the approval is live apply the same bytes again (`RunnerDelivery.ApplyRunsAgain`);
  a delivery can be executed exactly when `RunnerDelivery.ExecutableExactly` says.
- A job may have a success and a failure event, exactly when one delivery of it was published and a
  handler published a failure for one (`RunnerEvents.BothOutcomesExactly`).
- A runner waiting for its next message is protected from scale-in exactly when its last protect call
  raised after taking effect (`RunnerTheorems.ReadyIsReleased`, `RunnerTheorems.AmbiguousProtectLeaks`).
- The timed exclusion holds for renewals at most 40 s late, and for no larger delay
  (`StateLease.ExclusionExactly`); under that bound two runners that overlapped on one state key never
  both publish success (`LeasedRunners.OverlappingNotBothPublished`).
- `_foundry_subset` is not idempotent: a `const` that holds an object may be rewritten by a second
  pass. It is idempotent on a schema exactly when every surviving `const` has the shape that the
  reduction leaves alone (`ReducerFixpoint.ReducedAgain`, `ReducerFixpoint.UntouchedExactly`).
- `_dereference` does not end on definitions that refer to themselves along a reachable cycle, and
  ends on all others (`DereferenceCycles.EndsExactly`).
- The history sanitiser drops a change whose type is longer than 128 characters
  (`HistoryEvents.ChangesSurviveExactly`).
- `_dereference` lets an asserting sibling of a `$ref` replace the definition's keyword, where the
  standard applies both (`DereferenceMeaning.SiblingReplaces`).

## Model

| member | source | states |
|---|---|---|
| JobQueue.PostgresJobQueue.SettleClaim | worker/job_queue.py:194-331 | The statements for one stale claim write exactly the row, deployment, evaluation and project effects of its disposition and report the row count |
| JobQueue.PostgresJobQueue.RecoverStaleJobs | worker/job_queue.py:157-341 | The worker's loop leaves the tables of one whole pass over the locked batch, and its four counts are what was written |
| JobQueue.PostgresJobQueue.PopJob | worker/job_queue.py:343-412 | After its own recovery pass, claims the oldest unlocked queued job with attempts left, or nothing exactly when there is none |
| JobQueue.PostgresJobQueue.HeartbeatJob | worker/job_queue.py:414-441 | Renews exactly while the job is running under this worker and token, and otherwise changes nothing |
| JobQueue.Database.FailDeployment | worker/terraform_runner.py:774-825 | The worker's failure path: the deployment only if active, the evaluation only if pending, the project only if nothing else of it is active |
| JobQueue.OldestExists | worker/job_queue.py:353-360 | Any non-empty candidate set has an oldest job, so a queued job is never passed over for none |
| ApiRecovery.ApiServer.Reconcile | backend/main.py:561-632 | One pair of the API's loop has the effects of the fallback disposition |
| ApiRecovery.ApiServer.RecoverInterruptedDeployments | backend/main.py:508-641 | The API's loop leaves the tables of one whole API pass |
| ApiRecovery.DispositionsDiffer | backend/main.py:516-527 | The fallback agrees with the worker's rule except on exactly four families of statuses |
| PassMeaning.PassJob | worker/job_queue.py:194-285 | After a pass each job of the batch is its own settled row, whatever else the batch held, and every other job is untouched |
| SettledRows.WorkerSettles | worker/job_queue.py:194-285 | The worker's pass leaves each claim of its batch the row its deployment's status calls for: running completes it with the live URL, stopped or rolled back cancels it, queued with attempts left requeues it, everything else fails it with the deployment's reason or the default one |
| SettledRows.ApiSettles | backend/main.py:561-610 | The API's pass does the same by its own reading of the status, in any letter case, with a blank status as queued and a stopped deployment as failed |
| SettledRows.DeploymentSettled | worker/job_queue.py:287-297 | A deployment ends failed exactly if it was queued, building or deploying and the pass failed its job; every column is stated for either reconciler |
| SettledRows.EvaluationSettled | worker/job_queue.py:298-314 | A pending evaluation ends failed exactly with its deployment's job |
| SettledRows.ProjectSettled | worker/job_queue.py:315-331 | A deploying project ends failed exactly with a job of one of its deployments, for the worker only if nothing of it is queued, building or deploying any more |
| SettledRows.CountsAreEndings | worker/job_queue.py:161-334 | Each of the four counts is the number of jobs of the batch that end in its status |
| PassMeaning.PassDeployment | worker/job_queue.py:287-297 | After a pass a deployment is failed by the one claim that fails on it, or is untouched |
| PassMeaning.PassEvaluation | worker/job_queue.py:298-314 | A pending evaluation ends failed exactly when a claim of the pass fails on its deployment |
| PassMeaning.PassProject | worker/job_queue.py:315-331 | A deploying project touched by the pass ends failed, for the worker exactly when none of its deployments is still active |
| PassMeaning.PassIgnoresOrder | worker/job_queue.py:166-331 | Every order of one batch leaves the same tables, for either reconciler |
| PassMeaning.CountsCoverBatch | worker/job_queue.py:161-334 | The four counts add up to the batch |
| PassMeaning.ApiPassFailsActiveProject | backend/main.py:615-620 | The API fails a project that still has an active deployment, where the worker spares it |
| PassMeaning.BatchRows | worker/job_queue.py:166-192 | With one job per deployment a batch never holds two claims on one deployment, and all of it is running |
| DrainLaws.PassKeepsJobs | worker/job_queue.py:157-334 | A pass neither adds nor removes jobs, keeps every identity and attempt count, and touches only its batch |
| DrainLaws.PassSettlesBatch | worker/job_queue.py:174-191 | At a fixed clock a pass removes exactly its batch from the stale claims |
| DrainLaws.FullPassShrinks | worker/job_queue.py:189-192 | An unhindered pass leaves nothing stale or exactly one batch less |
| DrainLaws.PassesDrain | worker/job_queue.py:157-341 | Enough repeated passes at a fixed clock leave no stale job |
| JobRunner.TerraformRunner.MarkJob | worker/terraform_runner.py:217-268 | Closes the job exactly while the lease is current; the new row is stated field by field |
| JobRunner.TerraformRunner.PersistInternalIac | worker/terraform_runner.py:717-772 | Merges the artifact descriptor exactly while the lease is current and the deployment queued |
| JobRunner.TerraformRunner.BeginPipeline | worker/terraform_runner.py:604-715 | Crosses the side-effect boundary exactly when lease, deployment, status and proof all still hold |
| JobRunner.TerraformRunner.FailJob | worker/terraform_runner.py:926-930 | Fails the deployment only if this lease still closed its job; otherwise nothing changes |
| JobRunner.TerraformRunner.ExecuteJob | worker/terraform_runner.py:827-932 | The boundary is crossed exactly when no obstacle stands in the way, and otherwise the first one is the reason; a crossed run that did not raise succeeds exactly if its lease is still current and the deployment and pipeline statuses prove it; every table is stated in each case |
| JobRunner.TerraformRunner.FinishJob | worker/terraform_runner.py:883-924 | The tail of an execution: completed exactly for running with no run or a succeeded one, stopped with a succeeded one, or stopped, blocked and waiting for approval; the whole job row in both cases |
| JobRunner.FinalMarkCloses | worker/terraform_runner.py:73-91 | The classification and the closing write together leave exactly that row |
| JobQueue.DeploymentFailsRows | worker/terraform_runner.py:774-825 | The failure path leaves exactly these three tables |
| WorkerLoop.Heartbeats.Renew | worker/main.py:112-130 | One wake-up renews or raises the flag, exactly when the database answered that the lease is held |
| WorkerLoop.Heartbeats.Run | worker/main.py:109-138 | The flag rises exactly when a beat went unanswered or the lease was gone; a stale thread writes nothing |
| WorkerLoop.RefusedHeartbeatIsFinal | worker/main.py:113-129 | Once a heartbeat is refused, in any continuation a step of the holder changes a row if and only if it is the mark its own raise owes or a differing write of a pipeline still executing |
| QueueInvariant.StepKeeps | worker/job_queue.py:157-441 | Every step of workers, both reconcilers, clock and crashes keeps the queue invariant |
| QueueInvariant.ReconcileKeeps | backend/main.py:508-641 | A pass of either reconciler keeps the queue invariant |
| QueueInvariant.ReachableInv | worker/terraform_runner.py:827-932 | The invariant holds in every state of every run |
| WrittenRows.BatchExactly | worker/job_queue.py:166-192 | In every run either reconciler may lock exactly any distinct running jobs, at most the batch size, whose last heartbeat lies more than one lease back |
| WrittenRows.StaleWithoutExpiry | backend/main.py:538-549 | For a claim without an expiry the two queries fall back in different ways, each stated |
| WrittenRows.RenewedClaimIsSafe | worker/job_queue.py:414-441 | In every run a claim renewed within the last lease is in no batch and keeps its row |
| WrittenRows.OldestWasCreatedFirst | worker/job_queue.py:353-360 | In every run the job taken first was created no later than any other that could be taken |
| WrittenRows.RequestWrites | backend/main.py:3145-3196 | A new request stands in all four tables as the claim expects it |
| WrittenRows.ClaimWrites | worker/job_queue.py:362-391 | A claim writes the whole claimed row, hands out that lease and changes nothing else |
| WrittenRows.HeartbeatWrites | worker/job_queue.py:414-441 | A heartbeat moves three times of its own running job, or nothing |
| WrittenRows.ArtifactWrites | worker/terraform_runner.py:717-772 | The artifact is recorded exactly by the owner of a queued deployment, beside the metadata that was read |
| WrittenRows.BoundaryWrites | worker/terraform_runner.py:604-715 | The boundary is crossed exactly by the owner of a queued deployment whose proof holds, and only status and two flags move |
| WrittenRows.FinishWrites | worker/terraform_runner.py:883-924 | In every run a returned pipeline closes its job by the statuses in the deployment and its latest pipeline run, or writes nothing when the lease is gone |
| WrittenRows.FailureWrites | worker/terraform_runner.py:926-930 | An exception fails a current job, and the step after it fails what is still under way |
| QueueTheorems.NeverClaimedAgain | worker/job_queue.py:353-391 | Once a deployment stops reading as queued, its job is never claimed again in any continuation |
| QueueTheorems.BoundaryCrossedAtMostOnce | worker/terraform_runner.py:604-715 | In every run each deployment crosses the boundary at most once, and a queued job's deployment has not crossed and reads exactly `queued` |
| QueueTheorems.AttemptsCountClaims | worker/job_queue.py:365-384 | The attempt count is the number of claims, within the limit, and every queued job is claimable |
| QueueTheorems.ClaimsLeftIsNatural | worker/job_queue.py:353-391 | The claims that remain possible are never negative |
| QueueTheorems.ClaimsLeftStep | worker/job_queue.py:353-391 | Each claim uses that measure up by one, only a new job adds to it, and nothing else moves it |
| QueueTheorems.TokenNeverReturns | worker/job_queue.py:369-387 | A lease token is current for one contiguous interval and one job and worker only |
| QueueTheorems.StaleLeaseIsInert | worker/terraform_runner.py:246-268 | After that interval no heartbeat, boundary crossing, metadata write or closing mark under this lease changes any row, in any continuation |
| Fencing.StaleStepExactly | worker/terraform_runner.py:926-930 | A step of a holder whose lease is not current changes a row if and only if it is a failure mark that finds something to rewrite, or a pipeline write of a different row |
| Fencing.FencedExactly | worker/terraform_runner.py:246-268 | The same in every continuation once a token's interval has ended: those two steps change rows and no other step of the holder does |
| Fencing.MarkChangesExactly | worker/terraform_runner.py:774-825 | The failure mark rewrites something exactly if the deployment is active, its evaluation pending, or its deploying project has nothing else active |
| Fencing.MarkOutlivesToken | worker/terraform_runner.py:926-930 | First exception: a current raise ends the interval, and the mark that follows still fails an active deployment |
| Fencing.DisplacedStillWrites | worker/terraform_runner.py:866-878 | Second exception: a displaced holder that is still executing writes its deployment row |
| Fencing.WriteExceptionTaken | worker/terraform_runner.py:866-878 | Some run from the start reaches such a displaced holder and its effective write |
| Fencing.RequeuedIsUntouched | worker/job_queue.py:65-72 | In every run, a job either pass puts back is claimable with attempts left, and its deployment is exactly `queued` and was never crossed |
| ReplayCondition.NoReplay | worker/job_queue.py:65-72 | A second claim after a crossing needs a pipeline status that reads as queued |
| ReplayCondition.ReplayExactly | backend/main.py:521-522 | Replay is possible if and only if the status the pipeline wrote reads as queued |
| FailureHistory.FailedJobActiveExactly | worker/terraform_runner.py:914-930 | In every run a failed job has an active deployment if and only if it was closed by an unverified finish on an active row, by a raise whose mark has not run, or a displaced holder's write of an active status came last |
| FailureHistory.RoutesExclude | worker/terraform_runner.py:217-268 | The three routes belong to three different closings: finish, raise, and a reconciling pass |
| FailureHistory.PendingMarkFollowsRaise | worker/terraform_runner.py:926-930 | In every run a worker about to mark a deployment closed that job by its own raise, and the mark is still owed |
| FailureHistory.TraceIsRun | worker/terraform_runner.py:827-932 | Keeping that history leaves the queue's runs as they are |
| FailureRoutes.FinishOnActiveRow | worker/terraform_runner.py:914-917 | First route, without a crash: an unverified pipeline result closes the job and leaves the row active |
| FailureRoutes.CrashBeforeMark | worker/terraform_runner.py:926-930 | Second route: a crash between the job's mark and the deployment's |
| FailureRoutes.LateWriteReactivates | worker/terraform_runner.py:866-878 | Third route: the pipeline of a holder whose job a pass has failed writes an active status |
| FailureRoutes.LateRouteTaken | worker/terraform_runner.py:866-878 | Some run from the start takes the third route |
| AcceptedMessages.AcceptedExactly | worker/contracts.py:618-764 | A message is accepted if and only if it carries its own digest, its header, bundle, inputs and guardrails are well formed character by character, and it is a plan without apply sections or an apply whose plan, cost and approval belong to this job and keep within the budget |
| AcceptedMessages.BindingMeaning | worker/contracts.py:690-738 | The bindings of an apply: job, plan job, digest and ETag, bundle, inputs, scope, policy, cost, currency and amount agree, the cost precedes the approval, and a budget is in its currency and not exceeded |
| AcceptedMessages.AcceptedRecord | worker/contracts.py:740-764 | The accepted record is the message itself with its identifiers in lower case |
| AppliedBindings.AppliedWithinBudget | worker/contracts.py:722-738 | In every run the estimate of every apply that happened was within its budget, in its currency, taken before the approval and the one approved |
| AppliedBindings.AppliedAsApproved | worker/terraform_executor.py:336-367 | In every run each apply ran on exactly the stored and approved bytes, for the approved job, within a day of an unexpired approval, with bundle, inputs, scope and policy of plan and approval |
| AppliedBindings.GateExactly | worker/execution_gate.py:178-196 | The gate before an apply opens exactly for the approved digest under a live approval of the same bundle; for a validated message digest and expiry decide alone |
| Contracts.FromMappingValid | worker/contracts.py:618-764 | An accepted message is canonical, carries its own digest and, for an apply, binds plan, approval and cost to this job |
| Contracts.ProducedMessage | worker/contracts.py:60-65 | A producer's message is accepted exactly when its fields are; the digest never stands in the way |
| Contracts.DigestNamesMessage | worker/contracts.py:636-660 | One digest is accepted for one message only |
| BlobStore.PlanPrefixDecodes | worker/contracts.py:426-435 | A name under one tenant's and workflow's plan prefix belongs to that tenant and workflow |
| BlobStore.PlanNameDecodes | worker/azure_adapters.py:217-220 | A plan name determines tenant, workflow, job and digest |
| BlobStore.ReceiptNameDecodes | worker/azure_adapters.py:328-336 | A receipt name determines tenant, workflow and job digest |
| BlobStore.ClaimNameDecodes | worker/azure_adapters.py:370-376 | A claim name determines tenant and approval |
| BlobStore.NamespacesDisjoint | worker/azure_adapters.py:217-376 | Plans, receipts and claims never share a name |
| BlobStore.AzureBlobArtifactStore.SavePrivatePlan | worker/azure_adapters.py:211-258 | First writer wins; success exactly when the name is free or holds the same metadata, and the reference names what is stored |
| BlobStore.AzureBlobArtifactStore.DownloadPrivatePlan | worker/azure_adapters.py:260-270 | Returns bytes exactly when ETag and digest agree, and those bytes have that digest |
| BlobStore.AzureBlobArtifactStore.ClaimApproval | worker/azure_adapters.py:341-392 | Admits exactly the first job bound to the approval and its redeliveries |
| BlobStore.AzureBlobArtifactStore.WasCompleted | worker/azure_adapters.py:338-339 | True exactly when the receipt exists |
| BlobStore.AzureBlobArtifactStore.MarkCompleted | worker/azure_adapters.py:394-451 | Afterwards the receipt exists, and an earlier one is unchanged |
| VmssRunner.Process.Perform | worker/vmss_main.py:103-189 | Whatever the process does is one step of the runner protocol and its history only grows |
| VmssRunner.Process.Plan | worker/terraform_executor.py:265-334 | Tools, guardrails, then save, in this order; an exception anywhere leaves the protected failing state |
| VmssRunner.Process.Apply | worker/terraform_executor.py:336-383 | Download, gate, then apply of those bytes; an exception anywhere leaves the protected failing state |
| VmssRunner.Process.Work | worker/vmss_main.py:129-152 | Claim before executing, lease check before publishing, receipt before completing; success leaves event and receipt |
| VmssRunner.Process.Begin | worker/vmss_main.py:117-125 | A mismatched or completed message is never executed; the job left over is a validated envelope |
| VmssRunner.Process.Try | worker/vmss_main.py:117-152 | At the end of the try block the flag `protected` says exactly whether protection must be released |
| VmssRunner.Process.ProcessMessage | worker/vmss_main.py:103-189 | Every exit either is ready for the next message or has stopped the process |
| VmssRunner.Process.Poll | worker/vmss_main.py:269-293 | After one message stopped the process no further one is received |
| RunnerInvariant.StepKeeps | worker/vmss_main.py:103-189 | Every effect of every runner, with faults, crashes and redeliveries, keeps the protocol invariant |
| RunnerInvariant.RunKeeps | worker/vmss_main.py:103-189 | Over any run the invariant holds and blobs, events and records only grow |
| RunnerInvariant.ReachableInv | worker/vmss_main.py:103-189 | The invariant holds in every state of every run |
| RunnerTheorems.AppliedBytesWereGuarded | worker/terraform_executor.py:336-367 | Whatever was handed to `terraform apply` was saved by a plan job of the same tenant and workflow that passed its guardrails, under a live approval of exactly that digest |
| RunnerTheorems.OneJobPerApproval | worker/azure_adapters.py:341-392 | All deliveries executed under one approval carry one job |
| RunnerTheorems.BoundJobStaysAdmitted | worker/azure_adapters.py:387-392 | The bound job is admitted again on every later delivery |
| RunnerTheorems.ReceiptMeansPublished | worker/vmss_main.py:150-151 | A receipt exists only after the success event was published |
| RunnerTheorems.CompletedMeansReceipt | worker/vmss_main.py:150-152 | A completed message has its receipt and its success event |
| RunnerTheorems.SettledJobIsNotExecuted | worker/vmss_main.py:123-125 | No delivery that was received after its receipt is among the executed ones, in any reachable world |
| RunnerDelivery.ReceiptBarsDelivery | worker/vmss_main.py:123-125 | Once a message's job has its receipt, a runner then waiting never executes the message in any continuation, however far the clock moves |
| RunnerDelivery.ExecutableExactly | worker/vmss_main.py:117-145 | A waiting runner can execute a message at this moment if and only if it is pending, has no receipt, decodes now for its queue and, for an apply, the claim admits it |
| RunnerTheorems.EventIdExactly | worker/history_events.py:300-304 | Event ids agree exactly on tenant, workflow, job and event type |
| RunnerTheorems.SuccessEventsAgree | worker/history_events.py:290-304 | All success events of one job share one id, over every redelivery |
| RunnerTheorems.ExecutingIsProtected | worker/vmss_main.py:127-145 | The executor runs only on an instance protected from scale-in |
| RunnerTheorems.ReadyIsReleased | worker/vmss_main.py:177-189 | A runner ready for a message holds protection if and only if its last protect call raised after taking effect |
| RunnerTheorems.AmbiguousProtectLeaks | worker/vmss_main.py:127-128 | That case is real: after such a call and its handler the runner is ready and protected |
| RunnerTheorems.FailedReleaseIsFinal | worker/vmss_main.py:178-188 | After a failed release the process receives no message in any continuation, and is left protected exactly if the release did not take effect |
| RunnerTheorems.StoppedTakesNoMessage | worker/vmss_main.py:291-292 | A stopped runner receives no message in any continuation |
| RunnerDelivery.ApplyLeavesUnsettled | worker/vmss_main.py:139-151 | Every apply of a pending message without receipt leaves an application on record and the message unsettled |
| RunnerDelivery.ApplyRunsAgain | worker/vmss_main.py:123-151 | Apply is not exactly-once: from any reachable such state, a crash and a redelivery to any waiting runner while the approval is live end in a second application of the same bytes for the same job |
| RunnerDelivery.TwoApplications | worker/terraform_executor.py:336-367 | Wherever an apply can be delivered with its plan stored and its approval live, some continuation hands the same bytes to `terraform apply` twice |
| RunnerEvents.EventsExactly | worker/vmss_main.py:149-171 | In every run an outcome event of a job is on record if and only if some step published it for a delivery of that job: the success step, or a gate or tool handler |
| RunnerEvents.BothOutcomesExactly | worker/vmss_main.py:149-171 | So both outcomes are on record exactly when a delivery was published and a handler published a failure |
| RunnerEvents.EventNamesJob | worker/history_events.py:290-304 | Two validated jobs never share an event, nor do the two outcomes of one |
| RunnerEvents.FailureAfterPublish | worker/vmss_main.py:149-171 | Whatever fails after the success event, leaving the lease included, can put the failure event beside it |
| RunnerEvents.FailureOnRedelivery | worker/vmss_main.py:117-160 | After a crash between event and receipt, a redelivery that fails adds the failure event, from every reachable state in which the message can still be delivered |
| MessageEndings.EndingsExactly | worker/vmss_main.py:117-175 | In every run a message is dead-lettered exactly if a handler settled a safety or tool failure of one of its deliveries, and completed exactly if its own work ended or a delivery found the receipt |
| MessageEndings.EventText | worker/history_events.py:300-304 | The id of an outcome event is the hash of this text |
| StateLease.AzureBlobStateLease.Enter | worker/azure_adapters.py:464-490 | Enters exactly when the blob is not leased, for sixty seconds |
| StateLease.AzureBlobStateLease.RenewTurn | worker/azure_adapters.py:479-486 | An active turn renews or records the error and ends; an ended thread changes nothing |
| StateLease.AzureBlobStateLease.AssertCurrent | worker/azure_adapters.py:492-494 | Passes exactly when no renewal failed |
| StateLease.AzureBlobStateLease.Exit | worker/azure_adapters.py:496-505 | Stops, tries to release, and raises exactly when release failed or a renewal error surfaced |
| StateLease.SessionClock | worker/azure_adapters.py:464-490 | A grant lasts sixty seconds, a renewal comes no sooner than twenty seconds after the last and a running thread is late by less than the delay |
| StateLease.AssertedMeansHeld | worker/azure_adapters.py:464-494 | With renewals at most 40 s late, a passing assertion means the lease was held without a gap since acquisition |
| StateLease.LateOverlaps | worker/azure_adapters.py:477-483 | Any larger delay admits a run in which two holders both pass |
| StateLease.ExclusionExactly | worker/azure_adapters.py:464-505 | For the lease alone: no two overlapping sessions both settle, in all runs, if and only if the delay is at most 40 s |
| LeasedRunners.OverlappingNotBothPublished | worker/vmss_main.py:129-151 | In every run of runners under leases whose renewals are at most 40 s late, two executions that overlapped on one state key never both published success |
| LeasedRunners.RunsAreRuns | worker/azure_adapters.py:464-505 | Seen from the runners alone, each such run is a run of the runner protocol, so all its results hold there |
| PlanSummary.SummarizePlanJson | worker/execution_gate.py:199-276 | The loop computes counts, sorted kinds and the sorted, cut change list of the multiset of changes |
| PlanMeaning.CountsAreListings | worker/execution_gate.py:254-265 | Each of the six counts is the number of positions that carry its literal action list, a replacement in either order |
| PlanMeaning.ChangesAreListed | worker/execution_gate.py:231-276 | The list holds every entry with a plain address, type and known action list as often as the plan does, in order, and the first 500 of them |
| PlanMeaning.KindsAreSorted | worker/execution_gate.py:226-271 | The kinds are the types of at most 128 characters, once each and in order; versions are cut at 32 |
| TextMeaning.StringLeMeaning | worker/execution_gate.py:271-275 | The order is by code point: a prefix first, otherwise the smaller first difference |
| PlanSummary.SummaryIgnoresOrder | worker/execution_gate.py:219-276 | Any permutation of the changes gives the same summary, cut included |
| PlanSummary.CountsSum | worker/execution_gate.py:254-265 | The six counts add up to the changes with a recognised action list; others are counted nowhere |
| PlanSummary.ChangesOrdered | worker/execution_gate.py:272-275 | The sort key orders changes totally, so the cut is determined |
| ExecutionGate.BelowIsInside | worker/execution_gate.py:376-379 | The textual prefix test is containment by whole path segments |
| ExecutionGate.TargetSegments | worker/execution_gate.py:333-336 | The target prefix has exactly the five segments of subscription and group |
| ExecutionGate.HasPlacingId | worker/execution_gate.py:383-393 | Finds an id exactly when some id attribute lies inside the group |
| ExecutionGate.CheckBody | worker/execution_gate.py:358-401 | Accepts a body exactly when its group and scope are allowed, and says whether it shows its place |
| ExecutionGate.CheckChange | worker/execution_gate.py:340-405 | Accepts a change exactly when type, bodies and evidence are allowed |
| ExecutionGate.ValidatePlanGuardrails | worker/execution_gate.py:279-406 | Returns exactly on accepted plans, with the plan's summary |
| AcceptedPlans.AcceptedExactly | worker/execution_gate.py:279-406 | A plan is accepted if and only if the inputs carry the approved digest, its literal action lists keep within the three maxima, every type is approved, and every managed entry that does more than read stays inside the approved group and shows its place there |
| AcceptedPlans.RegistryMeaning | worker/execution_gate.py:303-309 | A registry id is one registry in some group of the approved subscription, in any letter case |
| AcceptedPlans.GrantMeaning | worker/execution_gate.py:409-433 | The exception is for a grant whose principal is given by references only, all to the plan's only new application and one to its identity |
| ExecutionGate.GrantNamesTheNewApplication | worker/execution_gate.py:409-433 | The registry exception only serves the identity of the plan's single new application |
| ExecutionGate.AcceptedEffects | worker/execution_gate.py:340-405 | In an accepted plan every managed change has an approved type and the approved group, a resource group has the approved name, and every scope lies inside the group or is the one AcrPull grant |
| ExecutionGate.AcceptedCounts | worker/execution_gate.py:316-331 | The positions of an accepted plan, by their literal action lists, are within the approved maxima |
| ExecutionGate.LooserAccepts | worker/execution_gate.py:316-331 | Raising the maxima or widening the type set never rejects an accepted plan |
| HistoryEvents.SafeSummaryOf | worker/history_events.py:56-126 | The loops compute the sanitised summary |
| HistoryMeaning.KeptCounts | worker/history_events.py:60-70 | Exactly the six named counts survive, each if it is a number from 0 to a million |
| HistoryMeaning.KeptKinds | worker/history_events.py:72-82 | Exactly the types that are plain tokens of at most 128 characters survive, sorted, once each, the first hundred |
| HistoryMeaning.KeptChanges | worker/history_events.py:86-119 | Of the first 500 entries exactly those with plain address, type and action list survive, as often as they stand there and in order |
| HistoryMeaning.KeptVersions | worker/history_events.py:120-125 | A version survives exactly if it is digits and dots, at most 32 of them, a digit first |
| HistoryEvents.SanitizeIdempotent | worker/history_events.py:56-126 | Sanitising twice is sanitising once, on every input |
| HistoryEvents.ChangesSurviveExactly | worker/history_events.py:86-119 | A plan's change list survives exactly when every listed type has at most 128 characters |
| HistoryEvents.AcceptedCountsSurvive | worker/history_events.py:60-70 | On accepted plans the create, update, delete and replace counts survive unchanged |
| RateLimiter.Middleware.Evict | backend/main.py:278-283 | Collecting then popping leaves exactly the keys that have not expired |
| RateLimiter.Middleware.Handle | backend/main.py:227-315 | Table and verdict after one request are those of the specification, loop and early returns included |
| RateLimiterLaws.RuleOfCategory | backend/main.py:243-272 | All paths of one category have one limit |
| RateMeaning.ExemptPaths | backend/main.py:232-238 | Exactly the health and documentation paths are not limited |
| RateMeaning.LimitedPaths | backend/main.py:243-272 | Which path has which limit: two exact paths, eight prefixes, everything else |
| RateMeaning.AdmittedExactly | backend/main.py:297-315 | In every run a request not refused for capacity is admitted exactly while its client had fewer admissions of that category in the last 60 s than the path's limit |
| RateMeaning.HistoryExactly | backend/main.py:239-314 | That history is exactly the admitted requests, each under its client, category and time |
| RateLimiterLaws.AgreesWithIdeal | backend/main.py:274-315 | Apart from capacity refusals every decision is that of a limiter that remembers every admission |
| RateLimiterLaws.SweepKeepsActive | backend/main.py:278-283 | Eviction leaves exactly the keys admitted within the last window |
| RateLimiterLaws.CapacityExactly | backend/main.py:276-295 | A capacity refusal happens exactly for an untracked key while at least the maximum of keys is active |
| RateLimiterLaws.FewKeysRunIdeal | backend/main.py:274-315 | With no more keys than the maximum the whole run is the ideal one |
| RateLimiterLaws.AdmissionsSpread | backend/main.py:297-314 | Any limit + 1 admissions of one key span at least 60 s |
| RateLimiterLaws.TableBounded | backend/main.py:276-299 | The table never exceeds its maximum, and no list is empty or longer than its limit |
| SchemaReducer.FoundrySubset | scripts/generate_ai_schemas.py:87-116 | The loop over members, with its skips and raises, computes the reduction, first error included |
| ReducerMembers.MemberReduced | scripts/generate_ai_schemas.py:98-116 | Each member of a reduced object: closed and fully required for an object schema, gone for the 22 dropped keywords and `const`, cut at 1024 characters for a description, and otherwise reduced on its own |
| ReducerMembers.EnumReduced | scripts/generate_ai_schemas.py:102-104 | Of `enum` and `const` the later one decides what `enum` holds |
| ReducerMembers.ReducesExactly | scripts/generate_ai_schemas.py:98-113 | An object is reduced if and only if its kept members are and an object schema lists its properties |
| ReducerMembers.OnlyFailure | scripts/generate_ai_schemas.py:110-113 | There is no other failure |
| DereferenceMembers.ReferenceMeaning | scripts/generate_ai_schemas.py:69-76 | Which text is a reference, which definition it names, and which error a bad one gives |
| DereferenceMembers.UnfoldedMember | scripts/generate_ai_schemas.py:77-79 | A reference unfolds to its siblings over the definition's own members |
| DereferenceMembers.ReferenceInlined | scripts/generate_ai_schemas.py:69-79 | An object with a reference is what it unfolds to, one level deeper |
| DereferenceMembers.MembersSucceed | scripts/generate_ai_schemas.py:80-84 | An object without one is inlined exactly if every member but `$defs` is |
| DereferenceLaws.NoReferenceLeft | scripts/generate_ai_schemas.py:64-84 | No `$ref` and no `$defs` is left anywhere in the result |
| DereferenceLaws.Terminates | scripts/generate_ai_schemas.py:64-84 | On acyclic definitions a computed number of unfoldings always suffices |
| DereferenceLaws.DepthIrrelevant | scripts/generate_ai_schemas.py:64-84 | A deeper recursion limit never changes an answer |
| DereferenceCycles.CyclicNeverEnds | scripts/generate_ai_schemas.py:69-79 | A schema that reaches a cycle of references exceeds every recursion limit |
| DereferenceCycles.AcyclicEnds | scripts/generate_ai_schemas.py:64-84 | One that reaches none needs at most as many nested unfoldings as there are definitions |
| DereferenceCycles.EndsExactly | scripts/generate_ai_schemas.py:64-84 | So inlining ends if and only if no cycle of references is reachable |
| DereferenceMeaning.Preserves | scripts/generate_ai_schemas.py:64-84 | With only annotations beside references, the result accepts exactly the same values (section 8.2.3.1 of JSON Schema Core 2020-12), `not` and `oneOf` included |
| DereferenceMeaning.SiblingReplaces | scripts/generate_ai_schemas.py:77-79 | An asserting sibling replaces the definition's keyword, so a rejected value becomes accepted |
| ReducerLaws.PropertyNamesKept | scripts/generate_ai_schemas.py:92-96 | Property names are kept in order, however they are spelled |
| ReducerLaws.ReducesToStrict | scripts/generate_ai_schemas.py:98-116 | No unsupported keyword and no `const` stands where a schema does, descriptions are clipped, object schemas are closed and require all properties |
| ReducerFixpoint.ReducedAgain | scripts/generate_ai_schemas.py:87-116 | Reducing twice is reducing once if and only if every surviving `const` has the untouched shape |
| ReducerFixpoint.UntouchedExactly | scripts/generate_ai_schemas.py:87-116 | The reduction leaves a value alone if and only if its objects hold no dropped key and no `const`, short text descriptions, and object schemas closed over all their properties |
| ReducerFixpoint.ObjectFreeUnchanged | scripts/generate_ai_schemas.py:87-91 | Data without objects, such as the contracts' constants, is left alone |
| ReducerFixpoint.ObjectConstIsTouched | scripts/generate_ai_schemas.py:102-104 | A `const` with a member spelled like a keyword makes two passes differ |
| ReducerMeaning.Relaxes | scripts/generate_ai_schemas.py:87-116 | On negation-free schemas with closed objects every accepted value that carries the declared properties stays accepted |
| ReducerMeaning.EnumOfOne | scripts/generate_ai_schemas.py:102-104 | `const` and its one-element `enum` accept the same values (section 6.1.3 of JSON Schema Validation 2020-12) |
| ReducerExactness.RequiredMeansCarried | scripts/generate_ai_schemas.py:110-115 | A schema that requires all its properties accepts only values that carry them |
| ReducerExactness.Tightens | scripts/generate_ai_schemas.py:98-115 | When only annotations are dropped the result accepts nothing new |
| ReducerExactness.ReductionExact | scripts/generate_ai_schemas.py:87-116 | With all properties required and only annotations dropped, acceptance is unchanged |
| ReducerExactness.GeneratedSchemaRelaxes | scripts/generate_ai_schemas.py:123-127 | The whole generation step only relaxes: a value of the rich contract is a value of the generated schema |
| Totp.TruncateIsDynamicTruncation | backend/auth.py:223-229 | Truncation stays in bounds and is the dynamic truncation of section 5.3 of RFC 4226 |
| Totp.HotpIsSixDigits | backend/auth.py:229 | A code is six digits standing for the truncated value modulo a million |
| Totp.StepIsLeastHit | backend/auth.py:232-242 | A code is accepted exactly when some non-negative step of the window produces it, and for the least such step |
| Totp.VerifyTotpCode | backend/auth.py:232-242 | The search loop computes that step |
| FactorMeaning.StepMeaning | backend/auth.py:232-242 | The step of a code is the least of the current half minute and its two neighbours that produces its six digits |
| FactorMeaning.SqueezedMeaning | backend/auth.py:234 | White space is dropped from a code and nothing else |
| FactorMeaning.NormalizedMeaning | backend/auth.py:245-246 | A recovery code is compared as its letters and digits in capitals |
| Mfa.User.ConsumeRecoveryCode | backend/auth.py:257-268 | Removes exactly the first matching stored hash, or nothing |
| Mfa.User.Check | backend/main.py:1117-1145 | Email code or time step first, then recovery code; a passed step is refused outright |
| Mfa.User.VerifyChallenge | backend/main.py:1090-1148 | Sign-in: the whole user row and the outcome |
| FactorMeaning.SignInMeaning | backend/main.py:1090-1148 | Every sign-in is answered, and its whole row written, in exactly one of these ways: refused, by email code, by a newer time step, refused for an older one, by the first matching recovery code |
| FactorMeaning.RemovalMeaning | backend/main.py:1228-1290 | Removal asks for the same proof and then leaves nothing of the factor |
| FactorMeaning.EnrolmentMeaning | backend/main.py:1468-1509 | What starting, switching and email enrolment write, and when they refuse |
| FactorMeaning.ConfirmationMeaning | backend/main.py:1198-1225 | What confirming writes for a good code, a bad one and an expired secret |
| Mfa.User.Disable | backend/main.py:1228-1290 | Removal clears every factor exactly when a factor was proved |
| Mfa.User.StartSetup | backend/main.py:1160-1175 | A pending secret only while the factor is off and sign-in is recent |
| Mfa.User.ConfirmSetup | backend/main.py:1198-1225 | The pending secret becomes current together with the step that proved it |
| Mfa.User.UpdateMethod | backend/main.py:1468-1481 | Switching needs a secret and keeps every counter |
| Mfa.User.SetupEmail | backend/main.py:1484-1509 | Email enrolment drops the secret and its counter |
| MfaLaws.NoStepTwice | backend/main.py:1130-1137 | For one secret the accepted time steps strictly increase over every serial run (section 5.2 of RFC 6238) |
| MfaLaws.NoRecoveryCodeTwice | backend/auth.py:262-267 | Each stored recovery hash lets at most one request through |
| MfaLaws.NoEmailCodeTwice | backend/main.py:1117-1127 | Each code sent by email lets at most one request through, over every serial run |
| MfaLaws.AcceptedStepIsHit | backend/main.py:1117-1137 | An accepted step belongs to an issued secret, is the least hit of its window and was never accepted before |
| MfaLaws.LetThroughExactly | backend/main.py:1103-1146 | Sign-in accepts a code if and only if the factor is on, the challenge valid, and the code a live email code, an unused time step, or a stored recovery code that is no time step |
| MfaLaws.OnlyProofDisables | backend/main.py:1234-1288 | No request of any kind turns the factor off without such a code |
| Text.SegmentPrefix | worker/execution_gate.py:376-379 | Equality or prefix plus separator is prefix of the segment lists, for every string and separator |
| Sorting.SortPermutation | worker/execution_gate.py:272-275 | Sorting by a total order gives one result for every permutation |
| Sorting.SortSet | worker/execution_gate.py:271 | Sorting a set gives its members once each, in order |

## Left out

- Unfenced writers: `update_job_status` (worker/job_queue.py:443-468) and the worker event callback (backend/main.py:6027-6039) may write any status; their absence is an assumption.
- The release pipeline body is one arbitrary write of its deployment row per step; its lease guard (backend/services/pipeline.py:414-419) reads a flag in memory that lags the database, so it is no condition of the write.
- Deletion of deployment, project or job rows, and enqueueing a second job for one deployment.
- Database isolation below serialisable: each transaction is one step. The metadata merge is two statements in the source; its step takes the earlier read as an arbitrary value.
- `MarkDeployment` is one step for the three autocommitted statements at worker/terraform_runner.py:774-825, and `Finish` is one step for the read and the separate closing write at worker/terraform_runner.py:883-924; a crash or another writer between those statements is not a step of its own.
- The database clock and the API's clock are one clock.
- JobRunner.TerraformRunner.ExecuteJob: states one execution with nobody else writing in between; interference is covered by the step system, where each of its writes is a step of its own.
- WorkerLoop.Heartbeats.Run: states the thread with nobody else writing in between; the polling loop of worker/main.py, its health reports and its stop signal are not modelled.
- VmssRunner.Process.ProcessMessage: runs one process beside the clock and producers only; other runners' steps between its effects are covered by the step system. Session handling, lock renewal, logging and health reports are not modelled, and an error the broker raises from a handler ends the process here, where the source retries the poll when that error is a Service Bus error.
- RunnerTheorems.AppliedBytesWereGuarded: names tenant and workflow of the plan job, not its job digest, because the download compares only ETag and file digest.
- LeasedRunners.OverlappingNotBothPublished: the runners' whole-second clock and the lease's real-valued clock move independently, and a renewal thread ends with its session.
- DereferenceCycles.EndsExactly: speaks of schemas whose references all resolve and whose annotations hold no references; a malformed or unknown reference raises in the source whatever the cycles.
- RunnerDelivery.ExecutableExactly: speaks of one moment, because decoding checks dates against the clock.
- Tools (Terraform, TFLint, Checkov, Docker) succeed or fail with arbitrary output; a failure inside the executor is one of gate, tool or other.
- The receipt's completion time, result digest and copy of the plan reference; a receipt here is a job digest and an operation.
- Bundle extraction, the input variables file, the sanitised result document and the history artifact reference.
- A `resource_changes` entry that is not an object, on the path that looks for the new application, raises in the source and is skipped here.
- JSON text, regular expressions, UUID, URL and date parsing: the model starts from decoded values and character-level predicates; letter case is ASCII only.
- `_safe_failure_category` and the remaining fields of the workflow event.
- Fields of the envelope that nothing modelled reads (such as the private state and plan containers' settings).
- The rate limiter reads its clock once per request and serves one request at a time; response headers are not modelled.
- `_dereference` and `_foundry_subset` are modelled on decoded values; `Dereference` takes the interpreter's recursion limit as a bound on nested references. Writing the generated files is not modelled, and a `$defs` that is not an object counts as empty.
- SchemaMeaning covers type, enum, const, required, properties, additionalProperties, items, allOf, anyOf, oneOf, not and references; every other keyword is an arbitrary leaf check, and conditional, `contains`, `prefixItems` and `patternProperties` schemas are excluded from the relaxation results.
- Cryptography: HMAC-SHA-1, bcrypt, Fernet and random generation are parameters; the challenge cookie, the workspace rule and the recent sign-in are yes-or-no inputs.
- Sign-in codes sent by email and phone (their generation, cooldown and attempt limits), sessions, OAuth, billing, CRUD routes and migrations would only add one-branch facts.
