/** worker/terraform_runner.py: the fenced writes of one worker, and the order it issues them in. */
module JobRunner {
  import opened Wrappers
  import opened Tables
  import opened JobQueue
  import opened Reconcile

  /** The claim a worker carries: `job["deployment_id"]` as it was when the job was popped. */
  datatype Lease = Lease(job: Id, worker: string, token: Id, deployment: Option<Id>)

  predicate Current(db: Db, lease: Lease) {
    Holds(db, lease.job, lease.worker, lease.token)
  }

  // ---- The boundary ---------------------------------------------------------------------

  /** `reused` picks the branch; `bound` says the plan, run and digest conditions still hold. */
  datatype Proof = Proof(reused: bool, bound: bool)

  predicate MayBegin(db: Db, lease: Lease, proof: Proof) {
    && Current(db, lease)
    && lease.deployment.Some?
    && db.jobs[lease.job].deployment == lease.deployment
    && lease.deployment.value in db.deployments
    && db.deployments[lease.deployment.value].status == Some("queued")
    && proof.bound
  }

  function Begun(d: Deployment, reused: bool): Deployment {
    var building := d.(status := Some("building"));
    if reused
    then building.(metadata := d.metadata["app_service_reused" := "true"]["terraform_apply_required" := "false"])
    else building
  }

  function Begin(db: Db, lease: Lease, proof: Proof): Db {
    if !MayBegin(db, lease, proof) then db else
    var d := lease.deployment.value;
    db.(deployments := db.deployments[d := Begun(db.deployments[d], proof.reused)])
  }

  predicate MayPersist(db: Db, lease: Lease) {
    && Current(db, lease)
    && lease.deployment.Some?
    && db.jobs[lease.job].deployment == lease.deployment
    && lease.deployment.value in db.deployments
    && db.deployments[lease.deployment.value].status == Some("queued")
  }

  /** `read` is the metadata an earlier statement selected; the merge is written whole. */
  function Persist(db: Db, lease: Lease, read: map<string, string>, artifact: string): Db {
    if !MayPersist(db, lease) then db else
    var d := lease.deployment.value;
    db.(deployments := db.deployments[d := db.deployments[d].(metadata := read["internal_iac" := artifact])])
  }

  // ---- Closing the job ------------------------------------------------------------------

  datatype Mark = MarkCompleted(liveUrl: Option<string>, deployed: bool) | MarkFailed(reason: string)

  function Marked(j: Job, mark: Mark, now: Time): Job {
    var closed := ReleaseLease(j).(completedAt := Some(now), updatedAt := Some(now));
    match mark
    case MarkCompleted(liveUrl, deployed) =>
      closed.(status := JobStatus.Completed, failureReason := None, liveUrl := liveUrl.Or(j.liveUrl),
              deploymentStatus := if deployed then "completed" else j.deploymentStatus)
    case MarkFailed(reason) =>
      closed.(status := JobStatus.Failed, failureReason := Some(reason), deploymentStatus := "failed")
  }

  function Close(db: Db, lease: Lease, mark: Mark, now: Time): Db {
    if !Current(db, lease) then db else
    db.(jobs := db.jobs[lease.job := Marked(db.jobs[lease.job], mark, now)])
  }

  datatype PipelineRun = PipelineRun(status: Option<string>, failureCode: Option<string>)
  datatype Outcome = Deployed | ValidationCompleted | ApprovalRequired | NotVerified

  /** `run` is the latest pipeline run; no run reads as NULLs. */
  function PipelineJobOutcome(deployment: Option<Deployment>, run: PipelineRun): Outcome {
    if deployment.None? then NotVerified else
    var status := deployment.value.status;
    if status == Some("running") && (run.status.None? || run.status == Some("succeeded")) then Deployed
    else if status == Some("stopped") && run.status == Some("succeeded") then ValidationCompleted
    else if status == Some("stopped") && run.status == Some("blocked")
            && run.failureCode == Some("DEPLOYMENT_APPROVAL_REQUIRED") then ApprovalRequired
    else NotVerified
  }

  const UNVERIFIED := "The deployment pipeline did not verify a running application."

  function FinalMark(deployment: Option<Deployment>, run: PipelineRun): Mark {
    var outcome := PipelineJobOutcome(deployment, run);
    if outcome == NotVerified then
      MarkFailed(if deployment.Some? then OrElse(deployment.value.failureReason, UNVERIFIED) else UNVERIFIED)
    else
      MarkCompleted(if outcome == Deployed then deployment.value.liveUrl else None, outcome == Deployed)
  }

  // ---- The rows these writes leave ------------------------------------------------------

  /** A failed claim closes its job and then fails its deployment; without the lease nothing happens. */
  ghost predicate FailsUnder(before: Db, after: Db, lease: Lease, reason: string, now: Time)
    requires lease.deployment.Some?
  {
    if Current(before, lease)
    then lease.job in after.jobs && FailedWith(before.jobs[lease.job], after.jobs[lease.job], reason, now)
         && after.jobs == before.jobs[lease.job := after.jobs[lease.job]]
         && DeploymentFails(before, after, lease.deployment.value, reason, now)
    else after == before
  }

  /** The pipeline left proof that the job is done: a running application with no run or a succeeded
      one, a stopped one whose validation succeeded, or a stopped one that waits for approval. */
  ghost predicate EndsWell(row: Option<Deployment>, run: PipelineRun) {
    row.Some? &&
    (|| (row.value.status == Some("running") && run.status in {None, Some("succeeded")})
     || (row.value.status == Some("stopped") && run.status == Some("succeeded"))
     || (row.value.status == Some("stopped") && run.status == Some("blocked")
         && run.failureCode == Some("DEPLOYMENT_APPROVAL_REQUIRED")))
  }

  /** The job row after the pipeline returned: completed if it ended well, with the deployment's
      address and status only when the application runs, and failed with a reason otherwise. */
  ghost predicate ClosedAfter(j: Job, k: Job, row: Option<Deployment>, run: PipelineRun, now: Time) {
    var runs := row.Some? && row.value.status == Some("running");
    k == if EndsWell(row, run) then
           Job(j.deployment, JobStatus.Completed, None, None, None, None, j.attempts,
               if runs then "completed" else j.deploymentStatus,
               if runs && row.value.liveUrl.Some? then row.value.liveUrl else j.liveUrl,
               None, j.startedAt, Some(now), Some(now), j.createdAt)
         else
           Job(j.deployment, JobStatus.Failed, None, None, None, None, j.attempts, "failed", j.liveUrl,
               if row.Some? && row.value.failureReason.Some? && |row.value.failureReason.value| > 0 then row.value.failureReason
               else Some("The deployment pipeline did not verify a running application."),
               j.startedAt, Some(now), Some(now), j.createdAt)
  }

  lemma FinalMarkCloses(j: Job, row: Option<Deployment>, run: PipelineRun, now: Time)
    ensures ClosedAfter(j, Marked(j, FinalMark(row, run), now), row, run, now)
    ensures FinalMark(row, run).MarkCompleted? <==> EndsWell(row, run)
  {
  }

  /** The job row after an exception. */
  ghost predicate FailedWith(j: Job, k: Job, reason: string, now: Time) {
    k == Job(j.deployment, JobStatus.Failed, None, None, None, None, j.attempts, "failed", j.liveUrl, Some(reason),
             j.startedAt, Some(now), Some(now), j.createdAt)
  }

  /** The deployment row once the boundary is crossed. */
  ghost predicate Crossed(d: Deployment, e: Deployment, reused: bool) {
    && e.project == d.project && e.failureReason == d.failureReason && e.liveUrl == d.liveUrl && e.completedAt == d.completedAt
    && e.status == Some("building")
    && (forall key :: key !in {"app_service_reused", "terraform_apply_required"} || !reused ==>
          (key in e.metadata <==> key in d.metadata) && (key in d.metadata ==> e.metadata[key] == d.metadata[key]))
    && (reused ==> && "app_service_reused" in e.metadata && e.metadata["app_service_reused"] == "true"
                   && "terraform_apply_required" in e.metadata && e.metadata["terraform_apply_required"] == "false")
  }

  /** The lease still owns a queued deployment of its job. */
  ghost predicate OwnsQueued(db: Db, lease: Lease) {
    && lease.job in db.jobs && db.jobs[lease.job].status == Running
    && db.jobs[lease.job].worker == Some(lease.worker) && db.jobs[lease.job].token == Some(lease.token)
    && lease.deployment.Some? && db.jobs[lease.job].deployment == lease.deployment
    && lease.deployment.value in db.deployments && db.deployments[lease.deployment.value].status == Some("queued")
  }

  /** Everything outside the tables that decides how one execution goes. */
  datatype Script = Script(
    ownsAtStart: bool,
    input: Result<(), string>,
    artifact: Result<string, string>,
    ownsBeforeCloud: bool,
    proof: Result<Proof, string>
  )

  /** Why an execution ends before the pipeline body, or None if the boundary is crossed; the first
      obstacle in source order counts. */
  ghost function Stopped(db: Db, lease: Lease, script: Script): Option<string>
    requires lease.deployment.Some?
  {
    if !script.ownsAtStart then Some("The deployment lease was lost before execution started.")
    else if script.input.Err? then Some(script.input.error)
    else if script.artifact.Err? then Some(script.artifact.error)
    else if lease.deployment.value !in db.deployments then Some("The deployment record is no longer available to this worker.")
    else if !OwnsQueued(db, lease) then Some("The deployment lease was lost before artifact metadata was recorded.")
    else if !script.ownsBeforeCloud then Some("The deployment lease was lost before cloud execution started.")
    else if script.proof.Err? then Some(script.proof.error)
    else if !script.proof.value.bound then Some("The deployment lease was lost or the release already crossed its execution boundary.")
    else None
  }

  /** The tables when an execution ends early: the artifact is recorded if it came that far. */
  ghost function Prepared(db: Db, lease: Lease, script: Script): Db {
    if script.ownsAtStart && script.input.Ok? && script.artifact.Ok? && OwnsQueued(db, lease)
    then var d := lease.deployment.value;
         db.(deployments := db.deployments[d :=
               db.deployments[d].(metadata := db.deployments[d].metadata["internal_iac" := script.artifact.value])])
    else db
  }

  /** The tables the pipeline body starts from: the deployment is building, with the artifact and,
      for a reused service, the two flags in its metadata; nothing else has moved. */
  ghost predicate Enters(before: Db, after: Db, lease: Lease, artifact: string, reused: bool) {
    && lease.deployment.Some? && lease.deployment.value in before.deployments && lease.deployment.value in after.deployments
    && after == before.(deployments := before.deployments[lease.deployment.value := after.deployments[lease.deployment.value]])
    && Crossed(before.deployments[lease.deployment.value].(metadata :=
                 before.deployments[lease.deployment.value].metadata["internal_iac" := artifact]),
               after.deployments[lease.deployment.value], reused)
  }

  /** The opaque pipeline body: any effect on the tables, an exception or a normal return. */
  datatype PipelineEffect = PipelineEffect(db: Db, raised: Option<string>, run: PipelineRun)

  const LOST_AT_START := "The deployment lease was lost before execution started."
  const LOST_BEFORE_CLOUD := "The deployment lease was lost before cloud execution started."
  const LOST_ARTIFACT := "The deployment lease was lost before artifact metadata was recorded."
  const NO_DEPLOYMENT := "The deployment record is no longer available to this worker."
  const ALREADY_CROSSED := "The deployment lease was lost or the release already crossed its execution boundary."

  class TerraformRunner {
    const db: Database

    constructor (db: Database)
      ensures this.db == db
    {
      this.db := db;
    }

    method MarkJob(lease: Lease, mark: Mark, now: Time) returns (written: bool)
      modifies db
      ensures written <==> Current(old(db.Rows()), lease)
      ensures db.Rows() == Close(old(db.Rows()), lease, mark, now)
    {
      written := lease.job in db.jobs && db.jobs[lease.job].status == Running
                 && db.jobs[lease.job].worker == Some(lease.worker) && db.jobs[lease.job].token == Some(lease.token);
      if written {
        var j := db.jobs[lease.job];
        var closed := j.(completedAt := Some(now), worker := None, token := None, expires := None,
                         heartbeat := None, updatedAt := Some(now));
        match mark {
          case MarkCompleted(liveUrl, deployed) =>
            closed := closed.(status := JobStatus.Completed, failureReason := None, liveUrl := liveUrl.Or(j.liveUrl));
            if deployed { closed := closed.(deploymentStatus := "completed"); }
          case MarkFailed(reason) =>
            closed := closed.(status := JobStatus.Failed, failureReason := Some(reason), deploymentStatus := "failed");
        }
        db.jobs := db.jobs[lease.job := closed];
      }
    }

    method PersistInternalIac(lease: Lease, artifact: string) returns (written: bool)
      modifies db
      ensures written <==> MayPersist(old(db.Rows()), lease)
      ensures written <==> OwnsQueued(old(db.Rows()), lease)
      ensures written ==> db.Rows() == Persist(old(db.Rows()), lease,
                            old(db.deployments)[lease.deployment.value].metadata, artifact)
      ensures !written ==> db.Rows() == old(db.Rows())
    {
      if lease.deployment.None? || lease.deployment.value !in db.deployments {
        return false;
      }
      var d := lease.deployment.value;
      var row := db.deployments[d];
      written := row.status == Some("queued") && lease.job in db.jobs
                 && db.jobs[lease.job].deployment == Some(d) && db.jobs[lease.job].status == Running
                 && db.jobs[lease.job].worker == Some(lease.worker) && db.jobs[lease.job].token == Some(lease.token);
      if written {
        db.deployments := db.deployments[d := row.(metadata := row.metadata["internal_iac" := artifact])];
      }
    }

    method BeginPipeline(lease: Lease, proof: Proof) returns (crossed: bool)
      modifies db
      ensures crossed <==> MayBegin(old(db.Rows()), lease, proof)
      ensures db.Rows() == Begin(old(db.Rows()), lease, proof)
      ensures crossed <==> OwnsQueued(old(db.Rows()), lease) && proof.bound
      ensures crossed ==>
                var d := lease.deployment.value;
                && d in db.deployments && Crossed(old(db.deployments)[d], db.deployments[d], proof.reused)
                && db.Rows() == old(db.Rows()).(deployments := old(db.deployments)[d := db.deployments[d]])
    {
      var owned := lease.job in db.jobs && db.jobs[lease.job].status == Running
                   && db.jobs[lease.job].worker == Some(lease.worker) && db.jobs[lease.job].token == Some(lease.token);
      crossed := owned && lease.deployment.Some? && db.jobs[lease.job].deployment == lease.deployment
                 && lease.deployment.value in db.deployments
                 && db.deployments[lease.deployment.value].status == Some("queued") && proof.bound;
      if crossed {
        var d := lease.deployment.value;
        var row := db.deployments[d].(status := Some("building"));
        if proof.reused {
          row := row.(metadata := row.metadata["app_service_reused" := "true"]["terraform_apply_required" := "false"]);
        }
        db.deployments := db.deployments[d := row];
      }
    }

    /** The tail of the `try` block: the deployment is read, classified and mirrored into the job. */
    method FinishJob(lease: Lease, run: PipelineRun, now: Time) returns (succeeded: bool)
      requires lease.deployment.Some?
      modifies db
      ensures var row := if lease.deployment.value in old(db.deployments)
                         then Some(old(db.deployments)[lease.deployment.value]) else None;
              && (succeeded <==> Current(old(db.Rows()), lease) && EndsWell(row, run))
              && (if Current(old(db.Rows()), lease)
                  then lease.job in db.jobs && ClosedAfter(old(db.jobs)[lease.job], db.jobs[lease.job], row, run, now)
                       && db.Rows() == old(db.Rows()).(jobs := old(db.jobs)[lease.job := db.jobs[lease.job]])
                  else db.Rows() == old(db.Rows()))
    {
      var row := if lease.deployment.value in db.deployments
                 then Some(db.deployments[lease.deployment.value]) else None;
      var mark := FinalMark(row, run);
      if Current(db.Rows(), lease) {
        FinalMarkCloses(db.jobs[lease.job], row, run, now);
      }
      var closed := MarkJob(lease, mark, now);
      succeeded := mark.MarkCompleted? && closed;
    }

    /** The `except` branch: the deployment is failed only if this lease still closed its job. */
    method FailJob(lease: Lease, reason: string, now: Time)
      requires lease.deployment.Some?
      modifies db
      ensures var marked := Close(old(db.Rows()), lease, MarkFailed(reason), now);
              db.Rows() == if Current(old(db.Rows()), lease)
                           then FailDeployment(Worker, lease.deployment.value, reason, marked, now)
                           else old(db.Rows())
      ensures FailsUnder(old(db.Rows()), db.Rows(), lease, reason, now)
    {
      var written := MarkJob(lease, MarkFailed(reason), now);
      if written {
        db.FailDeployment(lease.deployment.value, reason, now);
      }
    }

    /**
     One queue item from start to finish, with nobody else writing in between. `effect` is what the
     pipeline body did, if it ran: the boundary is crossed exactly then.
     */
    method ExecuteJob(lease: Lease, script: Script, pipeline: Db -> PipelineEffect, now: Time)
      returns (succeeded: bool, effect: Option<PipelineEffect>)
      requires lease.deployment.Some?
      modifies db
      ensures !Current(old(db.Rows()), lease) ==> db.Rows() == old(db.Rows()) && effect.None? && !succeeded
      ensures effect.Some? ==> MayPersist(old(db.Rows()), lease)
      ensures succeeded ==> effect.Some? && lease.job in db.jobs && db.jobs[lease.job].status == JobStatus.Completed
      ensures Current(old(db.Rows()), lease) && effect.None? ==>
                && lease.job in db.jobs && db.jobs[lease.job].status == JobStatus.Failed
                && (lease.deployment.value in db.deployments ==> !Active(db.deployments[lease.deployment.value].status))
      ensures effect.Some? <==> Stopped(old(db.Rows()), lease, script).None?
      ensures effect.None? ==>
                && !succeeded
                && FailsUnder(Prepared(old(db.Rows()), lease, script), db.Rows(), lease,
                              Stopped(old(db.Rows()), lease, script).value, now)
      ensures effect.Some? ==>
                && (exists entered :: effect.value == pipeline(entered)
                                      && Enters(old(db.Rows()), entered, lease, script.artifact.value, script.proof.value.reused))
                && (effect.value.raised.Some? ==>
                      !succeeded && FailsUnder(effect.value.db, db.Rows(), lease, effect.value.raised.value, now))
                && (effect.value.raised.None? ==>
                      var after := effect.value.db;
                      var row := if lease.deployment.value in after.deployments then Some(after.deployments[lease.deployment.value]) else None;
                      && (succeeded <==> Current(after, lease) && EndsWell(row, effect.value.run))
                      && (if Current(after, lease)
                          then lease.job in db.jobs && ClosedAfter(after.jobs[lease.job], db.jobs[lease.job], row, effect.value.run, now)
                               && db.Rows() == after.(jobs := after.jobs[lease.job := db.jobs[lease.job]])
                          else db.Rows() == after))
    {
      succeeded, effect := false, None;
      ghost var start := db.Rows();
      var raised: Option<string> := None;
      if !script.ownsAtStart {
        raised := Some(LOST_AT_START);
      } else if script.input.Err? {
        raised := Some(script.input.error);
      } else if script.artifact.Err? {
        raised := Some(script.artifact.error);
      } else {
        var known := lease.deployment.value in db.deployments;
        var written := PersistInternalIac(lease, script.artifact.value);
        if !written {
          raised := Some(if known then LOST_ARTIFACT else NO_DEPLOYMENT);
        } else if !script.ownsBeforeCloud {
          raised := Some(LOST_BEFORE_CLOUD);
        } else if script.proof.Err? {
          raised := Some(script.proof.error);
        } else {
          var crossed := BeginPipeline(lease, script.proof.value);
          if !crossed {
            raised := Some(ALREADY_CROSSED);
          } else {
            effect := Some(pipeline(db.Rows()));
            assert Enters(start, db.Rows(), lease, script.artifact.value, script.proof.value.reused);
            db.jobs, db.deployments := effect.value.db.jobs, effect.value.db.deployments;
            db.projects, db.evaluations := effect.value.db.projects, effect.value.db.evaluations;
            if effect.value.raised.Some? {
              raised := effect.value.raised;
            } else {
              succeeded := FinishJob(lease, effect.value.run, now);
            }
          }
        }
      }
      if raised.Some? {
        FailJob(lease, raised.value, now);
      }
    }
  }
}
