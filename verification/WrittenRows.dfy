/** What every step of the queue writes, and when a claim may be taken away: in every run, in the rows' own words. */
module WrittenRows {
  import opened Wrappers
  import opened Tables
  import opened Reconcile
  import opened JobQueue
  import opened JobRunner
  import opened PassMeaning
  import opened DrainLaws
  import opened QueueProtocol
  import opened QueueInvariant
  import opened SettledRows

  /** A state that some disciplined run from empty tables leads to. */
  ghost predicate InSomeRun(c: Settings, s: Sys) {
    exists projects: map<Id, string>, now: Time, ls: seq<Label> ::
      AllDisciplined(ls) && s == Run(c, Init(projects, now), ls)
  }

  // ---- Claims carry their own clock -----------------------------------------------------

  /** A running job expires exactly one lease after its last heartbeat; every job knows when it was created. */
  ghost predicate Clocked(c: Settings, j: Job) {
    && j.createdAt.Some?
    && (j.status == Running ==> j.heartbeat.Some? && j.expires == Some(j.heartbeat.value + c.leaseSeconds))
  }

  ghost predicate AllClocked(c: Settings, s: Sys) {
    forall id <- s.db.jobs.Keys :: Clocked(c, s.db.jobs[id])
  }

  lemma SettledClock(who: Who, r: Row, j: Job, max: nat, now: Time)
    ensures SettleJob(who, r, j, max, now).createdAt == j.createdAt && SettleJob(who, r, j, max, now).status != Running
  {
  }

  lemma PassClocked(c: Settings, s: Sys, l: Label, id: Id)
    requires Inv(c, s) && AllClocked(c, s) && Enabled(c, s, l) && l.ReconcileBy? && id in Do(c, s, l).db.jobs
    ensures Clocked(c, Do(c, s, l).db.jobs[id])
  {
    hide IsBatch, ReconcilePass, OneJobPerDeployment, TokensDistinct, JobOk, DeploymentOk, WorkerOk, SettleJob;
    PassOnJob(l.who, s.db, l.batch, c, s.now, id);
    if id in l.batch {
      SettledByRow(l.who, s.db, l.batch, c, s.now, id);
      SettledClock(l.who, RowOf(s.db, id), s.db.jobs[id], c.maxAttempts, s.now);
    }
  }

  lemma ClaimClocked(c: Settings, s: Sys, l: Label, id: Id)
    requires AllClocked(c, s) && Enabled(c, s, l) && id in Do(c, s, l).db.jobs
    requires l.Enqueue? || l.Pop? || l.Heartbeat?
    ensures Clocked(c, Do(c, s, l).db.jobs[id])
  {
    if id in s.db.jobs { assert Clocked(c, s.db.jobs[id]); }
  }

  lemma CloseClocked(c: Settings, s: Sys, l: Label, id: Id)
    requires AllClocked(c, s) && Enabled(c, s, l) && id in Do(c, s, l).db.jobs && (l.Finish? || l.Raise?)
    ensures Clocked(c, Do(c, s, l).db.jobs[id])
  {
    hide FinalMark;
    assert Clocked(c, s.db.jobs[id]);
  }

  lemma OtherClocked(c: Settings, s: Sys, l: Label, id: Id)
    requires AllClocked(c, s) && Enabled(c, s, l) && id in Do(c, s, l).db.jobs
    requires !l.Enqueue? && !l.Pop? && !l.Heartbeat? && !l.Finish? && !l.Raise? && !l.ReconcileBy?
    ensures Clocked(c, Do(c, s, l).db.jobs[id])
  {
    hide FailDeployment, MayBegin, MayPersist, Begun;
    if l.MarkDeployment? {
      FailureKeepsJobs(s.db, PhaseOf(s, l.worker).lease.deployment.value, PhaseOf(s, l.worker).reason, s.now);
    }
    assert Clocked(c, s.db.jobs[id]);
  }

  lemma StepClocked(c: Settings, s: Sys, l: Label)
    requires Inv(c, s) && AllClocked(c, s)
    ensures AllClocked(c, Step(c, s, l))
  {
    hide Inv, Do, Enabled, Clocked;
    if Enabled(c, s, l) {
      forall id | id in Do(c, s, l).db.jobs ensures Clocked(c, Do(c, s, l).db.jobs[id]) {
        match l
        case ReconcileBy(_, _) => PassClocked(c, s, l, id);
        case Enqueue(_, _, _) => ClaimClocked(c, s, l, id);
        case Pop(_, _, _) => ClaimClocked(c, s, l, id);
        case Heartbeat(_) => ClaimClocked(c, s, l, id);
        case Finish(_, _) => CloseClocked(c, s, l, id);
        case Raise(_, _) => CloseClocked(c, s, l, id);
        case _ => OtherClocked(c, s, l, id);
      }
    }
  }

  lemma StepInv(c: Settings, s: Sys, l: Label)
    requires Inv(c, s) && Disciplined(l) && 0 < c.maxAttempts
    ensures Inv(c, Step(c, s, l))
  {
    hide Inv, Do, Enabled;
    if Enabled(c, s, l) { StepKeeps(c, s, l); }
  }

  lemma {:induction false} RunClocked(c: Settings, s: Sys, ls: seq<Label>)
    requires Inv(c, s) && AllClocked(c, s) && AllDisciplined(ls) && 0 < c.maxAttempts
    ensures AllClocked(c, Run(c, s, ls))
    decreases |ls|
  {
    hide Inv, AllClocked, Step, Disciplined;
    if ls != [] {
      assert Disciplined(ls[0]) && AllDisciplined(ls[1..]);
      StepClocked(c, s, ls[0]);
      StepInv(c, s, ls[0]);
      RunClocked(c, Step(c, s, ls[0]), ls[1..]);
    }
  }

  lemma RunFacts(c: Settings, s: Sys)
    requires InSomeRun(c, s) && 0 < c.maxAttempts
    ensures Inv(c, s) && AllClocked(c, s)
  {
    hide Run, Inv, Init;
    var projects: map<Id, string>, now: Time, ls: seq<Label> :| AllDisciplined(ls) && s == Run(c, Init(projects, now), ls);
    ReachableInv(c, projects, now, ls);
    InitHolds(c, projects, now);
    assert AllClocked(c, Init(projects, now)) by { NoJobs(c, projects, now); }
    RunClocked(c, Init(projects, now), ls);
  }

  lemma NoJobs(c: Settings, projects: map<Id, string>, now: Time)
    ensures AllClocked(c, Init(projects, now))
  {
  }

  /** In every run, what either reconciler may lock is exactly any choice of distinct running jobs, at
      most the batch size, whose last heartbeat lies more than one lease back. */
  lemma BatchExactly(c: Settings, s: Sys, who: Who, batch: seq<Id>)
    requires InSomeRun(c, s) && 0 < c.maxAttempts
    ensures IsBatch(who, s.db, batch, c, s.now) <==>
              && |batch| <= c.batchSize
              && (forall i, j :: 0 <= i < j < |batch| ==> batch[i] != batch[j])
              && forall id <- batch ::
                   && id in s.db.jobs && s.db.jobs[id].status == JobStatus.Running && s.db.jobs[id].heartbeat.Some?
                   && s.db.jobs[id].heartbeat.value + c.leaseSeconds < s.now
  {
    hide Inv, InSomeRun;
    RunFacts(c, s);
    forall id <- batch
      ensures id in StaleJobs(who, s.db, s.now, c.leaseSeconds) <==>
                id in s.db.jobs && s.db.jobs[id].status == Running && s.db.jobs[id].heartbeat.Some?
                && s.db.jobs[id].heartbeat.value + c.leaseSeconds < s.now
    {
      if id in s.db.jobs { assert Clocked(c, s.db.jobs[id]); }
    }
  }

  /** Without an expiry, which no run leads to, each query falls back in its own way: the worker's to the
      first time that stands in the row, the API's to the modification time alone. */
  lemma StaleWithoutExpiry(db: Db, now: Time, lease: int, id: Id)
    requires id in db.jobs && db.jobs[id].expires.None?
    ensures var j := db.jobs[id];
            && (id in StaleJobs(Worker, db, now, lease) <==>
                  j.status == JobStatus.Running
                  && (if j.updatedAt.Some? then j.updatedAt.value else if j.startedAt.Some? then j.startedAt.value
                      else if j.createdAt.Some? then j.createdAt.value else 0) + lease < now)
            && (id in StaleJobs(Api, db, now, lease) <==>
                  j.status == JobStatus.Running && (j.updatedAt.None? || j.updatedAt.value + lease < now))
  {
  }

  /** So a claim renewed within the last lease is safe from both reconcilers. */
  lemma RenewedClaimIsSafe(c: Settings, s: Sys, who: Who, batch: seq<Id>, id: Id)
    requires InSomeRun(c, s) && 0 < c.maxAttempts && Enabled(c, s, ReconcileBy(who, batch))
    requires id in s.db.jobs && s.db.jobs[id].heartbeat.Some? && s.now - s.db.jobs[id].heartbeat.value <= c.leaseSeconds
    ensures id !in batch && id in Step(c, s, ReconcileBy(who, batch)).db.jobs
    ensures Step(c, s, ReconcileBy(who, batch)).db.jobs[id] == s.db.jobs[id]
  {
    hide InSomeRun, ReconcilePass, IsBatch, OneJobPerDeployment, TokensDistinct, JobOk, DeploymentOk, WorkerOk;
    RunFacts(c, s);
    BatchExactly(c, s, who, batch);
    PassOnJob(who, s.db, batch, c, s.now, id);
  }

  /** In every run the job a worker may take first was created no later than any other that is queued,
      has attempts left and is not locked. */
  lemma OldestWasCreatedFirst(c: Settings, s: Sys, locked: set<Id>, id: Id, other: Id)
    requires InSomeRun(c, s) && 0 < c.maxAttempts && Oldest(s.db, ClaimableJobs(s.db, c.maxAttempts) - locked, id)
    requires other in s.db.jobs && s.db.jobs[other].status == JobStatus.Queued
    requires s.db.jobs[other].attempts < c.maxAttempts && other !in locked
    ensures id in s.db.jobs && s.db.jobs[id].createdAt.Some? && s.db.jobs[other].createdAt.Some?
    ensures s.db.jobs[id].createdAt.value <= s.db.jobs[other].createdAt.value
  {
    hide InSomeRun, Inv;
    RunFacts(c, s);
    assert Clocked(c, s.db.jobs[id]) && Clocked(c, s.db.jobs[other]);
    assert other in ClaimableJobs(s.db, c.maxAttempts);
  }

  // ---- What each step writes ------------------------------------------------------------

  /** A request: a job that waits, with a queued deployment, a deploying project and a pending evaluation. */
  lemma RequestWrites(c: Settings, s: Sys, job: Id, deployment: Option<Id>, project: Id)
    requires Enabled(c, s, Enqueue(job, deployment, project))
    ensures var v := Step(c, s, Enqueue(job, deployment, project)).db;
            && v.jobs == s.db.jobs[job := Job(deployment, JobStatus.Queued, None, None, None, None, 0, "pending", None, None, None,
                                              None, Some(s.now), Some(s.now))]
            && v.deployments == (if deployment.None? then s.db.deployments else
                 s.db.deployments[deployment.value := Deployment(project, Some("queued"), None, None, None, map[])])
            && v.projects == (if deployment.None? then s.db.projects else s.db.projects[project := "deploying"])
            && v.evaluations == (if deployment.None? then s.db.evaluations else s.db.evaluations[deployment.value := "pending"])
  {
  }

  /** A claim: the claimed row, the worker's lease, and nothing else in the tables. */
  lemma ClaimWrites(c: Settings, s: Sys, worker: string, job: Id, token: Id)
    requires Enabled(c, s, Pop(worker, job, token))
    ensures job in s.db.jobs && s.db.jobs[job].status == JobStatus.Queued && s.db.jobs[job].attempts < c.maxAttempts
    ensures var v := Step(c, s, Pop(worker, job, token));
            && job in v.db.jobs && Claims(s.db.jobs[job], v.db.jobs[job], worker, token, c.leaseSeconds, s.now)
            && v.db == s.db.(jobs := s.db.jobs[job := v.db.jobs[job]])
            && PhaseOf(v, worker) == Claimed(Lease(job, worker, token, s.db.jobs[job].deployment))
  {
  }

  /** A heartbeat: the three times of its own running job, and nothing else. */
  lemma HeartbeatWrites(c: Settings, s: Sys, lease: Lease)
    requires Enabled(c, s, Label.Heartbeat(lease))
    ensures var v := Step(c, s, Label.Heartbeat(lease));
            if lease.job in s.db.jobs && s.db.jobs[lease.job].status == JobStatus.Running
               && s.db.jobs[lease.job].worker == Some(lease.worker) && s.db.jobs[lease.job].token == Some(lease.token)
            then lease.job in v.db.jobs && Renews(s.db.jobs[lease.job], v.db.jobs[lease.job], c.leaseSeconds, s.now)
                 && v == s.(db := s.db.(jobs := s.db.jobs[lease.job := v.db.jobs[lease.job]]))
            else v == s
  {
  }

  /** The artifact: recorded exactly by the owner of a queued deployment, beside the metadata it read. */
  lemma ArtifactWrites(c: Settings, s: Sys, worker: string, read: map<string, string>, artifact: string)
    ensures Enabled(c, s, Label.Persist(worker, read, artifact)) <==>
              PhaseOf(s, worker).Claimed? && OwnsQueued(s.db, PhaseOf(s, worker).lease)
    ensures Enabled(c, s, Label.Persist(worker, read, artifact)) ==>
              var v := Step(c, s, Label.Persist(worker, read, artifact));
              var d := PhaseOf(s, worker).lease.deployment.value;
              && v.db == s.db.(deployments := s.db.deployments[d := s.db.deployments[d].(metadata := read["internal_iac" := artifact])])
              && PhaseOf(v, worker) == Persisted(PhaseOf(s, worker).lease)
  {
  }

  /** The boundary: crossed exactly by the owner of a queued deployment whose proof holds, and then
      only the deployment's status and its two flags move. */
  lemma BoundaryWrites(c: Settings, s: Sys, worker: string, proof: Proof)
    ensures Enabled(c, s, Label.Begin(worker, proof)) <==>
              PhaseOf(s, worker).Persisted? && OwnsQueued(s.db, PhaseOf(s, worker).lease) && proof.bound
    ensures Enabled(c, s, Label.Begin(worker, proof)) ==>
              var v := Step(c, s, Label.Begin(worker, proof));
              var d := PhaseOf(s, worker).lease.deployment.value;
              && d in v.db.deployments && Crossed(s.db.deployments[d], v.db.deployments[d], proof.reused)
              && v.db == s.db.(deployments := s.db.deployments[d := v.db.deployments[d]])
              && PhaseOf(v, worker) == Executing(PhaseOf(s, worker).lease)
  {
  }

  /** In every run a returned pipeline closes its job by the statuses that stand in its deployment and
      its latest pipeline run, or writes nothing when the lease is gone. */
  lemma FinishWrites(c: Settings, s: Sys, worker: string, run: PipelineRun)
    requires InSomeRun(c, s) && 0 < c.maxAttempts && Enabled(c, s, Finish(worker, run))
    ensures var v, lease := Step(c, s, Finish(worker, run)), PhaseOf(s, worker).lease;
            && lease.deployment.Some? && lease.job in s.db.jobs && lease.deployment.value in s.db.deployments
            && PhaseOf(v, worker) == Idle
            && (if Current(s.db, lease)
                then lease.job in v.db.jobs
                     && ClosedAfter(s.db.jobs[lease.job], v.db.jobs[lease.job], Some(s.db.deployments[lease.deployment.value]), run, s.now)
                     && v.db == s.db.(jobs := s.db.jobs[lease.job := v.db.jobs[lease.job]])
                else v.db == s.db)
  {
    RunFacts(c, s);
    hide InSomeRun, TokensDistinct, OneJobPerDeployment, DeploymentOk, AllClocked, FinalMark, EndsWell, Run, LooksQueued;
    var lease := PhaseOf(s, worker).lease;
    assert WorkerOk(s, s.workers[worker]) && JobOk(c, s, lease.job);
    FinalMarkCloses(s.db.jobs[lease.job], Some(s.db.deployments[lease.deployment.value]), run, s.now);
  }

  /** An exception closes a current job as failed and leaves the deployment for the next step; then that
      step fails what is still under way. */
  lemma FailureWrites(c: Settings, s: Sys, worker: string, reason: string)
    ensures Enabled(c, s, Raise(worker, reason)) ==>
              var v, lease := Step(c, s, Raise(worker, reason)), PhaseOf(s, worker).lease;
              if Current(s.db, lease)
              then && lease.job in v.db.jobs && FailedWith(s.db.jobs[lease.job], v.db.jobs[lease.job], reason, s.now)
                   && v.db == s.db.(jobs := s.db.jobs[lease.job := v.db.jobs[lease.job]])
                   && PhaseOf(v, worker) == FailPending(lease, reason)
              else v.db == s.db && PhaseOf(v, worker) == Idle
    ensures Enabled(c, s, MarkDeployment(worker)) ==>
              var v, phase := Step(c, s, MarkDeployment(worker)), PhaseOf(s, worker);
              && v.db.jobs == s.db.jobs && PhaseOf(v, worker) == Idle
              && DeploymentFails(s.db, v.db, phase.lease.deployment.value, phase.reason, s.now)
  {
    hide FailDeployment, DeploymentFails;
    if Enabled(c, s, MarkDeployment(worker)) {
      DeploymentFailsRows(s.db, PhaseOf(s, worker).lease.deployment.value, PhaseOf(s, worker).reason, s.now);
      FailureKeepsJobs(s.db, PhaseOf(s, worker).lease.deployment.value, PhaseOf(s, worker).reason, s.now);
    }
  }

  lemma FailureKeepsJobs(db: Db, d: Id, reason: string, now: Time)
    ensures FailDeployment(Worker, d, reason, db, now).jobs == db.jobs
  {
  }
}
