/**
 Every interleaving of workers, both reconcilers, the clock and crashes over the shared
 tables. A label is one committed transaction or one autocommitted statement, with two exceptions:
 `MarkDeployment` stands for the three autocommitted statements of the failure path, and `Finish`
 for a read of the deployment followed by a separate closing write.
 */
module QueueProtocol {
  import opened Wrappers
  import opened Tables
  import opened Reconcile
  import opened JobQueue
  import opened JobRunner

  /** Where a worker process stands inside `execute_job`. */
  datatype Phase =
    | Idle
    | Claimed(lease: Lease)
    | Persisted(lease: Lease)
    | Executing(lease: Lease)
    | FailPending(lease: Lease, reason: string)

  /** `issued`, `claims` and `begun` are history: tokens drawn, claims per job, boundary crossings per deployment. */
  datatype Sys = Sys(
    db: Db,
    now: Time,
    workers: map<string, Phase>,
    issued: set<Id>,
    claims: map<Id, nat>,
    begun: map<Id, nat>
  )

  datatype Label =
    | Enqueue(job: Id, deployment: Option<Id>, project: Id)
    | Pop(worker: string, job: Id, token: Id)
    | Heartbeat(lease: Lease)
    | Persist(worker: string, read: map<string, string>, artifact: string)
    | Begin(worker: string, proof: Proof)
    | PipelineWrite(worker: string, row: Deployment)
    | Finish(worker: string, run: PipelineRun)
    | Raise(worker: string, reason: string)
    | MarkDeployment(worker: string)
    | Crash(worker: string)
    | ReconcileBy(who: Who, batch: seq<Id>)
    | Tick(elapsed: nat)

  function PhaseOf(s: Sys, worker: string): Phase {
    if worker in s.workers then s.workers[worker] else Idle
  }

  function To(s: Sys, worker: string, phase: Phase): Sys {
    s.(workers := s.workers[worker := phase])
  }

  function NewJob(deployment: Option<Id>, now: Time): Job {
    Job(deployment, Queued, None, None, None, None, 0, "pending", None, None, None, None, Some(now), Some(now))
  }

  function NewDeployment(project: Id): Deployment {
    Deployment(project, Some("queued"), None, None, None, map[])
  }

  predicate Enabled(c: Settings, s: Sys, l: Label) {
    match l
    case Enqueue(job, deployment, _) =>
      job !in s.db.jobs && (deployment.Some? ==> deployment.value !in s.db.deployments)
    case Pop(worker, job, token) =>
      PhaseOf(s, worker).Idle? && job in ClaimableJobs(s.db, c.maxAttempts) && token !in s.issued
    case Heartbeat(lease) => lease.token in s.issued
    case Persist(worker, _, _) => PhaseOf(s, worker).Claimed? && MayPersist(s.db, PhaseOf(s, worker).lease)
    case Begin(worker, proof) => PhaseOf(s, worker).Persisted? && MayBegin(s.db, PhaseOf(s, worker).lease, proof)
    case PipelineWrite(worker, row) =>
      && PhaseOf(s, worker).Executing?
      && var d := PhaseOf(s, worker).lease.deployment;
         d.Some? && d.value in s.db.deployments && row.project == s.db.deployments[d.value].project
    case Finish(worker, _) => PhaseOf(s, worker).Executing?
    case Raise(worker, _) =>
      var phase := PhaseOf(s, worker);
      (phase.Claimed? || phase.Persisted? || phase.Executing?) && phase.lease.deployment.Some?
    case MarkDeployment(worker) => PhaseOf(s, worker).FailPending? && PhaseOf(s, worker).lease.deployment.Some?
    case Crash(worker) => true
    case ReconcileBy(who, batch) => IsBatch(who, s.db, batch, c, s.now)
    case Tick(_) => true
  }

  function Count(m: map<Id, nat>, id: Id): nat {
    if id in m then m[id] else 0
  }

  function RowFor(s: Sys, deployment: Option<Id>): Option<Deployment> {
    if deployment.Some? && deployment.value in s.db.deployments then Some(s.db.deployments[deployment.value]) else None
  }

  function Do(c: Settings, s: Sys, l: Label): Sys
    requires Enabled(c, s, l)
  {
    match l
    case Enqueue(job, deployment, project) =>
      var db := s.db.(jobs := s.db.jobs[job := NewJob(deployment, s.now)]);
      s.(db := if deployment.None? then db else
               db.(deployments := db.deployments[deployment.value := NewDeployment(project)],
                   projects := db.projects[project := "deploying"],
                   evaluations := db.evaluations[deployment.value := "pending"]))
    case Pop(worker, job, token) =>
      var lease := Lease(job, worker, token, s.db.jobs[job].deployment);
      To(s, worker, Claimed(lease)).(
        db := Claim(s.db, job, worker, token, c.leaseSeconds, s.now),
        issued := s.issued + {token},
        claims := s.claims[job := Count(s.claims, job) + 1])
    case Heartbeat(lease) =>
      s.(db := JobQueue.Heartbeat(s.db, lease.job, lease.worker, lease.token, c.leaseSeconds, s.now))
    case Persist(worker, read, artifact) =>
      var lease := PhaseOf(s, worker).lease;
      To(s, worker, Persisted(lease)).(db := JobRunner.Persist(s.db, lease, read, artifact))
    case Begin(worker, proof) =>
      var lease := PhaseOf(s, worker).lease;
      To(s, worker, Executing(lease)).(
        db := JobRunner.Begin(s.db, lease, proof),
        begun := s.begun[lease.deployment.value := Count(s.begun, lease.deployment.value) + 1])
    case PipelineWrite(worker, row) =>
      var d := PhaseOf(s, worker).lease.deployment.value;
      s.(db := s.db.(deployments := s.db.deployments[d := row]))
    case Finish(worker, run) =>
      var lease := PhaseOf(s, worker).lease;
      To(s, worker, Idle).(db := Close(s.db, lease, FinalMark(RowFor(s, lease.deployment), run), s.now))
    case Raise(worker, reason) =>
      var lease := PhaseOf(s, worker).lease;
      To(s, worker, if Current(s.db, lease) then FailPending(lease, reason) else Idle).(
        db := Close(s.db, lease, MarkFailed(reason), s.now))
    case MarkDeployment(worker) =>
      var phase := PhaseOf(s, worker);
      To(s, worker, Idle).(
        db := FailDeployment(Worker, phase.lease.deployment.value, phase.reason, s.db, s.now))
    case Crash(worker) => To(s, worker, Idle)
    case ReconcileBy(who, batch) => s.(db := ReconcilePass(who, s.db, batch, c, s.now))
    case Tick(elapsed) => s.(now := s.now + elapsed)
  }

  function Init(projects: map<Id, string>, now: Time): Sys {
    Sys(Db(map[], map[], projects, map[]), now, map[], {}, map[], map[])
  }

  /** A run of labels; one that is not enabled leaves the state alone. */
  function Step(c: Settings, s: Sys, l: Label): Sys {
    if Enabled(c, s, l) then Do(c, s, l) else s
  }

  function Run(c: Settings, s: Sys, ls: seq<Label>): Sys
    decreases |ls|
  {
    if ls == [] then s else Run(c, Step(c, s, ls[0]), ls[1..])
  }

  /** The one thing asked of the pipeline body: it never writes a status that reads as queued. */
  predicate Disciplined(l: Label) {
    l.PipelineWrite? ==> !LooksQueued(l.row.status)
  }

  predicate AllDisciplined(ls: seq<Label>) {
    forall l <- ls :: Disciplined(l)
  }
}
