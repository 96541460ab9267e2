/** The rows of the deployment queue that the fenced writers touch. */
module Tables {
  import opened Wrappers

  type Id = nat
  type Time = int

  datatype JobStatus = Queued | Running | Completed | Failed | Cancelled

  datatype Job = Job(
    deployment: Option<Id>,
    status: JobStatus,
    worker: Option<string>,
    token: Option<Id>,
    expires: Option<Time>,
    heartbeat: Option<Time>,
    attempts: nat,
    deploymentStatus: string,
    liveUrl: Option<string>,
    failureReason: Option<string>,
    startedAt: Option<Time>,
    completedAt: Option<Time>,
    updatedAt: Option<Time>,
    createdAt: Option<Time>
  )

  /** `status` is a nullable text column, so letter case and absence both matter. */
  datatype Deployment = Deployment(
    project: Id,
    status: Option<string>,
    failureReason: Option<string>,
    liveUrl: Option<string>,
    completedAt: Option<Time>,
    metadata: map<string, string>
  )

  datatype Db = Db(
    jobs: map<Id, Job>,
    deployments: map<Id, Deployment>,
    projects: map<Id, string>,
    evaluations: map<Id, string>
  )

  datatype Settings = Settings(leaseSeconds: int, maxAttempts: nat, batchSize: nat)

  /** status IN ('queued', 'building', 'deploying'); NULL is not in the list. */
  predicate Active(status: Option<string>) {
    status == Some("queued") || status == Some("building") || status == Some("deploying")
  }

  predicate ActiveIn(deployments: map<Id, Deployment>, project: Id, d: Id) {
    d in deployments && deployments[d].project == project && Active(deployments[d].status)
  }

  /** The lease columns of a claim: the row a fenced write must still find. */
  predicate Holds(db: Db, job: Id, worker: string, token: Id) {
    job in db.jobs
    && db.jobs[job].status == Running
    && db.jobs[job].worker == Some(worker)
    && db.jobs[job].token == Some(token)
  }

  function ReleaseLease(j: Job): Job {
    j.(worker := None, token := None, expires := None, heartbeat := None)
  }
}
