/**
 Reconciliation of expired claims, as pure row updates.

 Two routines share the tables: the queue worker's own pass and the pass the API runs at
 start-up. `Who` says which one; the branches below are the differences between them.
 */
module Reconcile {
  import opened Wrappers
  import opened Text
  import opened Tables

  datatype Who = Worker | Api
  datatype Disposition = Requeue | Complete | Cancel | Fail

  const WITHHELD := "The deployment worker lease expired after release processing started. Automatic replay was withheld to avoid duplicate Azure changes."
  const INACTIVE := "The deployment became inactive while its worker lease was stale."

  /** Python's `value or fallback` on an optional string. */
  function OrElse(s: Option<string>, fallback: string): string {
    if s.Some? && s.value != "" then s.value else fallback
  }

  /** worker/job_queue.py: exact, case-sensitive, and a missing deployment fails. */
  function WorkerDisposition(status: Option<string>, attempts: nat, max: nat): Disposition {
    if status == Some("running") then Complete
    else if status == Some("stopped") || status == Some("rolled_back") then Cancel
    else if status == Some("queued") && attempts < max then Requeue
    else Fail
  }

  /** The fallback in backend/main.py: lower-cased, and absence counts as queued. */
  function ApiDisposition(status: Option<string>, attempts: nat, max: nat): Disposition {
    if LooksQueued(status) && attempts < max then Requeue
    else if Lower(OrElse(status, "")) == "running" then Complete
    else if Lower(OrElse(status, "")) == "rolled_back" then Cancel
    else Fail
  }

  predicate LooksQueued(status: Option<string>) {
    Lower(OrElse(status, "queued")) == "queued"
  }

  function DispositionOf(who: Who, status: Option<string>, attempts: nat, max: nat): Disposition {
    match who
    case Worker => WorkerDisposition(status, attempts, max)
    case Api => ApiDisposition(status, attempts, max)
  }

  /** What makes a claim stale; the two queries differ only when the lease column is NULL. */
  predicate Stale(who: Who, j: Job, now: Time, lease: int) {
    j.status == Running
    && if j.expires.Some? then j.expires.value < now
       else match who
            case Worker => j.updatedAt.Or(j.startedAt).Or(j.createdAt).GetOr(0) < now - lease
            case Api => j.updatedAt.None? || j.updatedAt.value < now - lease
  }

  function StaleJobs(who: Who, db: Db, now: Time, lease: int): set<Id> {
    set id | id in db.jobs && Stale(who, db.jobs[id], now, lease)
  }

  /** One row of the locking SELECT: the job joined with its deployment, if there is one. */
  datatype Row = Row(
    job: Id,
    deployment: Option<Id>,
    attempts: nat,
    status: Option<string>,
    failureReason: Option<string>,
    liveUrl: Option<string>
  )

  function RowOf(db: Db, id: Id): Row
    requires id in db.jobs
  {
    var j := db.jobs[id];
    if j.deployment.Some? && j.deployment.value in db.deployments then
      var d := db.deployments[j.deployment.value];
      Row(id, j.deployment, j.attempts, d.status, d.failureReason, d.liveUrl)
    else
      Row(id, j.deployment, j.attempts, None, None, None)
  }

  function RowsOf(db: Db, batch: seq<Id>): (rows: seq<Row>)
    requires forall id <- batch :: id in db.jobs
    ensures |rows| == |batch|
    ensures forall i :: 0 <= i < |batch| ==> rows[i] == RowOf(db, batch[i])
  {
    seq(|batch|, i requires 0 <= i < |batch| => RowOf(db, batch[i]))
  }

  function Reason(r: Row): string {
    OrElse(r.failureReason, WITHHELD)
  }

  function Verdict(who: Who, r: Row, max: nat): Disposition {
    DispositionOf(who, r.status, r.attempts, max)
  }

  // ---- The four row updates -------------------------------------------------------------

  function SettleJob(who: Who, r: Row, j: Job, max: nat, now: Time): Job {
    var released := ReleaseLease(j).(updatedAt := Some(now));
    match Verdict(who, r, max)
    case Requeue =>
      released.(status := Queued, startedAt := None, completedAt := None, failureReason := None)
    case Complete =>
      released.(status := Completed, deploymentStatus := "completed", liveUrl := r.liveUrl,
                completedAt := j.completedAt.Or(Some(now)), failureReason := None)
    case Cancel =>
      released.(status := Cancelled, completedAt := j.completedAt.Or(Some(now)), failureReason := Some(INACTIVE))
    case Fail =>
      released.(status := Failed, completedAt := j.completedAt.Or(Some(now)), failureReason := Some(Reason(r)),
                deploymentStatus := if who == Api then "failed" else j.deploymentStatus)
  }

  function SettleDeployment(who: Who, reason: string, d: Deployment, now: Time): Deployment {
    if !Active(d.status) then d else
    d.(status := Some("failed"),
       failureReason := if who == Worker then d.failureReason.Or(Some(reason))
                        else Some(OrElse(d.failureReason, reason)),
       completedAt := d.completedAt.Or(Some(now)))
  }

  /** The worker spares a project that still has another active deployment; the API does not. */
  predicate ProjectFails(who: Who, deployments: map<Id, Deployment>, p: Id, d: Id) {
    who == Worker ==> forall other <- deployments.Keys :: other != d ==> !ActiveIn(deployments, p, other)
  }

  // ---- One iteration of either loop, table by table -------------------------------------

  function JobsAfter(who: Who, r: Row, jobs: map<Id, Job>, max: nat, now: Time): map<Id, Job> {
    if r.job in jobs && jobs[r.job].status == Running
    then jobs[r.job := SettleJob(who, r, jobs[r.job], max, now)] else jobs
  }

  function DeploymentsAfter(who: Who, d: Id, reason: string, deployments: map<Id, Deployment>, now: Time): map<Id, Deployment> {
    if d in deployments then deployments[d := SettleDeployment(who, reason, deployments[d], now)] else deployments
  }

  /** `deployments` are the rows after this iteration's own update. */
  function ProjectsAfter(who: Who, d: Id, deployments: map<Id, Deployment>, projects: map<Id, string>): map<Id, string> {
    if d !in deployments then projects else
    var p := deployments[d].project;
    if p in projects && projects[p] == "deploying" && ProjectFails(who, deployments, p, d)
    then projects[p := "failed"] else projects
  }

  function EvaluationsAfter(who: Who, d: Id, deployments: map<Id, Deployment>, evaluations: map<Id, string>): map<Id, string> {
    if d in evaluations && evaluations[d] == "pending" && (who == Worker || d in deployments)
    then evaluations[d := "failed"] else evaluations
  }

  /** The deployment, evaluation and project writes that follow a failed claim. */
  function FailDeployment(who: Who, d: Id, reason: string, db: Db, now: Time): Db {
    var deployments := DeploymentsAfter(who, d, reason, db.deployments, now);
    Db(db.jobs, deployments, ProjectsAfter(who, d, deployments, db.projects),
       EvaluationsAfter(who, d, db.deployments, db.evaluations))
  }

  /** Every job write still asks that the job be running. */
  function SettleRow(who: Who, r: Row, db: Db, max: nat, now: Time): Db {
    var settled := db.(jobs := JobsAfter(who, r, db.jobs, max, now));
    if Verdict(who, r, max) == Fail && r.deployment.Some?
    then FailDeployment(who, r.deployment.value, Reason(r), settled, now) else settled
  }

  function Pass(who: Who, rows: seq<Row>, db: Db, max: nat, now: Time): Db {
    if rows == [] then db
    else SettleRow(who, rows[|rows| - 1], Pass(who, rows[..|rows| - 1], db, max, now), max, now)
  }

  datatype Counts = Counts(requeued: nat, completed: nat, cancelled: nat, failed: nat) {
    function Total(): nat { requeued + completed + cancelled + failed }

    function Bump(v: Disposition, rows: nat): Counts {
      match v
      case Requeue => this.(requeued := requeued + rows)
      case Complete => this.(completed := completed + rows)
      case Cancel => this.(cancelled := cancelled + rows)
      case Fail => this.(failed := failed + rows)
    }
  }

  function RowCount(db: Db, job: Id): nat {
    if job in db.jobs && db.jobs[job].status == Running then 1 else 0
  }

  function Tally(who: Who, rows: seq<Row>, db: Db, max: nat, now: Time): Counts {
    if rows == [] then Counts(0, 0, 0, 0)
    else
      var prefix := rows[..|rows| - 1];
      var r := rows[|rows| - 1];
      Tally(who, prefix, db, max, now).Bump(Verdict(who, r, max), RowCount(Pass(who, prefix, db, max, now), r.job))
  }

  /** A batch the locking SELECT can return: distinct stale claims, at most the limit. */
  predicate IsBatch(who: Who, db: Db, batch: seq<Id>, settings: Settings, now: Time) {
    && |batch| <= settings.batchSize
    && (forall i, j :: 0 <= i < j < |batch| ==> batch[i] != batch[j])
    && forall id <- batch :: id in StaleJobs(who, db, now, settings.leaseSeconds)
  }

  function ReconcilePass(who: Who, db: Db, batch: seq<Id>, settings: Settings, now: Time): Db
    requires IsBatch(who, db, batch, settings, now)
  {
    Pass(who, RowsOf(db, batch), db, settings.maxAttempts, now)
  }
}
