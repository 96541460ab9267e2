/** What one reconciliation pass leaves in every table, by the statuses that stand in the rows. */
module SettledRows {
  import opened Wrappers
  import opened Tables
  import opened Reconcile
  import opened PassMeaning
  import opened DrainLaws
  import opened TextMeaning
  import Text

  /** The joined deployment of a job, if there is one. */
  function DeploymentOf(db: Db, id: Id): Option<Deployment>
    requires id in db.jobs
  {
    var d := db.jobs[id].deployment;
    if d.Some? && d.value in db.deployments then Some(db.deployments[d.value]) else None
  }

  predicate HasStatus(d: Option<Deployment>, status: string) {
    d.Some? && d.value.status == Some(status)
  }

  /** The same in any letter case, as the API compares. */
  predicate SpellsStatus(d: Option<Deployment>, status: string) {
    d.Some? && d.value.status.Some? && Spells(d.value.status.value, status)
  }

  /** A row without a deployment, without a status or with an empty one counts as queued there. */
  predicate BlankStatus(d: Option<Deployment>) {
    d.None? || d.value.status.None? || d.value.status == Some("")
  }

  /** The reason of a failed claim: the deployment's own if it has one that is not empty. */
  function FailureText(d: Option<Deployment>): string {
    if d.Some? && d.value.failureReason.Some? && |d.value.failureReason.value| > 0 then d.value.failureReason.value
    else "The deployment worker lease expired after release processing started. Automatic replay was withheld to avoid duplicate Azure changes."
  }

  /** When a row was closed: an earlier time stands. */
  function ClosedAt(before: Option<Time>, now: Time): Option<Time> {
    if before.None? then Some(now) else before
  }

  // ---- Jobs -----------------------------------------------------------------------------

  lemma SettledByRow(who: Who, db: Db, batch: seq<Id>, settings: Settings, now: Time, id: Id)
    requires IsBatch(who, db, batch, settings, now) && OneJobPerDeployment(db.jobs) && id in batch
    ensures id in db.jobs && id in ReconcilePass(who, db, batch, settings, now).jobs
    ensures ReconcilePass(who, db, batch, settings, now).jobs[id]
            == SettleJob(who, RowOf(db, id), db.jobs[id], settings.maxAttempts, now)
  {
    hide Pass, Stale, Verdict, IsBatch, Distinct, AllRunning, OneJobPerDeployment, SettleJob;
    BatchRows(who, db, batch, settings, now);
    PassJob(who, RowsOf(db, batch), db, settings.maxAttempts, now, id);
    var i :| 0 <= i < |batch| && batch[i] == id;
    assert RowsOf(db, batch)[i].job == id;
  }

  /** The worker's pass: each claim of the batch ends in the row that its deployment's status calls for. */
  lemma WorkerSettles(db: Db, batch: seq<Id>, settings: Settings, now: Time, id: Id)
    requires IsBatch(Worker, db, batch, settings, now) && OneJobPerDeployment(db.jobs) && id in batch
    ensures id in db.jobs && id in ReconcilePass(Worker, db, batch, settings, now).jobs
    ensures var j, k := db.jobs[id], ReconcilePass(Worker, db, batch, settings, now).jobs[id];
            var d := DeploymentOf(db, id);
            k == if HasStatus(d, "running") then
                   Job(j.deployment, JobStatus.Completed, None, None, None, None, j.attempts, "completed", d.value.liveUrl,
                       None, j.startedAt, ClosedAt(j.completedAt, now), Some(now), j.createdAt)
                 else if HasStatus(d, "stopped") || HasStatus(d, "rolled_back") then
                   Job(j.deployment, JobStatus.Cancelled, None, None, None, None, j.attempts, j.deploymentStatus, j.liveUrl,
                       Some("The deployment became inactive while its worker lease was stale."),
                       j.startedAt, ClosedAt(j.completedAt, now), Some(now), j.createdAt)
                 else if HasStatus(d, "queued") && j.attempts < settings.maxAttempts then
                   Job(j.deployment, JobStatus.Queued, None, None, None, None, j.attempts, j.deploymentStatus, j.liveUrl,
                       None, None, None, Some(now), j.createdAt)
                 else
                   Job(j.deployment, JobStatus.Failed, None, None, None, None, j.attempts, j.deploymentStatus, j.liveUrl,
                       Some(FailureText(d)), j.startedAt, ClosedAt(j.completedAt, now), Some(now), j.createdAt)
  {
    SettledByRow(Worker, db, batch, settings, now, id);
    hide Pass, IsBatch, OneJobPerDeployment, ReconcilePass;
  }

  /** The API's pass: the same with its own reading of the status, and a failed job says so twice. */
  lemma ApiSettles(db: Db, batch: seq<Id>, settings: Settings, now: Time, id: Id)
    requires IsBatch(Api, db, batch, settings, now) && OneJobPerDeployment(db.jobs) && id in batch
    ensures id in db.jobs && id in ReconcilePass(Api, db, batch, settings, now).jobs
    ensures var j, k := db.jobs[id], ReconcilePass(Api, db, batch, settings, now).jobs[id];
            var d := DeploymentOf(db, id);
            k == if SpellsStatus(d, "running") then
                   Job(j.deployment, JobStatus.Completed, None, None, None, None, j.attempts, "completed", d.value.liveUrl,
                       None, j.startedAt, ClosedAt(j.completedAt, now), Some(now), j.createdAt)
                 else if SpellsStatus(d, "rolled_back") then
                   Job(j.deployment, JobStatus.Cancelled, None, None, None, None, j.attempts, j.deploymentStatus, j.liveUrl,
                       Some("The deployment became inactive while its worker lease was stale."),
                       j.startedAt, ClosedAt(j.completedAt, now), Some(now), j.createdAt)
                 else if (BlankStatus(d) || SpellsStatus(d, "queued")) && j.attempts < settings.maxAttempts then
                   Job(j.deployment, JobStatus.Queued, None, None, None, None, j.attempts, j.deploymentStatus, j.liveUrl,
                       None, None, None, Some(now), j.createdAt)
                 else
                   Job(j.deployment, JobStatus.Failed, None, None, None, None, j.attempts, "failed", j.liveUrl,
                       Some(FailureText(d)), j.startedAt, ClosedAt(j.completedAt, now), Some(now), j.createdAt)
  {
    SettledByRow(Api, db, batch, settings, now, id);
    hide Pass, IsBatch, OneJobPerDeployment, ReconcilePass, Spells;
    var status := RowOf(db, id).status;
    StatusWords(status);
    if status.Some? {
      LowerSpells(status.value, "running");
      LowerSpells(status.value, "rolled_back");
      LowerSpells(status.value, "queued");
    }
  }

  /** Blank statuses, and words that cannot be confused. */
  lemma StatusWords(status: Option<string>)
    ensures Text.Lower("") == "" && Text.Lower("queued") == "queued"
    ensures NoCapitals("running") && NoCapitals("rolled_back") && NoCapitals("queued")
    ensures "queued" != "running" && "queued" != "rolled_back" && "running" != "rolled_back"
    ensures "" != "queued" && "" != "running" && "" != "rolled_back"
  {
    assert "queued"[0] == 'q' && "running"[0] == 'r' && "running"[1] == 'u' && "rolled_back"[1] == 'o';
  }

  // ---- Deployments, evaluations, projects -----------------------------------------------

  /** The pass closed a job of this deployment as failed. */
  ghost predicate FailsJobOf(who: Who, db: Db, batch: seq<Id>, settings: Settings, now: Time, d: Id)
    requires IsBatch(who, db, batch, settings, now)
  {
    exists id <- batch :: id in db.jobs && id in ReconcilePass(who, db, batch, settings, now).jobs
      && db.jobs[id].deployment == Some(d)
      && ReconcilePass(who, db, batch, settings, now).jobs[id].status == JobStatus.Failed
  }

  lemma SettledStatus(who: Who, r: Row, j: Job, max: nat, now: Time)
    ensures SettleJob(who, r, j, max, now).status == match Verdict(who, r, max)
                                                     case Requeue => JobStatus.Queued
                                                     case Complete => JobStatus.Completed
                                                     case Cancel => JobStatus.Cancelled
                                                     case Fail => JobStatus.Failed
  {
  }

  lemma FailsJobExactly(who: Who, db: Db, batch: seq<Id>, settings: Settings, now: Time, d: Id)
    requires IsBatch(who, db, batch, settings, now) && OneJobPerDeployment(db.jobs)
    ensures FailsJobOf(who, db, batch, settings, now, d) <==> SomeFailsOn(who, RowsOf(db, batch), d, settings.maxAttempts)
  {
    hide IsBatch, OneJobPerDeployment, ReconcilePass, SettleJob, Verdict;
    BatchRows(who, db, batch, settings, now);
    var rows, max := RowsOf(db, batch), settings.maxAttempts;
    forall i | 0 <= i < |batch|
      ensures batch[i] in ReconcilePass(who, db, batch, settings, now).jobs
      ensures (ReconcilePass(who, db, batch, settings, now).jobs[batch[i]].status == JobStatus.Failed
               && db.jobs[batch[i]].deployment == Some(d)) <==> FailsOn(who, rows[i], d, max)
    {
      SettledByRow(who, db, batch, settings, now, batch[i]);
      SettledStatus(who, rows[i], db.jobs[batch[i]], max, now);
    }
    if SomeFailsOn(who, rows, d, max) {
      var i :| 0 <= i < |rows| && FailsOn(who, rows[i], d, max);
      assert batch[i] in batch;
    }
  }

  /** A deployment fails with its job if it was still under way; the worker keeps any reason that is
      not NULL, the API any that is not empty. */
  lemma DeploymentSettled(who: Who, db: Db, batch: seq<Id>, settings: Settings, now: Time, d: Id)
    requires IsBatch(who, db, batch, settings, now) && OneJobPerDeployment(db.jobs)
    ensures d in ReconcilePass(who, db, batch, settings, now).deployments <==> d in db.deployments
    ensures d in db.deployments ==>
              var row := db.deployments[d];
              ReconcilePass(who, db, batch, settings, now).deployments[d] ==
              if FailsJobOf(who, db, batch, settings, now, d) && row.status in {Some("queued"), Some("building"), Some("deploying")}
              then Deployment(row.project, Some("failed"),
                     Some(if who == Worker && row.failureReason.Some? then row.failureReason.value else FailureText(Some(row))),
                     row.liveUrl, ClosedAt(row.completedAt, now), row.metadata)
              else row
  {
    hide IsBatch, OneJobPerDeployment, Verdict, FailsJobOf, Pass, FailureText, Reason, Distinct, AllRunning;
    BatchRows(who, db, batch, settings, now);
    FailsJobExactly(who, db, batch, settings, now, d);
    var rows, max := RowsOf(db, batch), settings.maxAttempts;
    PassDeployment(who, rows, db, max, now, d);
    if d in db.deployments && SomeFailsOn(who, rows, d, max) {
      var i :| 0 <= i < |rows| && FailsOn(who, rows[i], d, max);
      assert rows[i] == RowOf(db, batch[i]);
      ReasonText(rows[i], db.deployments[d]);
    }
  }

  lemma ReasonText(r: Row, d: Deployment)
    requires r.failureReason == d.failureReason
    ensures Reason(r) == FailureText(Some(d))
    ensures OrElse(d.failureReason, Reason(r)) == FailureText(Some(d))
  {
  }

  lemma EvaluationSettled(who: Who, db: Db, batch: seq<Id>, settings: Settings, now: Time, d: Id)
    requires IsBatch(who, db, batch, settings, now) && OneJobPerDeployment(db.jobs)
    ensures d in ReconcilePass(who, db, batch, settings, now).evaluations <==> d in db.evaluations
    ensures d in db.evaluations ==>
              ReconcilePass(who, db, batch, settings, now).evaluations[d] ==
              if FailsJobOf(who, db, batch, settings, now, d) && db.evaluations[d] == "pending" && (who == Api ==> d in db.deployments)
              then "failed" else db.evaluations[d]
  {
    hide IsBatch, OneJobPerDeployment, Verdict, FailsJobOf, Pass, Distinct, AllRunning;
    BatchRows(who, db, batch, settings, now);
    FailsJobExactly(who, db, batch, settings, now, d);
    PassEvaluation(who, RowsOf(db, batch), db, settings.maxAttempts, now, d);
  }

  /** A deploying project with a deployment whose job failed ends failed; the worker asks in addition
      that nothing of it is still under way afterwards. */
  lemma ProjectSettled(who: Who, db: Db, batch: seq<Id>, settings: Settings, now: Time, p: Id)
    requires IsBatch(who, db, batch, settings, now) && OneJobPerDeployment(db.jobs)
    ensures p in ReconcilePass(who, db, batch, settings, now).projects <==> p in db.projects
    ensures p in db.projects ==>
              ReconcilePass(who, db, batch, settings, now).projects[p] ==
              if db.projects[p] == "deploying"
                 && (exists d <- db.deployments.Keys :: db.deployments[d].project == p && FailsJobOf(who, db, batch, settings, now, d))
                 && (who == Worker ==> forall d <- ReconcilePass(who, db, batch, settings, now).deployments.Keys ::
                       ReconcilePass(who, db, batch, settings, now).deployments[d].project == p ==>
                         ReconcilePass(who, db, batch, settings, now).deployments[d].status !in {Some("queued"), Some("building"), Some("deploying")})
              then "failed" else db.projects[p]
  {
    hide IsBatch, OneJobPerDeployment, Verdict, FailsJobOf, Pass, Distinct, AllRunning;
    BatchRows(who, db, batch, settings, now);
    var rows, max := RowsOf(db, batch), settings.maxAttempts;
    PassProject(who, rows, db, max, now, p);
    TouchedExactly(who, db, batch, settings, now, p);
    var after := ReconcilePass(who, db, batch, settings, now).deployments;
    assert StillActive(after, p) <==> exists d <- after.Keys :: after[d].project == p && after[d].status in {Some("queued"), Some("building"), Some("deploying")} by {
      if d :| ActiveIn(after, p, d) { assert d in after.Keys; }
      if d :| d in after.Keys && after[d].project == p && after[d].status in {Some("queued"), Some("building"), Some("deploying")} { assert ActiveIn(after, p, d); }
    }
  }

  lemma TouchedExactly(who: Who, db: Db, batch: seq<Id>, settings: Settings, now: Time, p: Id)
    requires IsBatch(who, db, batch, settings, now) && OneJobPerDeployment(db.jobs)
    requires forall id <- batch :: id in db.jobs
    ensures SomeTouches(who, RowsOf(db, batch), db.deployments, p, settings.maxAttempts)
       <==> exists d <- db.deployments.Keys :: db.deployments[d].project == p && FailsJobOf(who, db, batch, settings, now, d)
  {
    hide IsBatch, OneJobPerDeployment, Verdict, FailsJobOf, RowOf;
    var rows, max := RowsOf(db, batch), settings.maxAttempts;
    if SomeTouches(who, rows, db.deployments, p, max) {
      var i :| 0 <= i < |rows| && Touches(who, rows[i], db.deployments, p, max);
      FailsJobExactly(who, db, batch, settings, now, rows[i].deployment.value);
      assert FailsOn(who, rows[i], rows[i].deployment.value, max);
    }
    if d :| d in db.deployments.Keys && db.deployments[d].project == p && FailsJobOf(who, db, batch, settings, now, d) {
      FailsJobExactly(who, db, batch, settings, now, d);
      var i :| 0 <= i < |rows| && FailsOn(who, rows[i], d, max);
      assert Touches(who, rows[i], db.deployments, p, max);
    }
  }

  // ---- The four counts ------------------------------------------------------------------

  function Positions(who: Who, rows: seq<Row>, v: Disposition, max: nat): set<int> {
    set i | 0 <= i < |rows| && Verdict(who, rows[i], max) == v
  }

  function Counted(n: Counts, v: Disposition): nat {
    match v
    case Requeue => n.requeued
    case Complete => n.completed
    case Cancel => n.cancelled
    case Fail => n.failed
  }

  lemma {:induction false} TallyCounts(who: Who, rows: seq<Row>, db: Db, max: nat, now: Time, v: Disposition)
    requires Distinct(rows) && AllRunning(rows, db)
    ensures Counted(Tally(who, rows, db, max, now), v) == |Positions(who, rows, v, max)|
  {
    hide Pass, Verdict, SettleJob;
    if rows != [] {
      var k := |rows| - 1;
      TallyCounts(who, rows[..k], db, max, now, v);
      PassJob(who, rows[..k], db, max, now, rows[k].job);
      hide Distinct, AllRunning;
      assert Tally(who, rows, db, max, now) == Tally(who, rows[..k], db, max, now).Bump(Verdict(who, rows[k], max), 1);
      hide Tally;
      PositionsLast(who, rows, v, max);
    }
  }

  lemma PositionsLast(who: Who, rows: seq<Row>, v: Disposition, max: nat)
    requires rows != []
    ensures |Positions(who, rows, v, max)|
            == |Positions(who, rows[..|rows| - 1], v, max)| + if Verdict(who, rows[|rows| - 1], max) == v then 1 else 0
  {
    hide Verdict;
    var k := |rows| - 1;
    var before := Positions(who, rows[..k], v, max);
    assert k !in before;
    if Verdict(who, rows[k], max) == v {
      assert Positions(who, rows, v, max) == before + {k};
    } else {
      assert Positions(who, rows, v, max) == before;
    }
  }

  /** The positions of the batch whose job ends in this status. */
  ghost function Ending(who: Who, db: Db, batch: seq<Id>, settings: Settings, now: Time, status: JobStatus): set<int>
    requires IsBatch(who, db, batch, settings, now)
  {
    var after := ReconcilePass(who, db, batch, settings, now);
    set i | 0 <= i < |batch| && batch[i] in after.jobs && after.jobs[batch[i]].status == status
  }

  /** Each count is the number of jobs of the batch that end in its status. */
  lemma CountsAreEndings(who: Who, db: Db, batch: seq<Id>, settings: Settings, now: Time)
    requires IsBatch(who, db, batch, settings, now) && OneJobPerDeployment(db.jobs)
    ensures Tally(who, RowsOf(db, batch), db, settings.maxAttempts, now)
            == Counts(|Ending(who, db, batch, settings, now, JobStatus.Queued)|, |Ending(who, db, batch, settings, now, JobStatus.Completed)|,
                      |Ending(who, db, batch, settings, now, JobStatus.Cancelled)|, |Ending(who, db, batch, settings, now, JobStatus.Failed)|)
  {
    EndingPositions(who, db, batch, settings, now, Requeue, JobStatus.Queued);
    EndingPositions(who, db, batch, settings, now, Complete, JobStatus.Completed);
    EndingPositions(who, db, batch, settings, now, Cancel, JobStatus.Cancelled);
    EndingPositions(who, db, batch, settings, now, Fail, JobStatus.Failed);
  }

  lemma EndingPositions(who: Who, db: Db, batch: seq<Id>, settings: Settings, now: Time, v: Disposition, status: JobStatus)
    requires IsBatch(who, db, batch, settings, now) && OneJobPerDeployment(db.jobs)
    requires match v
             case Requeue => status == JobStatus.Queued
             case Complete => status == JobStatus.Completed
             case Cancel => status == JobStatus.Cancelled
             case Fail => status == JobStatus.Failed
    ensures Counted(Tally(who, RowsOf(db, batch), db, settings.maxAttempts, now), v)
            == |Ending(who, db, batch, settings, now, status)|
  {
    hide IsBatch, OneJobPerDeployment, ReconcilePass, SettleJob, Verdict, Tally, Distinct, AllRunning;
    BatchRows(who, db, batch, settings, now);
    var rows, max := RowsOf(db, batch), settings.maxAttempts;
    TallyCounts(who, rows, db, max, now, v);
    forall i | 0 <= i < |batch|
      ensures i in Ending(who, db, batch, settings, now, status) <==> i in Positions(who, rows, v, max)
    {
      SettledByRow(who, db, batch, settings, now, batch[i]);
      SettledStatus(who, rows[i], db.jobs[batch[i]], max, now);
    }
    assert Ending(who, db, batch, settings, now, status) == Positions(who, rows, v, max);
  }
}
