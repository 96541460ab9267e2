/**
 What one reconciliation pass means, independently of the order of its loop:
 a closed form for every table, and the laws that follow from it.
 */
module PassMeaning {
  import opened Wrappers
  import opened Tables
  import Text
  import opened Reconcile

  /** No two jobs name the same deployment; an invariant of every run of the queue. */
  ghost predicate OneJobPerDeployment(jobs: map<Id, Job>) {
    forall i, j :: i in jobs && j in jobs && i != j && jobs[i].deployment.Some? ==>
      jobs[i].deployment != jobs[j].deployment
  }

  ghost predicate Distinct(rows: seq<Row>) {
    forall i, j :: 0 <= i < j < |rows| ==>
      rows[i].job != rows[j].job && (rows[i].deployment.Some? ==> rows[i].deployment != rows[j].deployment)
  }

  ghost predicate AllRunning(rows: seq<Row>, db: Db) {
    forall i :: 0 <= i < |rows| ==> rows[i].job in db.jobs && db.jobs[rows[i].job].status == Running
  }

  lemma BatchRows(who: Who, db: Db, batch: seq<Id>, settings: Settings, now: Time)
    requires IsBatch(who, db, batch, settings, now) && OneJobPerDeployment(db.jobs)
    ensures forall id <- batch :: id in db.jobs
    ensures Distinct(RowsOf(db, batch)) && AllRunning(RowsOf(db, batch), db)
  {
    var rows := RowsOf(db, batch);
    forall i | 0 <= i < |rows|
      ensures rows[i].job in db.jobs && db.jobs[rows[i].job].status == Running
    {
      assert batch[i] in StaleJobs(who, db, now, settings.leaseSeconds);
    }
  }

  // ---- Jobs -----------------------------------------------------------------------------

  lemma {:induction false} PassJob(who: Who, rows: seq<Row>, db: Db, max: nat, now: Time, id: Id)
    requires Distinct(rows) && AllRunning(rows, db)
    ensures id in Pass(who, rows, db, max, now).jobs <==> id in db.jobs
    ensures forall i :: 0 <= i < |rows| && rows[i].job == id ==>
              Pass(who, rows, db, max, now).jobs[id] == SettleJob(who, rows[i], db.jobs[id], max, now)
    ensures id in db.jobs && (forall i :: 0 <= i < |rows| ==> rows[i].job != id) ==>
              Pass(who, rows, db, max, now).jobs[id] == db.jobs[id]
  {
    hide SettleJob, Verdict, FailDeployment;
    if rows != [] {
      var k := |rows| - 1;
      PassJob(who, rows[..k], db, max, now, id);
      FailKeepsJobs(who, rows[k], Pass(who, rows[..k], db, max, now), max, now);
    }
  }

  lemma FailKeepsJobs(who: Who, r: Row, db: Db, max: nat, now: Time)
    ensures SettleRow(who, r, db, max, now).jobs == JobsAfter(who, r, db.jobs, max, now)
  {
  }

  // ---- Deployments and evaluations ------------------------------------------------------

  /** The pass fails the claim that names this deployment. */
  predicate FailsOn(who: Who, r: Row, d: Id, max: nat) {
    r.deployment == Some(d) && Verdict(who, r, max) == Fail
  }

  ghost predicate SomeFailsOn(who: Who, rows: seq<Row>, d: Id, max: nat) {
    exists i :: 0 <= i < |rows| && FailsOn(who, rows[i], d, max)
  }

  lemma {:induction false} PassDeployment(who: Who, rows: seq<Row>, db: Db, max: nat, now: Time, d: Id)
    requires Distinct(rows)
    ensures d in Pass(who, rows, db, max, now).deployments <==> d in db.deployments
    ensures d in db.deployments ==>
              && (forall i :: 0 <= i < |rows| && FailsOn(who, rows[i], d, max) ==>
                   Pass(who, rows, db, max, now).deployments[d] == SettleDeployment(who, Reason(rows[i]), db.deployments[d], now))
              && (!SomeFailsOn(who, rows, d, max) ==>
                   Pass(who, rows, db, max, now).deployments[d] == db.deployments[d])
  {
    hide SettleDeployment, Verdict, JobsAfter, ProjectsAfter, EvaluationsAfter;
    if rows != [] {
      var k := |rows| - 1;
      PassDeployment(who, rows[..k], db, max, now, d);
      assert !SomeFailsOn(who, rows, d, max) ==> !FailsOn(who, rows[k], d, max);
      if SomeFailsOn(who, rows[..k], d, max) {
        var i :| 0 <= i < k && FailsOn(who, rows[..k][i], d, max);
        assert FailsOn(who, rows[i], d, max);
      }
    }
  }

  lemma {:induction false} PassEvaluation(who: Who, rows: seq<Row>, db: Db, max: nat, now: Time, d: Id)
    requires Distinct(rows)
    ensures d in Pass(who, rows, db, max, now).evaluations <==> d in db.evaluations
    ensures d in db.evaluations ==>
              Pass(who, rows, db, max, now).evaluations[d] ==
              if db.evaluations[d] == "pending" && (who == Worker || d in db.deployments) && SomeFailsOn(who, rows, d, max)
              then "failed" else db.evaluations[d]
  {
    hide SettleDeployment, Verdict, JobsAfter, ProjectsAfter;
    if rows != [] {
      var k := |rows| - 1;
      PassEvaluation(who, rows[..k], db, max, now, d);
      PassDeployment(who, rows[..k], db, max, now, d);
      SomeFailsOnLast(who, rows, d, max);
    }
  }

  lemma SomeFailsOnLast(who: Who, rows: seq<Row>, d: Id, max: nat)
    requires rows != []
    ensures SomeFailsOn(who, rows, d, max) <==>
              SomeFailsOn(who, rows[..|rows| - 1], d, max) || FailsOn(who, rows[|rows| - 1], d, max)
  {
    hide Verdict;
    var k := |rows| - 1;
    if SomeFailsOn(who, rows[..k], d, max) {
      var i :| 0 <= i < k && FailsOn(who, rows[..k][i], d, max);
      assert FailsOn(who, rows[i], d, max);
    }
    if SomeFailsOn(who, rows, d, max) && !FailsOn(who, rows[k], d, max) {
      var i :| 0 <= i < |rows| && FailsOn(who, rows[i], d, max);
      assert FailsOn(who, rows[..k][i], d, max);
    }
  }

  // ---- Projects -------------------------------------------------------------------------

  ghost predicate StillActive(deployments: map<Id, Deployment>, p: Id) {
    exists d :: ActiveIn(deployments, p, d)
  }

  /** The pass fails a claim whose deployment belongs to the project. */
  predicate Touches(who: Who, r: Row, deployments: map<Id, Deployment>, p: Id, max: nat) {
    Verdict(who, r, max) == Fail && r.deployment.Some?
    && r.deployment.value in deployments && deployments[r.deployment.value].project == p
  }

  ghost predicate SomeTouches(who: Who, rows: seq<Row>, deployments: map<Id, Deployment>, p: Id, max: nat) {
    exists i :: 0 <= i < |rows| && Touches(who, rows[i], deployments, p, max)
  }

  /** One iteration never activates a deployment, and only a touched project can lose one. */
  lemma DeploymentsStep(who: Who, r: Row, before: Db, max: nat, now: Time, p: Id)
    ensures var after := SettleRow(who, r, before, max, now).deployments;
            && (forall d :: ActiveIn(after, p, d) ==> ActiveIn(before.deployments, p, d))
            && (!Touches(who, r, before.deployments, p, max) ==>
                 forall d :: ActiveIn(before.deployments, p, d) ==> ActiveIn(after, p, d))
            && (Touches(who, r, before.deployments, p, max) ==> !ActiveIn(after, p, r.deployment.value))
  {
    hide Verdict, JobsAfter, ProjectsAfter, EvaluationsAfter;
  }

  lemma ProjectStep(who: Who, r: Row, before: Db, max: nat, now: Time, p: Id)
    ensures var after := SettleRow(who, r, before, max, now);
            && (p in after.projects <==> p in before.projects)
            && (p in before.projects ==>
                 after.projects[p] ==
                 if before.projects[p] == "deploying" && Touches(who, r, before.deployments, p, max)
                    && (who == Worker ==> !StillActive(after.deployments, p))
                 then "failed" else before.projects[p])
  {
    hide Verdict, JobsAfter, EvaluationsAfter;
    DeploymentsStep(who, r, before, max, now, p);
    var after := SettleRow(who, r, before, max, now).deployments;
    if Touches(who, r, before.deployments, p, max) && StillActive(after, p) {
      var d :| ActiveIn(after, p, d);
      assert d != r.deployment.value;
      assert who == Worker ==> !ProjectFails(who, after, p, r.deployment.value);
    }
  }

  lemma TouchesAfterPass(who: Who, rows: seq<Row>, db: Db, max: nat, now: Time, r: Row, p: Id)
    requires Distinct(rows)
    ensures Touches(who, r, Pass(who, rows, db, max, now).deployments, p, max) <==> Touches(who, r, db.deployments, p, max)
  {
    if r.deployment.Some? {
      var d := r.deployment.value;
      PassDeployment(who, rows, db, max, now, d);
      hide Verdict, Pass;
      if d in db.deployments && SomeFailsOn(who, rows, d, max) {
        var i :| 0 <= i < |rows| && FailsOn(who, rows[i], d, max);
      }
    }
  }

  /** Project rows after a pass: failed when touched, deploying and (worker only) left with nothing active. */
  lemma {:induction false} PassProject(who: Who, rows: seq<Row>, db: Db, max: nat, now: Time, p: Id)
    requires Distinct(rows)
    ensures p in Pass(who, rows, db, max, now).projects <==> p in db.projects
    ensures p in db.projects ==>
              Pass(who, rows, db, max, now).projects[p] ==
              if db.projects[p] == "deploying" && SomeTouches(who, rows, db.deployments, p, max)
                 && (who == Worker ==> !StillActive(Pass(who, rows, db, max, now).deployments, p))
              then "failed" else db.projects[p]
  {
    hide SettleRow, Touches;
    if rows != [] {
      var k := |rows| - 1;
      var before := Pass(who, rows[..k], db, max, now);
      PassProject(who, rows[..k], db, max, now, p);
      ProjectStep(who, rows[k], before, max, now, p);
      StillActiveStep(who, rows[k], before, max, now, p);
      TouchesAfterPass(who, rows[..k], db, max, now, rows[k], p);
      SomeTouchesLast(who, rows, db.deployments, p, max);
    }
  }

  lemma StillActiveStep(who: Who, r: Row, before: Db, max: nat, now: Time, p: Id)
    ensures var after := SettleRow(who, r, before, max, now).deployments;
            && (StillActive(after, p) ==> StillActive(before.deployments, p))
            && (!Touches(who, r, before.deployments, p, max) ==>
                 StillActive(before.deployments, p) ==> StillActive(after, p))
  {
    DeploymentsStep(who, r, before, max, now, p);
  }

  lemma SomeTouchesLast(who: Who, rows: seq<Row>, deployments: map<Id, Deployment>, p: Id, max: nat)
    requires rows != []
    ensures SomeTouches(who, rows, deployments, p, max) <==>
              SomeTouches(who, rows[..|rows| - 1], deployments, p, max)
              || Touches(who, rows[|rows| - 1], deployments, p, max)
  {
    hide Touches;
    var k := |rows| - 1;
    if SomeTouches(who, rows[..k], deployments, p, max) {
      var i :| 0 <= i < k && Touches(who, rows[..k][i], deployments, p, max);
      assert Touches(who, rows[i], deployments, p, max);
    }
    if SomeTouches(who, rows, deployments, p, max) && !Touches(who, rows[k], deployments, p, max) {
      var i :| 0 <= i < |rows| && Touches(who, rows[i], deployments, p, max);
      assert Touches(who, rows[..k][i], deployments, p, max);
    }
  }

  // ---- Laws of one pass -----------------------------------------------------------------

  ghost predicate SameIds(a: seq<Id>, b: seq<Id>) {
    forall id :: id in a <==> id in b
  }

  lemma RowInBoth(db: Db, a: seq<Id>, b: seq<Id>, i: int) returns (j: int)
    requires forall id <- a :: id in db.jobs
    requires forall id <- b :: id in db.jobs
    requires SameIds(a, b) && 0 <= i < |a|
    ensures 0 <= j < |b| && RowsOf(db, b)[j] == RowsOf(db, a)[i] && b[j] == a[i]
  {
    assert a[i] in b;
    j :| 0 <= j < |b| && b[j] == a[i];
  }

  lemma SameFailures(who: Who, db: Db, a: seq<Id>, b: seq<Id>, d: Id, max: nat)
    requires forall id <- a :: id in db.jobs
    requires forall id <- b :: id in db.jobs
    requires SameIds(a, b)
    ensures SomeFailsOn(who, RowsOf(db, a), d, max) ==> SomeFailsOn(who, RowsOf(db, b), d, max)
  {
    hide FailsOn, RowOf;
    if SomeFailsOn(who, RowsOf(db, a), d, max) {
      var i :| 0 <= i < |a| && FailsOn(who, RowsOf(db, a)[i], d, max);
      var j := RowInBoth(db, a, b, i);
    }
  }

  lemma SameTouches(who: Who, db: Db, a: seq<Id>, b: seq<Id>, p: Id, max: nat)
    requires forall id <- a :: id in db.jobs
    requires forall id <- b :: id in db.jobs
    requires SameIds(a, b)
    ensures SomeTouches(who, RowsOf(db, a), db.deployments, p, max) ==>
              SomeTouches(who, RowsOf(db, b), db.deployments, p, max)
  {
    hide Touches, RowOf;
    if SomeTouches(who, RowsOf(db, a), db.deployments, p, max) {
      var i :| 0 <= i < |a| && Touches(who, RowsOf(db, a)[i], db.deployments, p, max);
      var j := RowInBoth(db, a, b, i);
    }
  }

  lemma SameJob(who: Who, db: Db, a: seq<Id>, b: seq<Id>, settings: Settings, now: Time, id: Id)
    requires IsBatch(who, db, a, settings, now) && IsBatch(who, db, b, settings, now)
    requires OneJobPerDeployment(db.jobs) && SameIds(a, b) && id in db.jobs
    ensures var x, y := ReconcilePass(who, db, a, settings, now), ReconcilePass(who, db, b, settings, now);
            id in x.jobs && id in y.jobs && x.jobs[id] == y.jobs[id]
  {
    hide SettleJob, Pass, Stale, Distinct, AllRunning, OneJobPerDeployment, IsBatch, Verdict;
    BatchRows(who, db, a, settings, now);
    BatchRows(who, db, b, settings, now);
    PassJob(who, RowsOf(db, a), db, settings.maxAttempts, now, id);
    PassJob(who, RowsOf(db, b), db, settings.maxAttempts, now, id);
    if id in a {
      var i :| 0 <= i < |a| && a[i] == id;
      var j := RowInBoth(db, a, b, i);
      assert RowsOf(db, a)[i].job == id;
    }
  }

  lemma SameDeployment(who: Who, db: Db, a: seq<Id>, b: seq<Id>, settings: Settings, now: Time, d: Id)
    requires IsBatch(who, db, a, settings, now) && IsBatch(who, db, b, settings, now)
    requires OneJobPerDeployment(db.jobs) && SameIds(a, b) && d in db.deployments
    ensures var x, y := ReconcilePass(who, db, a, settings, now), ReconcilePass(who, db, b, settings, now);
            d in x.deployments && d in y.deployments && x.deployments[d] == y.deployments[d]
  {
    hide SettleDeployment, Pass, Stale, Distinct, AllRunning, OneJobPerDeployment, IsBatch, Verdict;
    var max := settings.maxAttempts;
    BatchRows(who, db, a, settings, now);
    BatchRows(who, db, b, settings, now);
    PassDeployment(who, RowsOf(db, a), db, max, now, d);
    PassDeployment(who, RowsOf(db, b), db, max, now, d);
    SameFailures(who, db, a, b, d, max);
    SameFailures(who, db, b, a, d, max);
    if SomeFailsOn(who, RowsOf(db, a), d, max) {
      var i :| 0 <= i < |a| && FailsOn(who, RowsOf(db, a)[i], d, max);
      var j := RowInBoth(db, a, b, i);
    }
  }

  /** Any two orders of one batch leave the same tables behind. */
  lemma PassIgnoresOrder(who: Who, db: Db, a: seq<Id>, b: seq<Id>, settings: Settings, now: Time)
    requires IsBatch(who, db, a, settings, now) && IsBatch(who, db, b, settings, now)
    requires OneJobPerDeployment(db.jobs) && SameIds(a, b)
    ensures ReconcilePass(who, db, a, settings, now) == ReconcilePass(who, db, b, settings, now)
  {
    hide Pass, Stale, Distinct, AllRunning, OneJobPerDeployment, IsBatch;
    var x, y := ReconcilePass(who, db, a, settings, now), ReconcilePass(who, db, b, settings, now);
    var max := settings.maxAttempts;
    BatchRows(who, db, a, settings, now);
    BatchRows(who, db, b, settings, now);
    forall id ensures id in x.jobs <==> id in y.jobs
      ensures id in x.jobs ==> x.jobs[id] == y.jobs[id] {
      PassJob(who, RowsOf(db, a), db, max, now, id);
      PassJob(who, RowsOf(db, b), db, max, now, id);
      if id in db.jobs { SameJob(who, db, a, b, settings, now, id); }
    }
    forall d ensures d in x.deployments <==> d in y.deployments
      ensures d in x.deployments ==> x.deployments[d] == y.deployments[d] {
      PassDeployment(who, RowsOf(db, a), db, max, now, d);
      PassDeployment(who, RowsOf(db, b), db, max, now, d);
      if d in db.deployments { SameDeployment(who, db, a, b, settings, now, d); }
    }
    assert x.jobs == y.jobs;
    assert x.deployments == y.deployments;
    forall d ensures d in x.evaluations <==> d in y.evaluations
      ensures d in x.evaluations ==> x.evaluations[d] == y.evaluations[d] {
      PassEvaluation(who, RowsOf(db, a), db, max, now, d);
      PassEvaluation(who, RowsOf(db, b), db, max, now, d);
      SameFailures(who, db, a, b, d, max);
      SameFailures(who, db, b, a, d, max);
    }
    assert x.evaluations == y.evaluations;
    forall p ensures p in x.projects <==> p in y.projects
      ensures p in x.projects ==> x.projects[p] == y.projects[p] {
      PassProject(who, RowsOf(db, a), db, max, now, p);
      PassProject(who, RowsOf(db, b), db, max, now, p);
      SameTouches(who, db, a, b, p, max);
      SameTouches(who, db, b, a, p, max);
    }
    assert x.projects == y.projects;
  }

  /** The four counts of the worker's pass add up to the batch. */
  lemma {:induction false} CountsCoverBatch(who: Who, rows: seq<Row>, db: Db, max: nat, now: Time)
    requires Distinct(rows) && AllRunning(rows, db)
    ensures Tally(who, rows, db, max, now).Total() == |rows|
  {
    hide Pass, Verdict;
    if rows != [] {
      var k := |rows| - 1;
      CountsCoverBatch(who, rows[..k], db, max, now);
      PassJob(who, rows[..k], db, max, now, rows[k].job);
    }
  }

  const EXAMPLE := Settings(180, 3, 25)

  /** One stale running job of a project that has a second, queued deployment. */
  function ExampleDb(d1: Deployment, d2: Deployment, j: Job): Db {
    Db(map[0 := j], map[1 := d1, 2 := d2], map[7 := "deploying"], map[])
  }

  ghost predicate ExampleRows(d1: Deployment, d2: Deployment, j: Job, now: Time) {
    j.status == Running && j.deployment == Some(1) && j.expires == Some(now - 1)
    && d1.project == 7 && d1.status == Some("building") && d2.project == 7 && d2.status == Some("queued")
  }

  lemma ExampleBatch(d1: Deployment, d2: Deployment, j: Job, now: Time)
    requires ExampleRows(d1, d2, j, now)
    ensures var db := ExampleDb(d1, d2, j);
            && IsBatch(Api, db, [0], EXAMPLE, now) && IsBatch(Worker, db, [0], EXAMPLE, now)
            && RowsOf(db, [0]) == [RowOf(db, 0)]
            && (forall who :: FailsOn(who, RowOf(db, 0), 1, 3))
  {
    var db := ExampleDb(d1, d2, j);
    assert 0 in StaleJobs(Api, db, now, 180) && 0 in StaleJobs(Worker, db, now, 180);
    LowerBuilding();
  }

  /** The worker spares a project with something still active; the API does not. */
  lemma ApiPassFailsActiveProject(d1: Deployment, d2: Deployment, j: Job, now: Time)
    requires ExampleRows(d1, d2, j, now)
    ensures var db := ExampleDb(d1, d2, j);
            && IsBatch(Api, db, [0], EXAMPLE, now) && IsBatch(Worker, db, [0], EXAMPLE, now)
            && ReconcilePass(Api, db, [0], EXAMPLE, now).projects == map[7 := "failed"]
            && ReconcilePass(Worker, db, [0], EXAMPLE, now).projects == map[7 := "deploying"]
            && StillActive(ReconcilePass(Api, db, [0], EXAMPLE, now).deployments, 7)
  {
    ExampleBatch(d1, d2, j, now);
    hide Pass, StaleJobs, IsBatch, RowsOf, LooksQueued, ApiDisposition, WorkerDisposition;
    var db := ExampleDb(d1, d2, j);
    var rows := RowsOf(db, [0]);
    assert Touches(Api, rows[0], db.deployments, 7, 3);
    PassProject(Api, rows, db, 3, now, 7);
    PassProject(Worker, rows, db, 3, now, 7);
    PassDeployment(Api, rows, db, 3, now, 2);
    PassDeployment(Worker, rows, db, 3, now, 2);
    assert !SomeFailsOn(Api, rows, 2, 3) && !SomeFailsOn(Worker, rows, 2, 3);
    assert ActiveIn(Pass(Api, rows, db, 3, now).deployments, 7, 2);
    assert ActiveIn(Pass(Worker, rows, db, 3, now).deployments, 7, 2);
    forall p ensures p in Pass(Api, rows, db, 3, now).projects <==> p == 7
      ensures p in Pass(Worker, rows, db, 3, now).projects <==> p == 7 {
      PassProject(Api, rows, db, 3, now, p);
      PassProject(Worker, rows, db, 3, now, p);
    }
  }

  lemma LowerBuilding()
    ensures !LooksQueued(Some("building"))
    ensures ApiDisposition(Some("building"), 0, 3) == Fail
    ensures forall n, m :: ApiDisposition(Some("building"), n, m) == Fail
  {
    assert Text.Lower("building")[0] == 'b';
    assert "queued"[0] == 'q' && "running"[0] == 'r' && "rolled_back"[0] == 'r';
  }
}
