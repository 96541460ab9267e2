/** The invariant of the deployment queue, kept by every label. */
module QueueInvariant {
  import opened Wrappers
  import opened Tables
  import opened Reconcile
  import opened JobQueue
  import opened JobRunner
  import opened PassMeaning
  import opened DrainLaws
  import opened QueueProtocol
  import Text

  ghost predicate JobOk(c: Settings, s: Sys, id: Id)
    requires id in s.db.jobs
  {
    var j := s.db.jobs[id];
    && (j.deployment.Some? ==> j.deployment.value in s.db.deployments)
    && j.attempts == Count(s.claims, id) <= c.maxAttempts
    && (j.status == Queued ==> j.attempts < c.maxAttempts)
    && (j.status == Queued && j.deployment.Some? ==> LooksQueued(s.db.deployments[j.deployment.value].status))
    && (j.token.Some? <==> j.status == Running)
    && (j.token.Some? ==> j.token.value in s.issued && j.worker.Some? && j.expires.Some?)
  }

  ghost predicate DeploymentOk(s: Sys, d: Id)
    requires d in s.db.deployments
  {
    && Count(s.begun, d) <= 1
    && (Count(s.begun, d) == 1 ==> !LooksQueued(s.db.deployments[d].status))
    && (LooksQueued(s.db.deployments[d].status) ==> s.db.deployments[d].status == Some("queued"))
  }

  ghost predicate WorkerOk(s: Sys, phase: Phase) {
    phase.Idle? ||
    (&& phase.lease.token in s.issued
     && phase.lease.job in s.db.jobs
     && s.db.jobs[phase.lease.job].deployment == phase.lease.deployment
     && (phase.Executing? ==> phase.lease.deployment.Some? && Count(s.begun, phase.lease.deployment.value) == 1)
     && (phase.FailPending? ==> phase.lease.deployment.Some? && s.db.jobs[phase.lease.job].status == JobStatus.Failed))
  }

  ghost predicate TokensDistinct(jobs: map<Id, Job>) {
    forall i, j :: i in jobs && j in jobs && i != j && jobs[i].token.Some? ==> jobs[i].token != jobs[j].token
  }

  ghost predicate Inv(c: Settings, s: Sys) {
    && OneJobPerDeployment(s.db.jobs)
    && TokensDistinct(s.db.jobs)
    && s.claims.Keys <= s.db.jobs.Keys
    && s.begun.Keys <= s.db.deployments.Keys
    && (forall id <- s.db.jobs.Keys :: JobOk(c, s, id))
    && (forall d <- s.db.deployments.Keys :: DeploymentOk(s, d))
    && (forall w <- s.workers.Keys :: WorkerOk(s, s.workers[w]))
  }

  lemma QueuedReadsQueued()
    ensures LooksQueued(Some("queued"))
    ensures !LooksQueued(Some("building")) && !LooksQueued(Some("failed"))
  {
    assert Text.Lower("queued") == "queued";
    assert Text.Lower("building")[0] == 'b' && Text.Lower("failed")[0] == 'f';
    assert "queued"[0] == 'q';
  }

  lemma EnqueueKeeps(c: Settings, s: Sys, l: Label)
    requires Inv(c, s) && Enabled(c, s, l) && l.Enqueue? && 0 < c.maxAttempts
    ensures Inv(c, Do(c, s, l))
  {
    hide LooksQueued, JobOk, DeploymentOk, WorkerOk, OneJobPerDeployment, TokensDistinct;
    var after := Do(c, s, l);
    EnqueueStaysDistinct(c, s, l);
    forall id | id in after.db.jobs ensures JobOk(c, after, id) {
      EnqueueJobOk(c, s, l, id);
    }
    forall d | d in after.db.deployments ensures DeploymentOk(after, d) {
      EnqueueDeploymentOk(c, s, l, d);
    }
    forall w | w in after.workers ensures WorkerOk(after, after.workers[w]) {
      EnqueueWorkerOk(c, s, l, w);
    }
  }

  lemma EnqueueStaysDistinct(c: Settings, s: Sys, l: Label)
    requires Inv(c, s) && Enabled(c, s, l) && l.Enqueue?
    ensures OneJobPerDeployment(Do(c, s, l).db.jobs) && TokensDistinct(Do(c, s, l).db.jobs)
  {
    hide LooksQueued, DeploymentOk, WorkerOk;
    var jobs := Do(c, s, l).db.jobs;
    forall i | i in s.db.jobs && s.db.jobs[i].deployment.Some? ensures s.db.jobs[i].deployment != l.deployment {
      assert JobOk(c, s, i);
    }
  }

  lemma EnqueueJobOk(c: Settings, s: Sys, l: Label, id: Id)
    requires Inv(c, s) && Enabled(c, s, l) && l.Enqueue? && 0 < c.maxAttempts && id in Do(c, s, l).db.jobs
    ensures JobOk(c, Do(c, s, l), id)
  {
    hide LooksQueued, DeploymentOk, WorkerOk, OneJobPerDeployment, TokensDistinct;
    QueuedReadsQueued();
    if id != l.job {
      assert JobOk(c, s, id);
    }
  }

  lemma EnqueueDeploymentOk(c: Settings, s: Sys, l: Label, d: Id)
    requires Inv(c, s) && Enabled(c, s, l) && l.Enqueue? && d in Do(c, s, l).db.deployments
    ensures DeploymentOk(Do(c, s, l), d)
  {
    hide LooksQueued, JobOk, WorkerOk, OneJobPerDeployment, TokensDistinct;
    if d in s.db.deployments {
      assert DeploymentOk(s, d);
    }
  }

  lemma EnqueueWorkerOk(c: Settings, s: Sys, l: Label, w: string)
    requires Inv(c, s) && Enabled(c, s, l) && l.Enqueue? && w in Do(c, s, l).workers
    ensures WorkerOk(Do(c, s, l), Do(c, s, l).workers[w])
  {
    hide LooksQueued, JobOk, DeploymentOk, OneJobPerDeployment, TokensDistinct;
    assert WorkerOk(s, s.workers[w]);
  }

  /** One job row rewritten, and the worker that wrote it moved to a new phase. */
  ghost predicate Rewrites(c: Settings, s: Sys, after: Sys, id: Id, worker: string) {
    && id in s.db.jobs && id in after.db.jobs && worker in after.workers
    && after.db == s.db.(jobs := s.db.jobs[id := after.db.jobs[id]])
    && after.workers == s.workers[worker := after.workers[worker]]
    && after.begun == s.begun
    && s.issued <= after.issued
    && after.claims.Keys <= s.db.jobs.Keys
    && (forall other :: other != id ==> Count(after.claims, other) == Count(s.claims, other))
    && s.db.jobs[id].status != JobStatus.Failed
    && after.db.jobs[id].deployment == s.db.jobs[id].deployment
    && (after.db.jobs[id].token.Some? ==> after.db.jobs[id].token.value !in s.issued)
    && JobOk(c, after, id)
    && WorkerOk(after, after.workers[worker])
  }

  lemma RewriteKeeps(c: Settings, s: Sys, after: Sys, id: Id, worker: string)
    requires Inv(c, s) && Rewrites(c, s, after, id, worker)
    ensures Inv(c, after)
  {
    hide LooksQueued;
    forall other | other in after.db.jobs ensures JobOk(c, after, other) {
      if other != id { assert JobOk(c, s, other); }
    }
    forall w | w in after.workers ensures WorkerOk(after, after.workers[w]) {
      if w != worker { assert WorkerOk(s, s.workers[w]); }
    }
    forall d | d in after.db.deployments ensures DeploymentOk(after, d) {
      assert DeploymentOk(s, d);
    }
    forall i, j | i in after.db.jobs && j in after.db.jobs && i != j && after.db.jobs[i].token.Some?
      ensures after.db.jobs[i].token != after.db.jobs[j].token
    {
      assert i != id ==> JobOk(c, s, i);
      assert j != id ==> JobOk(c, s, j);
    }
  }

  lemma PopKeeps(c: Settings, s: Sys, l: Label)
    requires Inv(c, s) && Enabled(c, s, l) && l.Pop?
    ensures Inv(c, Do(c, s, l))
  {
    hide LooksQueued, OneJobPerDeployment, TokensDistinct;
    assert JobOk(c, s, l.job);
    RewriteKeeps(c, s, Do(c, s, l), l.job, l.worker);
  }

  lemma HeartbeatKeeps(c: Settings, s: Sys, l: Label)
    requires Inv(c, s) && Enabled(c, s, l) && l.Heartbeat?
    ensures Inv(c, Do(c, s, l))
  {
    hide LooksQueued, OneJobPerDeployment, TokensDistinct, DeploymentOk, WorkerOk;
    var v := Do(c, s, l);
    HeartbeatRows(s, l.lease, c.leaseSeconds);
    hide JobQueue.Heartbeat;
    assert OneJobPerDeployment(v.db.jobs) && TokensDistinct(v.db.jobs) by { SameColumns(s.db.jobs, v.db.jobs); }
    forall id | id in v.db.jobs ensures JobOk(c, v, id) {
      assert JobOk(c, s, id);
    }
    forall w | w in v.workers ensures WorkerOk(v, v.workers[w]) {
      assert WorkerOk(s, s.workers[w]);
      SameWorker(s, v, s.workers[w]);
    }
    forall d | d in v.db.deployments ensures DeploymentOk(v, d) {
      assert DeploymentOk(s, d);
      SameDeploymentRow(s, v, d);
    }
  }

  /** A heartbeat moves no column that the invariant speaks of, apart from giving an expiry. */
  lemma HeartbeatRows(s: Sys, lease: Lease, seconds: int)
    ensures var after := JobQueue.Heartbeat(s.db, lease.job, lease.worker, lease.token, seconds, s.now);
            && after == s.db.(jobs := after.jobs) && after.jobs.Keys == s.db.jobs.Keys
            && forall id <- s.db.jobs.Keys ::
                 && after.jobs[id].deployment == s.db.jobs[id].deployment && after.jobs[id].status == s.db.jobs[id].status
                 && after.jobs[id].token == s.db.jobs[id].token && after.jobs[id].worker == s.db.jobs[id].worker
                 && after.jobs[id].attempts == s.db.jobs[id].attempts
                 && (s.db.jobs[id].expires.Some? ==> after.jobs[id].expires.Some?)
  {
  }

  lemma SameColumns(a: map<Id, Job>, b: map<Id, Job>)
    requires a.Keys == b.Keys && OneJobPerDeployment(a) && TokensDistinct(a)
    requires forall id <- a.Keys :: b[id].deployment == a[id].deployment && b[id].token == a[id].token
    ensures OneJobPerDeployment(b) && TokensDistinct(b)
  {
  }

  lemma SameWorker(s: Sys, v: Sys, phase: Phase)
    requires WorkerOk(s, phase) && v.issued == s.issued && v.begun == s.begun && v.db.jobs.Keys == s.db.jobs.Keys
    requires forall id <- s.db.jobs.Keys ::
               v.db.jobs[id].deployment == s.db.jobs[id].deployment && v.db.jobs[id].status == s.db.jobs[id].status
    ensures WorkerOk(v, phase)
  {
  }

  lemma SameDeploymentRow(s: Sys, v: Sys, d: Id)
    requires d in s.db.deployments && DeploymentOk(s, d) && v.begun == s.begun
    requires d in v.db.deployments && v.db.deployments[d] == s.db.deployments[d]
    ensures DeploymentOk(v, d)
  {
    hide LooksQueued;
  }

  lemma PersistKeeps(c: Settings, s: Sys, l: Label)
    requires Inv(c, s) && Enabled(c, s, l) && l.Persist?
    ensures Inv(c, Do(c, s, l))
  {
    hide LooksQueued;
  }

  lemma BeginKeeps(c: Settings, s: Sys, l: Label)
    requires Inv(c, s) && Enabled(c, s, l) && l.Begin?
    ensures Inv(c, Do(c, s, l))
  {
    hide LooksQueued;
    QueuedReadsQueued();
  }

  lemma PipelineKeeps(c: Settings, s: Sys, l: Label)
    requires Inv(c, s) && Enabled(c, s, l) && l.PipelineWrite? && Disciplined(l)
    ensures Inv(c, Do(c, s, l))
  {
    hide LooksQueued;
  }

  lemma CloseKeeps(c: Settings, s: Sys, after: Sys, worker: string, mark: Mark)
    requires Inv(c, s) && worker in s.workers && !s.workers[worker].Idle?
    requires var lease := s.workers[worker].lease;
             && after.db == Close(s.db, lease, mark, s.now)
             && worker in after.workers
             && after == s.(db := after.db, workers := s.workers[worker := after.workers[worker]])
             && (after.workers[worker].Idle?
                 || (after.workers[worker].FailPending? && after.workers[worker].lease == lease
                     && lease.deployment.Some? && Current(s.db, lease) && mark.MarkFailed?))
    ensures Inv(c, after)
  {
    hide LooksQueued, OneJobPerDeployment, TokensDistinct;
    var lease := s.workers[worker].lease;
    assert WorkerOk(s, s.workers[worker]);
    if Current(s.db, lease) {
      assert JobOk(c, s, lease.job);
      RewriteKeeps(c, s, after, lease.job, worker);
    } else {
      assert after.db == s.db;
      assert forall id <- s.db.jobs.Keys :: JobOk(c, s, id) ==> JobOk(c, after, id);
      assert forall d <- s.db.deployments.Keys :: DeploymentOk(s, d) ==> DeploymentOk(after, d);
      assert forall w <- s.workers.Keys :: WorkerOk(s, s.workers[w]) ==> WorkerOk(after, s.workers[w]);
    }
  }

  lemma FinishKeeps(c: Settings, s: Sys, l: Label)
    requires Inv(c, s) && Enabled(c, s, l) && l.Finish?
    ensures Inv(c, Do(c, s, l))
  {
    hide Inv, FinalMark, Close;
    CloseKeeps(c, s, Do(c, s, l), l.worker, FinalMark(RowFor(s, s.workers[l.worker].lease.deployment), l.run));
  }

  lemma RaiseKeeps(c: Settings, s: Sys, l: Label)
    requires Inv(c, s) && Enabled(c, s, l) && l.Raise?
    ensures Inv(c, Do(c, s, l))
  {
    hide Inv, Close;
    CloseKeeps(c, s, Do(c, s, l), l.worker, MarkFailed(l.reason));
  }

  lemma MarkDeploymentKeeps(c: Settings, s: Sys, l: Label)
    requires Inv(c, s) && Enabled(c, s, l) && l.MarkDeployment?
    ensures Inv(c, Do(c, s, l))
  {
    hide LooksQueued;
    QueuedReadsQueued();
  }

  lemma CrashKeeps(c: Settings, s: Sys, l: Label)
    requires Inv(c, s) && Enabled(c, s, l) && (l.Crash? || l.Tick?)
    ensures Inv(c, Do(c, s, l))
  {
    hide LooksQueued;
  }

  // ---- Reconciliation -------------------------------------------------------------------

  /** A claim that a pass requeues has attempts left and a deployment that still reads as queued. */
  lemma RequeueIsSafe(who: Who, status: Option<string>, attempts: nat, max: nat)
    requires DispositionOf(who, status, attempts, max) == Requeue
    ensures attempts < max && LooksQueued(status)
  {
    QueuedReadsQueued();
  }

  lemma PassOnDeployment(who: Who, s: Sys, batch: seq<Id>, c: Settings, d: Id)
    requires IsBatch(who, s.db, batch, c, s.now) && OneJobPerDeployment(s.db.jobs) && d in s.db.deployments
    ensures var after := ReconcilePass(who, s.db, batch, c, s.now);
            && d in after.deployments
            && (after.deployments[d].status == s.db.deployments[d].status || after.deployments[d].status == Some("failed"))
            && ((forall id <- batch :: id in s.db.jobs && s.db.jobs[id].deployment == Some(d) ==>
                   Verdict(who, RowOf(s.db, id), c.maxAttempts) != Fail) ==>
                 after.deployments[d] == s.db.deployments[d])
  {
    hide Pass, Stale, Verdict, IsBatch, Distinct, AllRunning, OneJobPerDeployment;
    BatchRows(who, s.db, batch, c, s.now);
    var rows := RowsOf(s.db, batch);
    PassDeployment(who, rows, s.db, c.maxAttempts, s.now, d);
    if SomeFailsOn(who, rows, d, c.maxAttempts) {
      var i :| 0 <= i < |rows| && FailsOn(who, rows[i], d, c.maxAttempts);
      assert batch[i] in batch && rows[i].deployment == s.db.jobs[batch[i]].deployment;
    }
  }

  /** The row a pass leaves for a job of its batch. */
  lemma PassOnBatchJob(who: Who, s: Sys, batch: seq<Id>, c: Settings, id: Id)
    requires IsBatch(who, s.db, batch, c, s.now) && OneJobPerDeployment(s.db.jobs) && id in batch
    ensures id in s.db.jobs && s.db.jobs[id].status == Running
    ensures var after := ReconcilePass(who, s.db, batch, c, s.now);
            id in after.jobs && after.jobs[id] == SettleJob(who, RowOf(s.db, id), s.db.jobs[id], c.maxAttempts, s.now)
  {
    hide Pass, Stale, Verdict, IsBatch, Distinct, AllRunning, OneJobPerDeployment, SettleJob;
    BatchRows(who, s.db, batch, c, s.now);
    var i :| 0 <= i < |batch| && batch[i] == id;
    assert RowsOf(s.db, batch)[i].job == id;
    assert id in s.db.jobs && s.db.jobs[id].status == Running by {
      ReadRunning(RowsOf(s.db, batch), s.db, i);
    }
    PassJob(who, RowsOf(s.db, batch), s.db, c.maxAttempts, s.now, id);
  }

  lemma ReadRunning(rows: seq<Row>, db: Db, i: int)
    requires AllRunning(rows, db) && 0 <= i < |rows|
    ensures rows[i].job in db.jobs && db.jobs[rows[i].job].status == Running
  {
  }

  lemma ReconcileKeepsJob(c: Settings, s: Sys, l: Label, id: Id)
    requires Inv(c, s) && Enabled(c, s, l) && l.ReconcileBy? && id in s.db.jobs
    ensures id in Do(c, s, l).db.jobs && JobOk(c, Do(c, s, l), id)
    ensures JobKept(s.db.jobs[id], Do(c, s, l).db.jobs[id], id in l.batch)
    ensures Do(c, s, l).db.jobs[id].token.Some? ==> Do(c, s, l).db.jobs[id].token == s.db.jobs[id].token
  {
    hide LooksQueued, ReconcilePass, IsBatch, OneJobPerDeployment, TokensDistinct, SettleJob;
    assert JobOk(c, s, id);
    PassOnJob(l.who, s.db, l.batch, c, s.now, id);
    var j := s.db.jobs[id];
    if j.deployment.Some? {
      PassOnDeployment(l.who, s, l.batch, c, j.deployment.value);
    }
    if id in l.batch {
      PassOnBatchJob(l.who, s, l.batch, c, id);
      SettledJobShape(l.who, RowOf(s.db, id), j, c.maxAttempts, s.now);
      if Verdict(l.who, RowOf(s.db, id), c.maxAttempts) == Requeue {
        RequeueIsSafe(l.who, RowOf(s.db, id).status, j.attempts, c.maxAttempts);
        OnlyJobOf(s.db.jobs, id);
      }
    } else {
      OnlyJobOf(s.db.jobs, id);
    }
  }

  lemma OnlyJobOf(jobs: map<Id, Job>, id: Id)
    requires OneJobPerDeployment(jobs) && id in jobs
    ensures jobs[id].deployment.Some? ==>
              forall other <- jobs.Keys :: other != id ==> jobs[other].deployment != jobs[id].deployment
  {
  }

  lemma SettledJobShape(who: Who, r: Row, j: Job, max: nat, now: Time)
    ensures var after := SettleJob(who, r, j, max, now);
            && after.status != Running && after.token.None?
            && (after.status == Queued <==> Verdict(who, r, max) == Requeue)
  {
  }

  lemma ReconcileKeepsDeployment(c: Settings, s: Sys, l: Label, d: Id)
    requires Inv(c, s) && Enabled(c, s, l) && l.ReconcileBy?
    ensures d in Do(c, s, l).db.deployments <==> d in s.db.deployments
    ensures d in s.db.deployments ==> DeploymentOk(Do(c, s, l), d)
  {
    hide LooksQueued, ReconcilePass, IsBatch, OneJobPerDeployment, TokensDistinct;
    PassKeepsDeploymentKeys(l.who, s.db, l.batch, c, s.now, d);
    if d in s.db.deployments {
      assert DeploymentOk(s, d);
      PassOnDeployment(l.who, s, l.batch, c, d);
      QueuedReadsQueued();
    }
  }

  lemma PassKeepsDeploymentKeys(who: Who, db: Db, batch: seq<Id>, c: Settings, now: Time, d: Id)
    requires IsBatch(who, db, batch, c, now) && OneJobPerDeployment(db.jobs)
    ensures d in ReconcilePass(who, db, batch, c, now).deployments <==> d in db.deployments
  {
    hide Pass, Stale, IsBatch, Distinct, AllRunning, OneJobPerDeployment;
    BatchRows(who, db, batch, c, now);
    PassDeployment(who, RowsOf(db, batch), db, c.maxAttempts, now, d);
  }

  lemma ReconcileKeeps(c: Settings, s: Sys, l: Label)
    requires Inv(c, s) && Enabled(c, s, l) && l.ReconcileBy?
    ensures Inv(c, Do(c, s, l))
  {
    hide LooksQueued, ReconcilePass, OneJobPerDeployment, IsBatch, JobOk, DeploymentOk;
    var after := Do(c, s, l);
    PassKeepsJobs(l.who, s.db, l.batch, c, s.now);
    forall id | id in after.db.jobs
      ensures JobOk(c, after, id)
      ensures JobKept(s.db.jobs[id], after.db.jobs[id], id in l.batch)
      ensures after.db.jobs[id].token.Some? ==> after.db.jobs[id].token == s.db.jobs[id].token
    {
      ReconcileKeepsJob(c, s, l, id);
    }
    forall d ensures d in after.db.deployments <==> d in s.db.deployments
      ensures d in after.db.deployments ==> DeploymentOk(after, d) {
      ReconcileKeepsDeployment(c, s, l, d);
    }
    forall id | id in l.batch ensures id in s.db.jobs && s.db.jobs[id].status == Running {
      PassOnBatchJob(l.who, s, l.batch, c, id);
    }
    forall w | w in after.workers ensures WorkerOk(after, after.workers[w]) {
      assert WorkerOk(s, s.workers[w]);
    }
  }

  /** Every label keeps the invariant, provided the pipeline body is disciplined. */
  lemma StepKeeps(c: Settings, s: Sys, l: Label)
    requires Inv(c, s) && Enabled(c, s, l) && Disciplined(l) && 0 < c.maxAttempts
    ensures Inv(c, Do(c, s, l))
  {
    hide Inv, Do, Enabled;
    match l
    case Enqueue(_, _, _) => EnqueueKeeps(c, s, l);
    case Pop(_, _, _) => PopKeeps(c, s, l);
    case Heartbeat(_) => HeartbeatKeeps(c, s, l);
    case Persist(_, _, _) => PersistKeeps(c, s, l);
    case Begin(_, _) => BeginKeeps(c, s, l);
    case PipelineWrite(_, _) => PipelineKeeps(c, s, l);
    case Finish(_, _) => FinishKeeps(c, s, l);
    case Raise(_, _) => RaiseKeeps(c, s, l);
    case MarkDeployment(_) => MarkDeploymentKeeps(c, s, l);
    case Crash(_) => CrashKeeps(c, s, l);
    case ReconcileBy(_, _) => ReconcileKeeps(c, s, l);
    case Tick(_) => CrashKeeps(c, s, l);
  }

  lemma {:induction false} RunKeeps(c: Settings, s: Sys, ls: seq<Label>)
    requires Inv(c, s) && AllDisciplined(ls) && 0 < c.maxAttempts
    ensures Inv(c, Run(c, s, ls))
    decreases |ls|
  {
    hide Inv, Do, Enabled;
    if ls != [] {
      if Enabled(c, s, ls[0]) { StepKeeps(c, s, ls[0]); }
      RunKeeps(c, Step(c, s, ls[0]), ls[1..]);
    }
  }

  lemma InitHolds(c: Settings, projects: map<Id, string>, now: Time)
    ensures Inv(c, Init(projects, now))
  {
  }

  /** Every state of every run, from any starting set of projects. */
  lemma ReachableInv(c: Settings, projects: map<Id, string>, now: Time, ls: seq<Label>)
    requires AllDisciplined(ls) && 0 < c.maxAttempts
    ensures Inv(c, Run(c, Init(projects, now), ls))
  {
    InitHolds(c, projects, now);
    RunKeeps(c, Init(projects, now), ls);
  }
}
