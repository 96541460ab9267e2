/** Exactly when the pipeline body's status writes can make a crossed job run again. */
module ReplayCondition {
  import opened Wrappers
  import opened Tables
  import opened Reconcile
  import opened JobQueue
  import opened JobRunner
  import opened QueueProtocol
  import opened QueueInvariant
  import opened QueueTheorems

  ghost predicate WritesOnly(ls: seq<Label>, status: Option<string>) {
    forall l <- ls :: l.PipelineWrite? ==> l.row.status == status
  }

  /** Some run whose pipeline writes only this status claims a job after its deployment was crossed. */
  ghost predicate ReplayPossible(c: Settings, status: Option<string>) {
    exists before: seq<Label>, after: seq<Label>, d: Id, job: Id ::
      Replays(c, status, before, after, d, job)
  }

  ghost predicate Replays(c: Settings, status: Option<string>, before: seq<Label>, after: seq<Label>, d: Id, job: Id) {
    var s := Run(c, Init(map[], 0), before);
    && WritesOnly(before, status) && WritesOnly(after, status)
    && Count(s.begun, d) == 1
    && job in s.db.jobs && s.db.jobs[job].deployment == Some(d)
    && Count(Run(c, s, after).claims, job) > Count(s.claims, job)
  }

  lemma NoReplay(c: Settings, status: Option<string>, before: seq<Label>, after: seq<Label>, d: Id, job: Id)
    requires 0 < c.maxAttempts && Replays(c, status, before, after, d, job)
    ensures LooksQueued(status)
  {
    hide LooksQueued, Run, JobOk, WorkerOk;
    if !LooksQueued(status) {
      ReachableInv(c, map[], 0, before);
      var s := Run(c, Init(map[], 0), before);
      assert DeploymentOk(s, d);
      NeverClaimedAgain(c, s, after, d, job);
    }
  }

  function Before(status: Option<string>): seq<Label> {
    [Enqueue(0, Some(0), 7), Pop("w", 0, 1), Label.Persist("w", map[], "sha"), Label.Begin("w", Proof(false, true)),
     PipelineWrite("w", Deployment(7, status, None, None, None, map[])), Crash("w")]
  }

  function After(c: Settings): seq<Label> {
    [Tick(1 + if c.leaseSeconds < 0 then 0 else c.leaseSeconds), ReconcileBy(Api, [0]), Pop("v", 0, 2)]
  }

  lemma RunCons(c: Settings, s: Sys, l: Label, ls: seq<Label>)
    ensures Run(c, s, [l] + ls) == Run(c, Step(c, s, l), ls)
  {
    assert ([l] + ls)[1..] == ls;
  }

  // The states of the run, written out.

  function Opened(jobs: map<Id, Job>, d: Deployment): Db {
    Db(jobs, map[0 := d], map[7 := "deploying"], map[0 := "pending"])
  }

  function Fresh(): Sys {
    Sys(Opened(map[0 := NewJob(Some(0), 0)], NewDeployment(7)), 0, map[], {}, map[], map[])
  }

  const LEASE := Lease(0, "w", 1, Some(0))

  function Working(c: Settings, d: Deployment, phase: Phase, begun: map<Id, nat>): Sys {
    Sys(Opened(map[0 := ClaimJob(NewJob(Some(0), 0), "w", 1, c.leaseSeconds, 0)], d), 0,
        map["w" := phase], {1}, map[0 := 1], begun)
  }

  lemma EnqueueStep(c: Settings)
    ensures Step(c, Init(map[], 0), Enqueue(0, Some(0), 7)) == Fresh()
  {
  }

  lemma PopStep(c: Settings)
    requires 1 <= c.maxAttempts
    ensures Step(c, Fresh(), Pop("w", 0, 1)) == Working(c, NewDeployment(7), Claimed(LEASE), map[])
  {
    assert 0 in ClaimableJobs(Fresh().db, c.maxAttempts);
    assert map[0 := NewJob(Some(0), 0)][0 := ClaimJob(NewJob(Some(0), 0), "w", 1, c.leaseSeconds, 0)]
        == map[0 := ClaimJob(NewJob(Some(0), 0), "w", 1, c.leaseSeconds, 0)];
  }

  lemma PersistStep(c: Settings)
    ensures Step(c, Working(c, NewDeployment(7), Claimed(LEASE), map[]), Label.Persist("w", map[], "sha"))
         == Working(c, NewDeployment(7).(metadata := map["internal_iac" := "sha"]), Persisted(LEASE), map[])
  {
    var s := Working(c, NewDeployment(7), Claimed(LEASE), map[]);
    assert MayPersist(s.db, LEASE);
  }

  lemma BeginStep(c: Settings, d: Deployment)
    requires d.status == Some("queued")
    ensures Step(c, Working(c, d, Persisted(LEASE), map[]), Label.Begin("w", Proof(false, true)))
         == Working(c, d.(status := Some("building")), Executing(LEASE), map[0 := 1])
  {
    var s := Working(c, d, Persisted(LEASE), map[]);
    assert MayBegin(s.db, LEASE, Proof(false, true));
  }

  lemma WriteStep(c: Settings, d: Deployment, row: Deployment)
    requires row.project == d.project
    ensures Step(c, Working(c, d, Executing(LEASE), map[0 := 1]), PipelineWrite("w", row))
         == Working(c, row, Executing(LEASE), map[0 := 1])
  {
  }

  lemma CrashStep(c: Settings, d: Deployment, phase: Phase, begun: map<Id, nat>)
    ensures Step(c, Working(c, d, phase, begun), Crash("w")) == Working(c, d, Idle, begun)
  {
  }

  /** The first half: claimed, crossed, status written, crashed. */
  lemma BeforeState(c: Settings, status: Option<string>)
    requires 2 <= c.maxAttempts
    ensures Run(c, Init(map[], 0), Before(status))
         == Working(c, Deployment(7, status, None, None, None, map[]), Idle, map[0 := 1])
  {
    hide Step, Init, Working, Fresh, NewDeployment;
    var d := NewDeployment(7).(metadata := map["internal_iac" := "sha"]);
    assert d.status == Some("queued") && d.project == 7 by {
      DeploymentShape();
    }
    var row := Deployment(7, status, None, None, None, map[]);
    EnqueueStep(c);
    PopStep(c);
    PersistStep(c);
    BeginStep(c, d);
    WriteStep(c, d.(status := Some("building")), row);
    CrashStep(c, row, Executing(LEASE), map[0 := 1]);
    BeforeRun(c, status, Init(map[], 0), Fresh(), Working(c, NewDeployment(7), Claimed(LEASE), map[]),
      Working(c, d, Persisted(LEASE), map[]), Working(c, d.(status := Some("building")), Executing(LEASE), map[0 := 1]),
      Working(c, row, Executing(LEASE), map[0 := 1]), Working(c, row, Idle, map[0 := 1]));
  }

  lemma DeploymentShape()
    ensures NewDeployment(7).status == Some("queued") && NewDeployment(7).project == 7
  {
  }

  lemma BeforeRun(c: Settings, status: Option<string>, s0: Sys, s1: Sys, s2: Sys, s3: Sys, s4: Sys, s5: Sys, s6: Sys)
    requires var ls := Before(status);
             && s1 == Step(c, s0, ls[0]) && s2 == Step(c, s1, ls[1]) && s3 == Step(c, s2, ls[2])
             && s4 == Step(c, s3, ls[3]) && s5 == Step(c, s4, ls[4]) && s6 == Step(c, s5, ls[5])
    ensures Run(c, s0, Before(status)) == s6
  {
    hide Step;
    var ls := Before(status);
    assert ls == [ls[0]] + ([ls[1]] + ([ls[2]] + ([ls[3]] + ([ls[4]] + ([ls[5]] + [])))));
    RunCons(c, s0, ls[0], [ls[1]] + ([ls[2]] + ([ls[3]] + ([ls[4]] + ([ls[5]] + [])))));
    RunCons(c, s1, ls[1], [ls[2]] + ([ls[3]] + ([ls[4]] + ([ls[5]] + []))));
    RunCons(c, s2, ls[2], [ls[3]] + ([ls[4]] + ([ls[5]] + [])));
    RunCons(c, s3, ls[3], [ls[4]] + ([ls[5]] + []));
    RunCons(c, s4, ls[4], [ls[5]] + []);
    RunCons(c, s5, ls[5], []);
  }

  /** The second half: the lease expires, the API requeues the job, another worker claims it. */
  lemma AfterClaims(c: Settings, status: Option<string>, s: Sys)
    requires 2 <= c.maxAttempts && 1 <= c.batchSize && LooksQueued(status)
    requires s == Working(c, Deployment(7, status, None, None, None, map[]), Idle, map[0 := 1])
    ensures Count(Run(c, s, After(c)).claims, 0) == 2
  {
    hide LooksQueued;
    var ls := After(c);
    var s1 := Step(c, s, ls[0]);
    assert 0 in StaleJobs(Api, s1.db, s1.now, c.leaseSeconds);
    assert IsBatch(Api, s1.db, [0], c, s1.now);
    var rows := RowsOf(s1.db, [0]);
    assert rows == [RowOf(s1.db, 0)];
    assert Verdict(Api, rows[0], c.maxAttempts) == Requeue;
    assert rows[..0] == [];
    assert Pass(Api, rows, s1.db, c.maxAttempts, s1.now) == SettleRow(Api, rows[0], s1.db, c.maxAttempts, s1.now);
    var s2 := Step(c, s1, ls[1]);
    assert 0 in ClaimableJobs(s2.db, c.maxAttempts);
    var s3 := Step(c, s2, ls[2]);
    assert Count(s3.claims, 0) == 2;
    assert ls == [ls[0]] + ([ls[1]] + ([ls[2]] + []));
    RunCons(c, s, ls[0], [ls[1]] + ([ls[2]] + []));
    RunCons(c, s1, ls[1], [ls[2]] + []);
    RunCons(c, s2, ls[2], []);
  }

  /** With at least two attempts allowed: replay is possible exactly for statuses that read as queued. */
  lemma ReplayExactly(c: Settings, status: Option<string>)
    requires 2 <= c.maxAttempts && 1 <= c.batchSize
    ensures ReplayPossible(c, status) <==> LooksQueued(status)
  {
    hide LooksQueued, Run;
    if LooksQueued(status) {
      BeforeState(c, status);
      AfterClaims(c, status, Run(c, Init(map[], 0), Before(status)));
      assert Replays(c, status, Before(status), After(c), 0, 0);
    }
    forall before: seq<Label>, after: seq<Label>, d: Id, job: Id | Replays(c, status, before, after, d, job)
      ensures LooksQueued(status)
    {
      NoReplay(c, status, before, after, d, job);
    }
  }
}
