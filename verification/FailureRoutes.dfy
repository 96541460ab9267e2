/** The three routes on which a failed job leaves its deployment active, each from an arbitrary state
    and each on a run from the start. */
module FailureRoutes {
  import opened Wrappers
  import opened Tables
  import opened Reconcile
  import opened JobQueue
  import opened JobRunner
  import opened PassMeaning
  import opened QueueProtocol
  import opened QueueInvariant
  import opened FailureHistory
  import Replay = ReplayCondition
  import Text

  ghost predicate FailedButActive(t: Traced, job: Id) {
    job in t.sys.db.jobs && job in t.records
    && t.sys.db.jobs[job].status == JobStatus.Failed && ActiveRow(t.sys, t.sys.db.jobs[job].deployment)
  }

  /** First route, without any crash: the pipeline returned on a row that is still active. */
  lemma FinishOnActiveRow(c: Settings, t: Traced, w: string, run: PipelineRun)
    requires HistInv(c, t) && PhaseOf(t.sys, w).Executing?
    requires Current(t.sys.db, PhaseOf(t.sys, w).lease) && ActiveRow(t.sys, PhaseOf(t.sys, w).lease.deployment)
    ensures var job := PhaseOf(t.sys, w).lease.job; var v := TraceStep(c, t, Finish(w, run));
            FailedButActive(v, job) && UnverifiedFinish(v.records[job])
  {
    hide TokensDistinct, LooksQueued, JobOk, OneJobPerDeployment, DeploymentOk, RecordOk, HolderOk, Apart, Close;
    var phase := t.sys.workers[w];
    assert WorkerOk(t.sys, phase);
    CloseShape(t.sys.db, phase.lease, FinalMark(RowFor(t.sys, phase.lease.deployment), run), t.sys.now);
  }

  /** Second route: the worker stops between closing the job and marking the deployment. */
  lemma CrashBeforeMark(c: Settings, t: Traced, w: string, reason: string)
    requires HistInv(c, t) && Enabled(c, t.sys, Raise(w, reason))
    requires Current(t.sys.db, PhaseOf(t.sys, w).lease) && ActiveRow(t.sys, PhaseOf(t.sys, w).lease.deployment)
    ensures var job := PhaseOf(t.sys, w).lease.job;
            var v := TraceStep(c, TraceStep(c, t, Raise(w, reason)), Crash(w));
            FailedButActive(v, job) && OwedMark(v.records[job])
  {
    hide TokensDistinct, LooksQueued, JobOk, OneJobPerDeployment, DeploymentOk, RecordOk, HolderOk, Apart, Close;
    var phase := t.sys.workers[w];
    assert WorkerOk(t.sys, phase);
    CloseShape(t.sys.db, phase.lease, MarkFailed(reason), t.sys.now);
  }

  /** Third route: a holder displaced by a pass writes an active status afterwards. */
  lemma LateWriteReactivates(c: Settings, t: Traced, w: string, row: Deployment)
    requires HistInv(c, t) && Enabled(c, t.sys, PipelineWrite(w, row)) && Active(row.status)
    requires PhaseOf(t.sys, w).lease.job in t.records
    ensures var job := PhaseOf(t.sys, w).lease.job; var v := TraceStep(c, t, PipelineWrite(w, row));
            FailedButActive(v, job) && LateWrite(v.records[job])
  {
    hide TokensDistinct, LooksQueued, JobOk, OneJobPerDeployment, DeploymentOk, HolderOk, Apart;
    var phase := t.sys.workers[w];
    assert WorkerOk(t.sys, phase) && RecordOk(t, phase.lease.job);
  }

  // ---- Each route is taken by some run --------------------------------------------------

  function Boundary(): seq<Label> {
    [Enqueue(0, Some(0), 7), Pop("w", 0, 1), Label.Persist("w", map[], "sha"), Label.Begin("w", Proof(false, true))]
  }

  const CROSSED := Deployment(7, Some("building"), None, None, None, map["internal_iac" := "sha"])

  /** Claimed, prepared and past the boundary, with the row at `building`. */
  lemma BoundaryState(c: Settings)
    requires 1 <= c.maxAttempts
    ensures Run(c, Init(map[], 0), Boundary()) == Replay.Working(c, CROSSED, Executing(Replay.LEASE), map[0 := 1])
  {
    hide Step, Init, Replay.Working, Replay.Fresh, NewDeployment;
    var d := NewDeployment(7).(metadata := map["internal_iac" := "sha"]);
    assert d.status == Some("queued") && d.(status := Some("building")) == CROSSED by { CrossedShape(); }
    Replay.EnqueueStep(c);
    Replay.PopStep(c);
    Replay.PersistStep(c);
    Replay.BeginStep(c, d);
    var ls := Boundary();
    var s2, s3 := Replay.Working(c, NewDeployment(7), Claimed(Replay.LEASE), map[]), Replay.Working(c, d, Persisted(Replay.LEASE), map[]);
    assert ls == [ls[0]] + ([ls[1]] + ([ls[2]] + ([ls[3]] + [])));
    Replay.RunCons(c, Init(map[], 0), ls[0], [ls[1]] + ([ls[2]] + ([ls[3]] + [])));
    Replay.RunCons(c, Replay.Fresh(), ls[1], [ls[2]] + ([ls[3]] + []));
    Replay.RunCons(c, s2, ls[2], [ls[3]] + []);
    Replay.RunCons(c, s3, ls[3], []);
  }

  lemma CrossedShape()
    ensures NewDeployment(7).(metadata := map["internal_iac" := "sha"]).status == Some("queued")
    ensures NewDeployment(7).(metadata := map["internal_iac" := "sha"]).(status := Some("building")) == CROSSED
  {
  }

  ghost predicate Reached(c: Settings, t: Traced) {
    exists ls: seq<Label> :: AllDisciplined(ls) && t == TraceRun(c, Start(map[], 0), ls)
  }

  lemma BoundaryReached(c: Settings) returns (t: Traced)
    requires 1 <= c.maxAttempts
    ensures Reached(c, t) && HistInv(c, t)
    ensures t.sys == Replay.Working(c, CROSSED, Executing(Replay.LEASE), map[0 := 1])
  {
    t := TraceRun(c, Start(map[], 0), Boundary());
    assert AllDisciplined(Boundary());
    BoundaryState(c);
    TraceIsRun(c, Start(map[], 0), Boundary());
    InitHolds(c, map[], 0);
    HistRun(c, Start(map[], 0), Boundary());
  }

  lemma {:induction false} TraceAppend(c: Settings, t: Traced, ls: seq<Label>, l: Label)
    ensures TraceRun(c, t, ls + [l]) == TraceStep(c, TraceRun(c, t, ls), l)
    decreases |ls|
  {
    hide TraceStep;
    if ls == [] {
      assert [l][1..] == [];
    } else {
      assert (ls + [l])[1..] == ls[1..] + [l];
      TraceAppend(c, TraceStep(c, t, ls[0]), ls[1..], l);
    }
  }

  lemma ReachedStep(c: Settings, t: Traced, l: Label)
    requires Reached(c, t) && Disciplined(l)
    ensures Reached(c, TraceStep(c, t, l))
  {
    hide TraceStep;
    var ls: seq<Label> :| AllDisciplined(ls) && t == TraceRun(c, Start(map[], 0), ls);
    TraceAppend(c, Start(map[], 0), ls, l);
    assert AllDisciplined(ls + [l]);
  }

  lemma FinishRouteTaken(c: Settings) returns (t: Traced)
    requires 1 <= c.maxAttempts
    ensures Reached(c, t) && FailedButActive(t, 0) && UnverifiedFinish(t.records[0])
  {
    var before := BoundaryReached(c);
    hide Reached, HistInv, FailedButActive, UnverifiedFinish;
    var l := Finish("w", PipelineRun(None, None));
    FinishOnActiveRow(c, before, "w", PipelineRun(None, None));
    ReachedStep(c, before, l);
    t := TraceStep(c, before, l);
  }

  lemma RaiseRouteTaken(c: Settings) returns (t: Traced)
    requires 1 <= c.maxAttempts
    ensures Reached(c, t) && FailedButActive(t, 0) && OwedMark(t.records[0])
  {
    var before := BoundaryReached(c);
    hide Reached, HistInv, FailedButActive, OwedMark;
    CrashBeforeMark(c, before, "w", "tool failed");
    ReachedStep(c, before, Raise("w", "tool failed"));
    var raised := TraceStep(c, before, Raise("w", "tool failed"));
    ReachedStep(c, raised, Crash("w"));
    t := TraceStep(c, raised, Crash("w"));
  }

  function Late(c: Settings): Label {
    Tick(1 + if c.leaseSeconds < 0 then 0 else c.leaseSeconds)
  }

  /** The worker's pass fails the expired claim of a holder that goes on executing. */
  lemma DisplacedByPass(c: Settings, s: Sys)
    requires 1 <= c.batchSize && s == Replay.Working(c, CROSSED, Executing(Replay.LEASE), map[0 := 1])
    ensures var late := Step(c, s, Late(c));
            && late.db == s.db && late.workers == s.workers
            && IsBatch(Worker, late.db, [0], c, late.now) && Verdict(Worker, RowOf(late.db, 0), c.maxAttempts) == Fail
  {
    var late := Step(c, s, Late(c));
    assert 0 in StaleJobs(Worker, late.db, late.now, c.leaseSeconds);
  }

  /** A pass never moves a deployment to another project. */
  lemma PassKeepsOwner(who: Who, s: Sys, batch: seq<Id>, c: Settings, d: Id)
    requires IsBatch(who, s.db, batch, c, s.now) && OneJobPerDeployment(s.db.jobs) && d in s.db.deployments
    ensures var after := ReconcilePass(who, s.db, batch, c, s.now);
            d in after.deployments && after.deployments[d].project == s.db.deployments[d].project
  {
    hide Pass, Stale, Verdict, IsBatch, Distinct, AllRunning, OneJobPerDeployment;
    BatchRows(who, s.db, batch, c, s.now);
    PassDeployment(who, RowsOf(s.db, batch), s.db, c.maxAttempts, s.now, d);
  }

  lemma LateWriteEnabled(c: Settings, before: Traced, after: Traced, w: string, row: Deployment)
    requires HistInv(c, before) && HistInv(c, after) && IsBatch(Worker, before.sys.db, [0], c, before.sys.now)
    requires after.sys == Do(c, before.sys, ReconcileBy(Worker, [0])) && PhaseOf(after.sys, w).Executing?
    requires PhaseOf(after.sys, w).lease.deployment == Some(0) && 0 in before.sys.db.deployments
    requires row.project == before.sys.db.deployments[0].project
    ensures Enabled(c, after.sys, PipelineWrite(w, row))
  {
    hide HistInv, IsBatch, ReconcilePass, OneJobPerDeployment;
    assert OneJobPerDeployment(before.sys.db.jobs) by { HistParts(c, before); }
    PassKeepsOwner(Worker, before.sys, [0], c, 0);
  }

  lemma HistParts(c: Settings, t: Traced)
    requires HistInv(c, t)
    ensures OneJobPerDeployment(t.sys.db.jobs)
  {
  }

  lemma PassRecords(c: Settings, t: Traced)
    requires HistInv(c, t) && IsBatch(Worker, t.sys.db, [0], c, t.sys.now)
    requires 0 in t.sys.db.jobs && Verdict(Worker, RowOf(t.sys.db, 0), c.maxAttempts) == Fail
    ensures var after := TraceStep(c, t, ReconcileBy(Worker, [0]));
            0 in after.records && after.sys.workers == t.sys.workers
            && after.sys == Do(c, t.sys, ReconcileBy(Worker, [0]))
  {
    hide ReconcilePass, IsBatch, Verdict, HistInv;
    assert 0 in FailedBy(c, t.sys, Worker, [0]);
  }

  lemma DisplacedReached(c: Settings) returns (late: Traced, after: Traced)
    requires 1 <= c.maxAttempts && 1 <= c.batchSize
    ensures Reached(c, after) && HistInv(c, late) && HistInv(c, after) && IsBatch(Worker, late.sys.db, [0], c, late.sys.now)
    ensures after.sys == Do(c, late.sys, ReconcileBy(Worker, [0])) && 0 in after.records
    ensures PhaseOf(after.sys, "w") == Executing(Replay.LEASE)
    ensures 0 in late.sys.db.deployments && late.sys.db.deployments[0] == CROSSED
  {
    var before := BoundaryReached(c);
    DisplacedByPass(c, before.sys);
    hide Reached, HistInv, IsBatch, Recorded, Do, Verdict, Enabled;
    late := TraceStep(c, before, Late(c));
    assert Enabled(c, before.sys, Late(c)) by { TickEnabled(c, before.sys); }
    ReachedStep(c, before, Late(c));
    HistStep(c, before, Late(c));
    var pass := ReconcileBy(Worker, [0]);
    assert Enabled(c, late.sys, pass) by { PassEnabled(c, late.sys); }
    ReachedStep(c, late, pass);
    HistStep(c, late, pass);
    PassRecords(c, late);
    after := TraceStep(c, late, pass);
  }

  lemma TickEnabled(c: Settings, s: Sys)
    ensures Enabled(c, s, Late(c)) && Disciplined(Late(c))
  {
  }

  lemma PassEnabled(c: Settings, s: Sys)
    ensures Enabled(c, s, ReconcileBy(Worker, [0])) <==> IsBatch(Worker, s.db, [0], c, s.now)
  {
    hide IsBatch;
  }

  lemma LateRouteTaken(c: Settings) returns (t: Traced)
    requires 1 <= c.maxAttempts && 1 <= c.batchSize
    ensures Reached(c, t) && FailedButActive(t, 0) && LateWrite(t.records[0])
  {
    var late, after := DisplacedReached(c);
    hide Reached, HistInv, FailedButActive, LateWrite, IsBatch, Do, Enabled, LooksQueued;
    var row := CROSSED.(status := Some("deploying"));
    var write := PipelineWrite("w", row);
    LateWriteEnabled(c, late, after, "w", row);
    LateWriteReactivates(c, after, "w", row);
    assert Disciplined(write) by { DeployingIsNotQueued(); }
    ReachedStep(c, after, write);
    t := TraceStep(c, after, write);
  }

  lemma DeployingIsNotQueued()
    ensures !LooksQueued(Some("deploying"))
  {
    assert Text.Lower("deploying")[0] == 'd' && "queued"[0] == 'q';
  }
}
