/** What a holder can still write once its lease is no longer current: exactly two things. */
module Fencing {
  import opened Wrappers
  import opened Tables
  import opened Reconcile
  import opened JobQueue
  import opened JobRunner
  import opened PassMeaning
  import opened DrainLaws
  import opened QueueProtocol
  import opened QueueInvariant
  import opened QueueTheorems
  import opened FailureHistory
  import opened FailureRoutes
  import Replay = ReplayCondition

  /** Labels a worker takes while it carries this lease, and heartbeats sent with it. */
  predicate OfHolder(s: Sys, l: Label, lease: Lease) {
    match l
    case Heartbeat(x) => x == lease
    case Enqueue(_, _, _) => false
    case Pop(_, _, _) => false
    case ReconcileBy(_, _) => false
    case Tick(_) => false
    case _ => !PhaseOf(s, l.worker).Idle? && PhaseOf(s, l.worker).lease == lease
  }

  /** The failure mark finds something to rewrite: an active deployment, a pending evaluation, or a
      deploying project with nothing else active. */
  ghost predicate MarkBites(db: Db, d: Id) {
    || (d in db.deployments && Active(db.deployments[d].status))
    || (d in db.evaluations && db.evaluations[d] == "pending")
    || (d in db.deployments && db.deployments[d].project in db.projects
        && db.projects[db.deployments[d].project] == "deploying"
        && forall other <- db.deployments.Keys :: other != d ==> !ActiveIn(db.deployments, db.deployments[d].project, other))
  }

  lemma MarkChangesExactly(db: Db, d: Id, reason: string, now: Time)
    ensures FailDeployment(Worker, d, reason, db, now) != db <==> MarkBites(db, d)
  {
    var after := FailDeployment(Worker, d, reason, db, now);
    if d in db.deployments {
      SettledRow(db.deployments[d], reason, now);
      var p := db.deployments[d].project;
      assert forall other :: other != d ==> (ActiveIn(after.deployments, p, other) <==> ActiveIn(db.deployments, p, other));
      assert after.deployments == db.deployments <==> !Active(db.deployments[d].status) by {
        assert after.deployments[d] == SettleDeployment(Worker, reason, db.deployments[d], now);
      }
      ProjectChanges(db, after, d);
    }
    assert after.evaluations == db.evaluations <==> !(d in db.evaluations && db.evaluations[d] == "pending") by {
      if d in db.evaluations && db.evaluations[d] == "pending" {
        assert after.evaluations[d] == "failed";
      }
    }
  }

  lemma SettledRow(row: Deployment, reason: string, now: Time)
    ensures SettleDeployment(Worker, reason, row, now) == row <==> !Active(row.status)
    ensures SettleDeployment(Worker, reason, row, now).project == row.project
  {
  }

  lemma ProjectChanges(db: Db, after: Db, d: Id)
    requires d in db.deployments && after.deployments.Keys == db.deployments.Keys
    requires after.deployments[d].project == db.deployments[d].project
    requires after.projects == ProjectsAfter(Worker, d, after.deployments, db.projects)
    requires forall other :: other != d ==>
               (ActiveIn(after.deployments, db.deployments[d].project, other)
                <==> ActiveIn(db.deployments, db.deployments[d].project, other))
    ensures after.projects != db.projects <==>
              && db.deployments[d].project in db.projects && db.projects[db.deployments[d].project] == "deploying"
              && forall other <- db.deployments.Keys :: other != d ==>
                   !ActiveIn(db.deployments, db.deployments[d].project, other)
  {
    var p := db.deployments[d].project;
    if p in db.projects && db.projects[p] == "deploying" && ProjectFails(Worker, after.deployments, p, d) {
      assert after.projects[p] == "failed";
    }
  }

  /** One step of a holder whose lease is not current. */
  lemma StaleStepExactly(c: Settings, s: Sys, lease: Lease, l: Label)
    requires Enabled(c, s, l) && OfHolder(s, l, lease) && !Current(s.db, lease)
    ensures Step(c, s, l).db != s.db <==>
              || (l.MarkDeployment? && MarkBites(s.db, lease.deployment.value))
              || (l.PipelineWrite? && l.row != s.db.deployments[lease.deployment.value])
  {
    hide LooksQueued, FinalMark, FailDeployment, MarkBites, ClaimableJobs;
    if l.MarkDeployment? {
      MarkChangesExactly(s.db, lease.deployment.value, PhaseOf(s, l.worker).reason, s.now);
    } else if l.PipelineWrite? {
      var d := lease.deployment.value;
      assert Step(c, s, l).db.deployments[d] == l.row;
      if l.row == s.db.deployments[d] {
        assert s.db.deployments[d := l.row] == s.db.deployments;
      }
    }
  }

  /**
   Fencing, in every continuation: once a token's interval has ended, a step of its holder changes a
   row if and only if it is the failure mark its own raise still owes, finding something to rewrite,
   or a pipeline write of a holder that is still executing, writing a different row.
   */
  lemma FencedExactly(c: Settings, s: Sys, ls: seq<Label>, lease: Lease, l: Label)
    requires Inv(c, s) && AllDisciplined(ls) && 0 < c.maxAttempts
    requires lease.token in s.issued && !TokenAt(s, lease.token, lease.job, lease.worker)
    requires Enabled(c, Run(c, s, ls), l) && OfHolder(Run(c, s, ls), l, lease)
    ensures var v := Run(c, s, ls);
            Step(c, v, l).db != v.db <==>
              || (l.MarkDeployment? && MarkBites(v.db, lease.deployment.value))
              || (l.PipelineWrite? && l.row != v.db.deployments[lease.deployment.value])
  {
    hide Inv, Run, Step, Enabled, MarkBites, AllDisciplined, OfHolder;
    var v := Run(c, s, ls);
    if TokenAt(v, lease.token, lease.job, lease.worker) {
      TokenNeverReturns(c, s, ls, lease.token, lease.job, lease.worker);
    }
    StaleStepExactly(c, v, lease, l);
  }

  // ---- Both exceptions are real ---------------------------------------------------------

  /** Closing the job ends the interval, and the mark that follows still fails the deployment. */
  lemma MarkOutlivesToken(c: Settings, s: Sys, w: string, reason: string)
    requires Inv(c, s) && Enabled(c, s, Raise(w, reason)) && Current(s.db, PhaseOf(s, w).lease)
    requires ActiveRow(s, PhaseOf(s, w).lease.deployment)
    ensures var lease := PhaseOf(s, w).lease; var raised := Step(c, s, Raise(w, reason));
            && lease.token in raised.issued && !TokenAt(raised, lease.token, lease.job, lease.worker)
            && Enabled(c, raised, MarkDeployment(w)) && OfHolder(raised, MarkDeployment(w), lease)
            && Step(c, raised, MarkDeployment(w)).db != raised.db
  {
    hide LooksQueued, JobOk, OneJobPerDeployment, TokensDistinct, DeploymentOk, Close, FailDeployment;
    var phase := s.workers[w];
    assert WorkerOk(s, phase);
    CloseShape(s.db, phase.lease, MarkFailed(reason), s.now);
    var raised := Step(c, s, Raise(w, reason));
    MarkChangesExactly(raised.db, phase.lease.deployment.value, reason, raised.now);
  }

  /** A holder displaced while executing still writes its deployment row, whatever row it likes. */
  lemma DisplacedStillWrites(c: Settings, s: Sys, w: string, row: Deployment)
    requires Enabled(c, s, PipelineWrite(w, row)) && !Current(s.db, PhaseOf(s, w).lease)
    requires row != s.db.deployments[PhaseOf(s, w).lease.deployment.value]
    ensures OfHolder(s, PipelineWrite(w, row), PhaseOf(s, w).lease) && Step(c, s, PipelineWrite(w, row)).db != s.db
  {
    StaleStepExactly(c, s, PhaseOf(s, w).lease, PipelineWrite(w, row));
  }

  /** Some run from the start takes the first exception: after its raise the holder marks the deployment. */
  lemma MarkExceptionTaken(c: Settings) returns (t: Traced)
    requires 1 <= c.maxAttempts
    ensures Reached(c, t) && !Current(t.sys.db, Replay.LEASE)
    ensures Enabled(c, t.sys, MarkDeployment("w")) && OfHolder(t.sys, MarkDeployment("w"), Replay.LEASE)
    ensures Step(c, t.sys, MarkDeployment("w")).db != t.sys.db
  {
    var before := BoundaryReached(c);
    hide Reached;
    MarkOutlivesToken(c, before.sys, "w", "tool failed");
    ReachedStep(c, before, Raise("w", "tool failed"));
    t := TraceStep(c, before, Raise("w", "tool failed"));
  }

  /** Some run takes the second: a holder displaced by a pass writes its row. */
  lemma WriteExceptionTaken(c: Settings) returns (t: Traced, row: Deployment)
    requires 1 <= c.maxAttempts && 1 <= c.batchSize
    ensures Reached(c, t) && !Current(t.sys.db, Replay.LEASE)
    ensures Enabled(c, t.sys, PipelineWrite("w", row)) && OfHolder(t.sys, PipelineWrite("w", row), Replay.LEASE)
    ensures Step(c, t.sys, PipelineWrite("w", row)).db != t.sys.db
  {
    var late, after := DisplacedReached(c);
    hide Reached, HistInv, IsBatch, Do, Enabled, Step;
    row := CROSSED.(status := Some("deploying"));
    LateWriteEnabled(c, late, after, "w", row);
    t := after;
    assert !Current(t.sys.db, Replay.LEASE) by { FailedIsNotCurrent(c, t, Replay.LEASE); }
    if row == t.sys.db.deployments[0] {
      row := CROSSED;
      LateWriteEnabled(c, late, after, "w", row);
    }
    DisplacedStillWrites(c, t.sys, "w", row);
  }

  lemma FailedIsNotCurrent(c: Settings, t: Traced, lease: Lease)
    requires HistInv(c, t) && lease.job in t.records
    ensures !Current(t.sys.db, lease)
  {
    hide Inv, HolderOk, Apart;
    assert RecordOk(t, lease.job);
  }

  // ---- What a pass gives back to the queue ----------------------------------------------

  /** In every run, a job that either pass puts back is claimable again, has attempts left, its
      deployment is exactly `queued`, and that deployment was never crossed. */
  lemma RequeuedIsUntouched(c: Settings, projects: map<Id, string>, now: Time, ls: seq<Label>, who: Who, batch: seq<Id>, id: Id)
    requires AllDisciplined(ls) && 0 < c.maxAttempts
    requires Enabled(c, Run(c, Init(projects, now), ls), ReconcileBy(who, batch)) && id in batch
    ensures var s := Run(c, Init(projects, now), ls); var after := Step(c, s, ReconcileBy(who, batch));
            id in after.db.jobs && (after.db.jobs[id].status == Queued ==>
              && id in ClaimableJobs(after.db, c.maxAttempts)
              && (after.db.jobs[id].deployment.Some? ==>
                    && after.db.jobs[id].deployment.value in after.db.deployments
                    && after.db.deployments[after.db.jobs[id].deployment.value].status == Some("queued")
                    && Count(after.begun, after.db.jobs[id].deployment.value) == 0))
  {
    hide Run, LooksQueued, ReconcilePass, IsBatch, OneJobPerDeployment, TokensDistinct, WorkerOk;
    ReachableInv(c, projects, now, ls);
    var s := Run(c, Init(projects, now), ls);
    var l := ReconcileBy(who, batch);
    PassOnBatchJob(who, s, batch, c, id);
    ReconcileKeeps(c, s, l);
    var after := Step(c, s, l);
    assert JobOk(c, after, id);
    if after.db.jobs[id].deployment.Some? {
      assert DeploymentOk(after, after.db.jobs[id].deployment.value);
    }
  }
}
