/** What every run of the deployment queue guarantees. */
module QueueTheorems {
  import opened Wrappers
  import opened Tables
  import opened Reconcile
  import opened JobQueue
  import opened JobRunner
  import opened PassMeaning
  import opened DrainLaws
  import opened QueueProtocol
  import opened QueueInvariant

  // ---- No replay once the boundary is crossed -------------------------------------------

  ghost predicate LeftQueue(s: Sys, d: Id) {
    d in s.db.deployments && !LooksQueued(s.db.deployments[d].status)
  }

  lemma LeftQueueStep(c: Settings, s: Sys, l: Label, d: Id)
    requires Inv(c, s) && Disciplined(l) && LeftQueue(s, d)
    ensures LeftQueue(Step(c, s, l), d)
  {
    hide LooksQueued, ReconcilePass, IsBatch, OneJobPerDeployment, TokensDistinct, JobOk, DeploymentOk, WorkerOk;
    QueuedReadsQueued();
    if Enabled(c, s, l) && l.ReconcileBy? {
      PassKeepsDeploymentKeys(l.who, s.db, l.batch, c, s.now, d);
      PassOnDeployment(l.who, s, l.batch, c, d);
    }
  }

  lemma ClaimsStep(c: Settings, s: Sys, l: Label, d: Id, job: Id)
    requires Inv(c, s) && LeftQueue(s, d) && job in s.db.jobs && s.db.jobs[job].deployment == Some(d)
    ensures Count(Step(c, s, l).claims, job) == Count(s.claims, job)
    ensures job in Step(c, s, l).db.jobs && Step(c, s, l).db.jobs[job].deployment == Some(d)
  {
    hide LooksQueued, ReconcilePass, IsBatch, OneJobPerDeployment, TokensDistinct, DeploymentOk, WorkerOk;
    assert JobOk(c, s, job);
    if Enabled(c, s, l) && l.ReconcileBy? {
      PassOnJob(l.who, s.db, l.batch, c, s.now, job);
    }
  }

  /** Once a deployment stops reading as queued, its job is never claimed again. */
  lemma {:induction false} NeverClaimedAgain(c: Settings, s: Sys, ls: seq<Label>, d: Id, job: Id)
    requires Inv(c, s) && AllDisciplined(ls) && 0 < c.maxAttempts
    requires LeftQueue(s, d) && job in s.db.jobs && s.db.jobs[job].deployment == Some(d)
    ensures LeftQueue(Run(c, s, ls), d)
    ensures Count(Run(c, s, ls).claims, job) == Count(s.claims, job)
    decreases |ls|
  {
    hide Inv, LeftQueue, Do, Enabled;
    if ls != [] {
      LeftQueueStep(c, s, ls[0], d);
      ClaimsStep(c, s, ls[0], d, job);
      if Enabled(c, s, ls[0]) { StepKeeps(c, s, ls[0]); }
      NeverClaimedAgain(c, Step(c, s, ls[0]), ls[1..], d, job);
    }
  }

  /** In every run: at most one crossing per deployment, and a queued job's deployment is exactly `queued`. */
  lemma BoundaryCrossedAtMostOnce(c: Settings, projects: map<Id, string>, now: Time, ls: seq<Label>, d: Id, job: Id)
    requires AllDisciplined(ls) && 0 < c.maxAttempts
    ensures var s := Run(c, Init(projects, now), ls);
            && Count(s.begun, d) <= 1
            && (job in s.db.jobs && s.db.jobs[job].status == Queued && s.db.jobs[job].deployment.Some? ==>
                  && s.db.jobs[job].deployment.value in s.db.deployments
                  && s.db.deployments[s.db.jobs[job].deployment.value].status == Some("queued")
                  && Count(s.begun, s.db.jobs[job].deployment.value) == 0)
  {
    hide LooksQueued, OneJobPerDeployment, TokensDistinct, WorkerOk, Run;
    ReachableInv(c, projects, now, ls);
    var s := Run(c, Init(projects, now), ls);
    if d in s.db.deployments { assert DeploymentOk(s, d); }
    if job in s.db.jobs {
      assert JobOk(c, s, job);
      if s.db.jobs[job].deployment.Some? { assert DeploymentOk(s, s.db.jobs[job].deployment.value); }
    }
  }

  // ---- Attempts -------------------------------------------------------------------------

  /** attempt_count is the number of claims, within the limit, and no queued job is stranded. */
  lemma AttemptsCountClaims(c: Settings, projects: map<Id, string>, now: Time, ls: seq<Label>, job: Id)
    requires AllDisciplined(ls) && 0 < c.maxAttempts
    ensures var s := Run(c, Init(projects, now), ls);
            job in s.db.jobs ==>
              && s.db.jobs[job].attempts == Count(s.claims, job) <= c.maxAttempts
              && (s.db.jobs[job].status == Queued ==> job in ClaimableJobs(s.db, c.maxAttempts))
  {
    hide LooksQueued, OneJobPerDeployment, TokensDistinct, WorkerOk, DeploymentOk, Run;
    ReachableInv(c, projects, now, ls);
    var s := Run(c, Init(projects, now), ls);
    if job in s.db.jobs { assert JobOk(c, s, job); }
  }

  ghost function Total(m: map<Id, nat>): nat
    decreases |m|
  {
    if m == map[] then 0 else
    var k :| k in m;
    m[k] + Total(m - {k})
  }

  lemma {:induction false} TotalTakes(m: map<Id, nat>, k: Id)
    requires k in m
    ensures Total(m) == m[k] + Total(m - {k})
    decreases |m|
  {
    var p :| p in m && Total(m) == m[p] + Total(m - {p});
    if p != k {
      TotalTakes(m - {p}, k);
      TotalTakes(m - {k}, p);
      assert m - {p} - {k} == m - {k} - {p};
    }
  }

  lemma TotalUpdate(m: map<Id, nat>, k: Id, v: nat)
    ensures Total(m[k := v]) == Total(m) - Count(m, k) + v
  {
    TotalTakes(m[k := v], k);
    if k in m {
      TotalTakes(m, k);
      assert m[k := v] - {k} == m - {k};
    } else {
      assert m[k := v] - {k} == m;
    }
  }

  lemma MulSucc(bound: nat, n: nat)
    ensures bound * (n + 1) == bound * n + bound && 0 <= bound * n
  {
  }

  lemma {:induction false} TotalBounded(m: map<Id, nat>, ids: set<Id>, bound: nat)
    requires m.Keys <= ids && forall k <- m.Keys :: m[k] <= bound
    ensures Total(m) <= bound * |ids|
    decreases |m|
  {
    if m == map[] {
      MulSucc(bound, |ids|);
    } else {
      var k :| k in m && Total(m) == m[k] + Total(m - {k});
      var rest, others := m - {k}, ids - {k};
      assert forall i <- rest.Keys :: rest[i] <= bound;
      TotalBounded(rest, others, bound);
      assert |ids| == |others| + 1;
      MulSucc(bound, |others|);
    }
  }

  /** Claims still to come: what is left of every job's attempts. */
  ghost function ClaimsLeft(c: Settings, s: Sys): int {
    c.maxAttempts * |s.db.jobs.Keys| - Total(s.claims)
  }

  lemma ClaimsLeftIsNatural(c: Settings, s: Sys)
    requires Inv(c, s)
    ensures ClaimsLeft(c, s) >= 0
  {
    hide LooksQueued, OneJobPerDeployment, TokensDistinct, WorkerOk, DeploymentOk;
    forall k | k in s.claims.Keys ensures s.claims[k] <= c.maxAttempts {
      assert JobOk(c, s, k);
    }
    TotalBounded(s.claims, s.db.jobs.Keys, c.maxAttempts);
  }

  lemma JobKeysStep(c: Settings, s: Sys, l: Label)
    requires Inv(c, s) && Enabled(c, s, l)
    ensures Step(c, s, l).db.jobs.Keys == if l.Enqueue? then s.db.jobs.Keys + {l.job} else s.db.jobs.Keys
    ensures l.Enqueue? ==> l.job !in s.db.jobs
    ensures Step(c, s, l).claims == if l.Pop? then s.claims[l.job := Count(s.claims, l.job) + 1] else s.claims
  {
    hide LooksQueued, ReconcilePass, IsBatch, OneJobPerDeployment, TokensDistinct, DeploymentOk, WorkerOk, JobOk;
    hide MayBegin, MayPersist, FinalMark, NewJob, NewDeployment;
    if l.ReconcileBy? {
      PassKeepsJobs(l.who, s.db, l.batch, c, s.now);
    }
  }

  /** Every claim uses the measure up by one; only a new job adds to it. */
  lemma ClaimsLeftStep(c: Settings, s: Sys, l: Label)
    requires Inv(c, s) && Enabled(c, s, l)
    ensures l.Pop? ==> ClaimsLeft(c, Step(c, s, l)) == ClaimsLeft(c, s) - 1
    ensures !l.Pop? && !l.Enqueue? ==> ClaimsLeft(c, Step(c, s, l)) == ClaimsLeft(c, s)
    ensures l.Enqueue? ==> ClaimsLeft(c, Step(c, s, l)) == ClaimsLeft(c, s) + c.maxAttempts
  {
    hide Inv, Step, Enabled, Total;
    JobKeysStep(c, s, l);
    if l.Pop? {
      TotalUpdate(s.claims, l.job, Count(s.claims, l.job) + 1);
    } else if l.Enqueue? {
      assert |s.db.jobs.Keys + {l.job}| == |s.db.jobs.Keys| + 1;
      MulSucc(c.maxAttempts, |s.db.jobs.Keys|);
    }
  }

  // ---- Fencing --------------------------------------------------------------------------

  /** The token is the current claim of this job by this worker. */
  ghost predicate TokenAt(s: Sys, token: Id, job: Id, worker: string) {
    job in s.db.jobs && s.db.jobs[job].token == Some(token) && s.db.jobs[job].worker == Some(worker)
  }

  lemma TokenStep(c: Settings, s: Sys, l: Label, token: Id, job: Id, worker: string)
    requires Inv(c, s) && token in s.issued && TokenAt(Step(c, s, l), token, job, worker)
    ensures TokenAt(s, token, job, worker) && token in Step(c, s, l).issued
  {
    hide LooksQueued, ReconcilePass, IsBatch, OneJobPerDeployment, TokensDistinct, DeploymentOk, WorkerOk;
    if Enabled(c, s, l) && l.ReconcileBy? {
      PassOnJob(l.who, s.db, l.batch, c, s.now, job);
      assert JobOk(c, s, job);
      ReconcileKeepsJob(c, s, l, job);
    }
  }

  /**
   An issued token that is current for a job and worker at the end of a run was current for
   the same job and worker at its start: it never comes back and never moves.
   */
  lemma {:induction false} TokenNeverReturns(c: Settings, s: Sys, ls: seq<Label>, token: Id, job: Id, worker: string)
    requires Inv(c, s) && AllDisciplined(ls) && 0 < c.maxAttempts
    requires token in s.issued && TokenAt(Run(c, s, ls), token, job, worker)
    ensures TokenAt(s, token, job, worker)
    decreases |ls|
  {
    hide Inv, TokenAt, Do, Enabled;
    if ls != [] {
      if Enabled(c, s, ls[0]) { StepKeeps(c, s, ls[0]); }
      IssuedGrows(c, s, ls[0], token);
      TokenNeverReturns(c, Step(c, s, ls[0]), ls[1..], token, job, worker);
      TokenStep(c, s, ls[0], token, job, worker);
    }
  }

  lemma IssuedGrows(c: Settings, s: Sys, l: Label, token: Id)
    requires token in s.issued
    ensures token in Step(c, s, l).issued
  {
    hide ReconcilePass, IsBatch;
  }

  /** The writes that name the lease in their own condition: heartbeat, metadata, boundary, closing mark. */
  ghost predicate Inert(c: Settings, db: Db, lease: Lease, now: Time) {
    && JobQueue.Heartbeat(db, lease.job, lease.worker, lease.token, c.leaseSeconds, now) == db
    && (forall read, artifact :: JobRunner.Persist(db, lease, read, artifact) == db)
    && (forall proof :: !MayBegin(db, lease, proof) && JobRunner.Begin(db, lease, proof) == db)
    && (forall mark :: Close(db, lease, mark, now) == db)
    && !Current(db, lease)
  }

  /** After its interval has ended, none of these writes of a token's holder changes a row, in any
      continuation; `Fencing` says exactly which of its steps still do. */
  lemma StaleLeaseIsInert(c: Settings, s: Sys, ls: seq<Label>, lease: Lease)
    requires Inv(c, s) && AllDisciplined(ls) && 0 < c.maxAttempts
    requires lease.token in s.issued && !TokenAt(s, lease.token, lease.job, lease.worker)
    ensures Inert(c, Run(c, s, ls).db, lease, Run(c, s, ls).now)
  {
    hide Inv, Run;
    if TokenAt(Run(c, s, ls), lease.token, lease.job, lease.worker) {
      TokenNeverReturns(c, s, ls, lease.token, lease.job, lease.worker);
    }
    assert !Current(Run(c, s, ls).db, lease);
  }
}
