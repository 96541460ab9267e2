/** worker/job_queue.py: the queue object, its claim, its heartbeat and its recovery pass. */
module JobQueue {
  import opened Wrappers
  import opened Tables
  import opened Reconcile

  /** A claim is free to be taken while its row is queued and has attempts left. */
  predicate Claimable(j: Job, max: nat) {
    j.status == Queued && j.attempts < max
  }

  function ClaimableJobs(db: Db, max: nat): set<Id> {
    set id | id in db.jobs && Claimable(db.jobs[id], max)
  }

  function CreatedBefore(a: Job, b: Job): bool {
    b.createdAt.None? || (a.createdAt.Some? && a.createdAt.value <= b.createdAt.value)
  }

  /** ORDER BY created_at ASC LIMIT 1 (NULLs last) among the candidates that are not locked. */
  predicate Oldest(db: Db, candidates: set<Id>, id: Id)
    requires candidates <= db.jobs.Keys
  {
    id in candidates && forall other <- candidates :: CreatedBefore(db.jobs[id], db.jobs[other])
  }

  lemma OldestExists(db: Db, candidates: set<Id>)
    requires candidates <= db.jobs.Keys && candidates != {}
    ensures exists id <- candidates :: Oldest(db, candidates, id)
  {
    var some :| some in candidates;
    var rest := candidates - {some};
    if rest == {} {
      assert candidates == {some};
      assert Oldest(db, candidates, some);
    } else {
      OldestExists(db, rest);
      var id :| id in rest && Oldest(db, rest, id);
      if CreatedBefore(db.jobs[some], db.jobs[id]) {
        assert Oldest(db, candidates, some);
      } else {
        assert Oldest(db, candidates, id);
      }
    }
  }

  function ClaimJob(j: Job, worker: string, token: Id, lease: int, now: Time): Job {
    j.(status := Running, worker := Some(worker), token := Some(token), heartbeat := Some(now),
       expires := Some(now + lease), attempts := j.attempts + 1, startedAt := Some(now),
       completedAt := None, failureReason := None, updatedAt := Some(now))
  }

  function Claim(db: Db, id: Id, worker: string, token: Id, lease: int, now: Time): Db
    requires id in db.jobs
  {
    db.(jobs := db.jobs[id := ClaimJob(db.jobs[id], worker, token, lease, now)])
  }

  function Heartbeat(db: Db, id: Id, worker: string, token: Id, lease: int, now: Time): Db {
    if !Holds(db, id, worker, token) then db else
    db.(jobs := db.jobs[id := db.jobs[id].(heartbeat := Some(now), expires := Some(now + lease), updatedAt := Some(now))])
  }

  // ---- The rows these writes leave ------------------------------------------------------

  /** The claimed row: a running job of this worker under a new token, one attempt older. */
  ghost predicate Claims(j: Job, k: Job, worker: string, token: Id, lease: int, now: Time) {
    k == Job(j.deployment, JobStatus.Running, Some(worker), Some(token), Some(now + lease), Some(now), j.attempts + 1,
             j.deploymentStatus, j.liveUrl, None, Some(now), None, Some(now), j.createdAt)
  }

  /** The renewed row: only heartbeat, expiry and modification time move. */
  ghost predicate Renews(j: Job, k: Job, lease: int, now: Time) {
    k == Job(j.deployment, j.status, j.worker, j.token, Some(now + lease), Some(now), j.attempts, j.deploymentStatus,
             j.liveUrl, j.failureReason, j.startedAt, j.completedAt, Some(now), j.createdAt)
  }

  /** The failure path: the deployment if it is under way, its pending evaluation, and its deploying
      project if no other deployment of it is under way. */
  ghost predicate DeploymentFails(before: Db, after: Db, d: Id, reason: string, now: Time) {
    && after.deployments ==
         (if d in before.deployments && before.deployments[d].status in {Some("queued"), Some("building"), Some("deploying")}
          then before.deployments[d :=
                 Deployment(before.deployments[d].project, Some("failed"),
                            if before.deployments[d].failureReason.Some? then before.deployments[d].failureReason else Some(reason),
                            before.deployments[d].liveUrl,
                            if before.deployments[d].completedAt.Some? then before.deployments[d].completedAt else Some(now),
                            before.deployments[d].metadata)]
          else before.deployments)
    && after.evaluations ==
         (if d in before.evaluations && before.evaluations[d] == "pending" then before.evaluations[d := "failed"]
          else before.evaluations)
    && after.projects ==
         (if d in before.deployments && before.deployments[d].project in before.projects
             && before.projects[before.deployments[d].project] == "deploying"
             && forall other <- before.deployments.Keys ::
                  other != d && before.deployments[other].project == before.deployments[d].project ==>
                    before.deployments[other].status !in {Some("queued"), Some("building"), Some("deploying")}
          then before.projects[before.deployments[d].project := "failed"] else before.projects)
  }

  lemma DeploymentFailsRows(db: Db, d: Id, reason: string, now: Time)
    ensures DeploymentFails(db, Reconcile.FailDeployment(Worker, d, reason, db, now), d, reason, now)
  {
    var after := Reconcile.FailDeployment(Worker, d, reason, db, now);
    if d in db.deployments {
      var p := db.deployments[d].project;
      assert after.deployments[d].project == p;
      assert forall other <- db.deployments.Keys :: other != d ==> after.deployments[other] == db.deployments[other];
      if !Active(db.deployments[d].status) {
        assert after.deployments == db.deployments;
      }
    }
  }

  /** The shared tables, as the mutable object every connection sees. */
  class Database {
    var jobs: map<Id, Job>
    var deployments: map<Id, Deployment>
    var projects: map<Id, string>
    var evaluations: map<Id, string>

    function Rows(): Db
      reads this
    {
      Db(jobs, deployments, projects, evaluations)
    }

    constructor (db: Db)
      ensures Rows() == db
    {
      jobs, deployments, projects, evaluations := db.jobs, db.deployments, db.projects, db.evaluations;
    }

    /** The three statements a worker issues once a claim has failed. */
    method FailDeployment(d: Id, reason: string, now: Time)
      modifies this
      ensures Rows() == Reconcile.FailDeployment(Worker, d, reason, old(Rows()), now)
      ensures DeploymentFails(old(Rows()), Rows(), d, reason, now) && jobs == old(jobs)
    {
      DeploymentFailsRows(Rows(), d, reason, now);
      if d in deployments && Active(deployments[d].status) {
        var row := deployments[d];
        deployments := deployments[d := row.(status := Some("failed"),
          failureReason := row.failureReason.Or(Some(reason)), completedAt := row.completedAt.Or(Some(now)))];
      }
      assert deployments == DeploymentsAfter(Worker, d, reason, old(deployments), now);
      if d in evaluations && evaluations[d] == "pending" {
        evaluations := evaluations[d := "failed"];
      }
      if d in deployments {
        var p := deployments[d].project;
        if p in projects && projects[p] == "deploying"
           && forall other <- deployments.Keys :: other != d ==> !ActiveIn(deployments, p, other) {
          projects := projects[p := "failed"];
        }
      }
    }
  }

  class PostgresJobQueue {
    const db: Database
    const settings: Settings

    constructor (db: Database, settings: Settings)
      ensures this.db == db && this.settings == settings
    {
      this.db, this.settings := db, settings;
    }

    /** Writes for one stale claim; `rows` is the statement's row count. */
    method SettleClaim(r: Row, now: Time) returns (rows: nat)
      modifies db
      ensures db.Rows() == SettleRow(Worker, r, old(db.Rows()), settings.maxAttempts, now)
      ensures rows == RowCount(old(db.Rows()), r.job)
    {
      var disposition := WorkerDisposition(r.status, r.attempts, settings.maxAttempts);
      rows := 0;
      if r.job in db.jobs && db.jobs[r.job].status == Running {
        rows := 1;
        var j := db.jobs[r.job];
        var free := j.(worker := None, token := None, expires := None, heartbeat := None, updatedAt := Some(now));
        match disposition {
          case Requeue =>
            free := free.(status := Queued, startedAt := None, completedAt := None, failureReason := None);
          case Complete =>
            free := free.(status := Completed, deploymentStatus := "completed", liveUrl := r.liveUrl,
                          completedAt := j.completedAt.Or(Some(now)), failureReason := None);
          case Cancel =>
            free := free.(status := Cancelled, completedAt := j.completedAt.Or(Some(now)),
                          failureReason := Some(INACTIVE));
          case Fail =>
            free := free.(status := Failed, completedAt := j.completedAt.Or(Some(now)),
                          failureReason := Some(Reason(r)));
        }
        db.jobs := db.jobs[r.job := free];
      }
      if disposition == Fail && r.deployment.Some? {
        db.FailDeployment(r.deployment.value, Reason(r), now);
      }
    }

    /** `batch` is what the locking SELECT returned; the four counts report what was written. */
    method RecoverStaleJobs(batch: seq<Id>, now: Time) returns (counts: Counts)
      requires IsBatch(Worker, db.Rows(), batch, settings, now)
      modifies db
      ensures db.Rows() == ReconcilePass(Worker, old(db.Rows()), batch, settings, now)
      ensures counts == Tally(Worker, RowsOf(old(db.Rows()), batch), old(db.Rows()), settings.maxAttempts, now)
    {
      counts := Counts(0, 0, 0, 0);
      var stale := RowsOf(db.Rows(), batch);
      for i := 0 to |stale|
        invariant db.Rows() == Pass(Worker, stale[..i], old(db.Rows()), settings.maxAttempts, now)
        invariant counts == Tally(Worker, stale[..i], old(db.Rows()), settings.maxAttempts, now)
      {
        var rows := SettleClaim(stale[i], now);
        counts := counts.Bump(WorkerDisposition(stale[i].status, stale[i].attempts, settings.maxAttempts), rows);
        assert stale[..i + 1][..i] == stale[..i];
      }
      assert stale[..|stale|] == stale;
    }

    /**
     Claims the oldest unlocked candidate, after a recovery pass of its own.
     `locked` are the rows another transaction holds; `token` comes from the uuid supply.
     */
    method PopJob(worker: string, batch: seq<Id>, locked: set<Id>, token: Id, now: Time) returns (claimed: Option<Id>)
      requires IsBatch(Worker, db.Rows(), batch, settings, now)
      modifies db
      ensures var settled := ReconcilePass(Worker, old(db.Rows()), batch, settings, now);
              var candidates := ClaimableJobs(settled, settings.maxAttempts) - locked;
              && (claimed.None? <==> candidates == {})
              && (claimed.None? ==> db.Rows() == settled)
              && (claimed.Some? ==>
                    && Oldest(settled, candidates, claimed.value)
                    && db.Rows() == Claim(settled, claimed.value, worker, token, settings.leaseSeconds, now))
      ensures var settled := ReconcilePass(Worker, old(db.Rows()), batch, settings, now);
              claimed.Some? ==>
                && claimed.value in settled.jobs && claimed.value in db.jobs && claimed.value !in locked
                && settled.jobs[claimed.value].status == Queued && settled.jobs[claimed.value].attempts < settings.maxAttempts
                && Claims(settled.jobs[claimed.value], db.jobs[claimed.value], worker, token, settings.leaseSeconds, now)
                && db.Rows() == settled.(jobs := settled.jobs[claimed.value := db.jobs[claimed.value]])
                && forall other <- settled.jobs.Keys - locked ::
                     settled.jobs[other].status == Queued && settled.jobs[other].attempts < settings.maxAttempts ==>
                       settled.jobs[other].createdAt.None?
                       || (settled.jobs[claimed.value].createdAt.Some?
                           && settled.jobs[claimed.value].createdAt.value <= settled.jobs[other].createdAt.value)
    {
      var _ := RecoverStaleJobs(batch, now);
      var candidates := ClaimableJobs(db.Rows(), settings.maxAttempts) - locked;
      if candidates == {} {
        return None;
      }
      OldestExists(db.Rows(), candidates);
      var id :| id in candidates && Oldest(db.Rows(), candidates, id);
      var j := db.jobs[id];
      db.jobs := db.jobs[id := j.(status := Running, worker := Some(worker), token := Some(token),
        heartbeat := Some(now), expires := Some(now + settings.leaseSeconds), attempts := j.attempts + 1,
        startedAt := Some(now), completedAt := None, failureReason := None, updatedAt := Some(now))];
      return Some(id);
    }

    method HeartbeatJob(id: Id, worker: string, token: Id, now: Time) returns (renewed: bool)
      modifies db
      ensures renewed <==> Holds(old(db.Rows()), id, worker, token)
      ensures db.Rows() == Heartbeat(old(db.Rows()), id, worker, token, settings.leaseSeconds, now)
      ensures renewed <==> id in old(db.jobs) && old(db.jobs)[id].status == Running
                           && old(db.jobs)[id].worker == Some(worker) && old(db.jobs)[id].token == Some(token)
      ensures if renewed
              then id in db.jobs && Renews(old(db.jobs)[id], db.jobs[id], settings.leaseSeconds, now)
                   && db.Rows() == old(db.Rows()).(jobs := old(db.jobs)[id := db.jobs[id]])
              else db.Rows() == old(db.Rows())
    {
      renewed := id in db.jobs && db.jobs[id].status == Running
                 && db.jobs[id].worker == Some(worker) && db.jobs[id].token == Some(token);
      if renewed {
        db.jobs := db.jobs[id := db.jobs[id].(heartbeat := Some(now),
          expires := Some(now + settings.leaseSeconds), updatedAt := Some(now))];
      }
    }
  }
}
