/** backend/main.py: the API's own start-up pass over expired claims. */
module ApiRecovery {
  import opened Wrappers
  import opened Tables
  import opened Reconcile
  import opened JobQueue
  import Text

  class ApiServer {
    const db: Database
    const settings: Settings

    constructor (db: Database, settings: Settings)
      ensures this.db == db && this.settings == settings
    {
      this.db, this.settings := db, settings;
    }

    /** One (job, deployment) pair of the loop. */
    method Reconcile(r: Row, now: Time)
      modifies db
      ensures db.Rows() == SettleRow(Api, r, old(db.Rows()), settings.maxAttempts, now)
    {
      var verdict := ApiDisposition(r.status, r.attempts, settings.maxAttempts);
      if r.job in db.jobs && db.jobs[r.job].status == Running {
        var j := db.jobs[r.job];
        var row := j.(worker := None, token := None, expires := None, heartbeat := None, updatedAt := Some(now));
        match verdict {
          case Requeue =>
            row := row.(status := Queued, startedAt := None, completedAt := None, failureReason := None);
          case Complete =>
            row := row.(status := Completed, deploymentStatus := "completed", liveUrl := r.liveUrl,
                        failureReason := None, completedAt := j.completedAt.Or(Some(now)));
          case Cancel =>
            row := row.(status := Cancelled, failureReason := Some(INACTIVE), completedAt := j.completedAt.Or(Some(now)));
          case Fail =>
            row := row.(status := Failed, deploymentStatus := "failed", failureReason := Some(Reason(r)),
                        completedAt := j.completedAt.Or(Some(now)));
        }
        db.jobs := db.jobs[r.job := row];
      }
      if verdict == Fail && r.deployment.Some? {
        var d := r.deployment.value;
        ghost var before := db.Rows();
        if d in db.deployments {
          var deployment := db.deployments[d];
          if Active(deployment.status) {
            db.deployments := db.deployments[d := deployment.(status := Some("failed"),
              failureReason := Some(OrElse(deployment.failureReason, Reason(r))),
              completedAt := deployment.completedAt.Or(Some(now)))];
          }
          assert db.deployments == DeploymentsAfter(Api, d, Reason(r), before.deployments, now);
          var p := deployment.project;
          if p in db.projects && db.projects[p] == "deploying" {
            db.projects := db.projects[p := "failed"];
          }
          if d in db.evaluations && db.evaluations[d] == "pending" {
            db.evaluations := db.evaluations[d := "failed"];
          }
        }
        assert db.Rows() == FailDeployment(Api, d, Reason(r), before, now);
      }
    }

    method RecoverInterruptedDeployments(batch: seq<Id>, now: Time)
      requires IsBatch(Api, db.Rows(), batch, settings, now)
      modifies db
      ensures db.Rows() == ReconcilePass(Api, old(db.Rows()), batch, settings, now)
    {
      var rows := RowsOf(db.Rows(), batch);
      for i := 0 to |rows|
        invariant db.Rows() == Pass(Api, rows[..i], old(db.Rows()), settings.maxAttempts, now)
      {
        Reconcile(rows[i], now);
        assert rows[..i + 1][..i] == rows[..i];
      }
      assert rows[..|rows|] == rows;
    }
  }

  /** Where the two dispositions part: a missing row, a stopped deployment, letter case, a blank status. */
  lemma DispositionsDiffer(status: Option<string>, attempts: nat, max: nat)
    ensures WorkerDisposition(status, attempts, max) == ApiDisposition(status, attempts, max) <==>
              !(status == Some("stopped")
                || (status != Some("queued") && LooksQueued(status) && attempts < max)
                || (status.Some? && status != Some("running") && Text.Lower(status.value) == "running")
                || (status.Some? && status != Some("rolled_back") && Text.Lower(status.value) == "rolled_back"))
  {
    assert Text.Lower("queued") == "queued" && Text.Lower("running") == "running";
    assert Text.Lower("rolled_back") == "rolled_back" && Text.Lower("stopped") == "stopped";
    assert "queued"[0] == 'q' && "running"[0] == 'r' && "running"[1] == 'u' && "rolled_back"[1] == 'o' && "stopped"[0] == 's';
    assert Text.Lower("") == "";
  }
}
