/** Repeated passes at one clock reading: every stale claim is settled, and none comes back. */
module DrainLaws {
  import opened Wrappers
  import opened Tables
  import opened Reconcile
  import opened PassMeaning

  /** What a pass does to one job row, settled or not. */
  ghost predicate JobKept(before: Job, after: Job, settled: bool) {
    && after.deployment == before.deployment
    && after.attempts == before.attempts
    && (if settled then after.status != Running else after == before)
  }

  lemma PassOnJob(who: Who, db: Db, batch: seq<Id>, settings: Settings, now: Time, id: Id)
    requires IsBatch(who, db, batch, settings, now) && OneJobPerDeployment(db.jobs)
    ensures var after := ReconcilePass(who, db, batch, settings, now);
            && (id in after.jobs <==> id in db.jobs)
            && (id in db.jobs ==> JobKept(db.jobs[id], after.jobs[id], id in batch))
  {
    hide Pass, Stale, Verdict, IsBatch, Distinct, AllRunning, OneJobPerDeployment;
    BatchRows(who, db, batch, settings, now);
    PassJob(who, RowsOf(db, batch), db, settings.maxAttempts, now, id);
    if id in batch {
      var i :| 0 <= i < |batch| && batch[i] == id;
      assert RowsOf(db, batch)[i].job == id;
    }
  }

  lemma PassKeepsJobs(who: Who, db: Db, batch: seq<Id>, settings: Settings, now: Time)
    requires IsBatch(who, db, batch, settings, now) && OneJobPerDeployment(db.jobs)
    ensures var after := ReconcilePass(who, db, batch, settings, now);
            && after.jobs.Keys == db.jobs.Keys
            && (forall id <- db.jobs.Keys :: JobKept(db.jobs[id], after.jobs[id], id in batch))
            && OneJobPerDeployment(after.jobs)
  {
    hide ReconcilePass, IsBatch;
    var after := ReconcilePass(who, db, batch, settings, now);
    forall id ensures id in after.jobs <==> id in db.jobs
      ensures id in db.jobs ==> JobKept(db.jobs[id], after.jobs[id], id in batch)
    {
      PassOnJob(who, db, batch, settings, now, id);
    }
  }

  function Elements(batch: seq<Id>): set<Id> {
    set id <- batch
  }

  lemma PassSettlesBatch(who: Who, db: Db, batch: seq<Id>, settings: Settings, now: Time)
    requires IsBatch(who, db, batch, settings, now) && OneJobPerDeployment(db.jobs)
    ensures StaleJobs(who, ReconcilePass(who, db, batch, settings, now), now, settings.leaseSeconds)
            == StaleJobs(who, db, now, settings.leaseSeconds) - Elements(batch)
  {
    PassKeepsJobs(who, db, batch, settings, now);
    hide ReconcilePass, OneJobPerDeployment;
  }

  /** A pass that no lock holds back: it takes as many stale claims as the limit allows. */
  ghost predicate FullBatch(who: Who, db: Db, batch: seq<Id>, settings: Settings, now: Time) {
    && IsBatch(who, db, batch, settings, now)
    && (|batch| == settings.batchSize || |batch| == |StaleJobs(who, db, now, settings.leaseSeconds)|)
  }

  ghost predicate FullPass(who: Who, db: Db, batch: seq<Id>, after: Db, settings: Settings, now: Time) {
    FullBatch(who, db, batch, settings, now) && after == ReconcilePass(who, db, batch, settings, now)
  }

  ghost predicate Passes(who: Who, dbs: seq<Db>, batches: seq<seq<Id>>, settings: Settings, now: Time) {
    && |dbs| == |batches| + 1
    && forall i :: 0 <= i < |batches| ==> FullPass(who, dbs[i], batches[i], dbs[i + 1], settings, now)
  }

  lemma {:induction false} DistinctLength(batch: seq<Id>)
    requires forall i, j :: 0 <= i < j < |batch| ==> batch[i] != batch[j]
    ensures |Elements(batch)| == |batch|
  {
    if batch != [] {
      var k := |batch| - 1;
      DistinctLength(batch[..k]);
      assert batch == batch[..k] + [batch[k]];
      assert batch[k] !in Elements(batch[..k]);
      assert Elements(batch) == Elements(batch[..k]) + {batch[k]};
    }
  }

  /** A full pass removes a whole batch of stale claims, or all that are left. */
  lemma FullPassShrinks(who: Who, db: Db, batch: seq<Id>, after: Db, settings: Settings, now: Time)
    requires FullPass(who, db, batch, after, settings, now) && OneJobPerDeployment(db.jobs)
    ensures OneJobPerDeployment(after.jobs)
    ensures var left := |StaleJobs(who, after, now, settings.leaseSeconds)|;
            left == 0 || left == |StaleJobs(who, db, now, settings.leaseSeconds)| - settings.batchSize
  {
    hide ReconcilePass, StaleJobs, OneJobPerDeployment;
    PassKeepsJobs(who, db, batch, settings, now);
    PassSettlesBatch(who, db, batch, settings, now);
    DistinctLength(batch);
    var stale, settled := StaleJobs(who, db, now, settings.leaseSeconds), Elements(batch);
    assert settled <= stale;
    assert |stale - settled| == |stale| - |settled|;
  }

  /** n full passes settle n batches' worth of stale claims. */
  lemma {:induction false} PassesDrain(who: Who, dbs: seq<Db>, batches: seq<seq<Id>>, settings: Settings, now: Time)
    requires Passes(who, dbs, batches, settings, now) && OneJobPerDeployment(dbs[0].jobs)
    requires |StaleJobs(who, dbs[0], now, settings.leaseSeconds)| <= |batches| * settings.batchSize
    ensures StaleJobs(who, dbs[|batches|], now, settings.leaseSeconds) == {}
    decreases |batches|
  {
    hide FullPass, StaleJobs, OneJobPerDeployment;
    if batches != [] {
      FullPassShrinks(who, dbs[0], batches[0], dbs[1], settings, now);
      var n := |batches| - 1;
      assert |batches| * settings.batchSize == settings.batchSize + n * settings.batchSize;
      assert 0 <= n * settings.batchSize;
      assert Passes(who, dbs[1..], batches[1..], settings, now);
      PassesDrain(who, dbs[1..], batches[1..], settings, now);
    }
  }
}
