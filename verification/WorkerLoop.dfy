/** worker/main.py: the heartbeat thread beside one execution, and its `lease_lost` flag. */
module WorkerLoop {
  import opened Wrappers
  import opened Tables
  import opened JobQueue
  import opened JobRunner
  import opened QueueProtocol
  import opened QueueInvariant
  import opened QueueTheorems
  import opened Fencing

  /** One wake-up of the thread; `reachable` says whether the database answered. */
  datatype Beat = Beat(reachable: bool, now: Time)

  class Heartbeats {
    const queue: PostgresJobQueue
    const lease: Lease
    var leaseLost: bool

    constructor (queue: PostgresJobQueue, lease: Lease)
      ensures this.queue == queue && this.lease == lease && !leaseLost
    {
      this.queue, this.lease := queue, lease;
      leaseLost := false;
    }

    /** What `execute_job` asks before it starts and before it crosses the boundary. */
    predicate LeaseGuard()
      reads this
    {
      !leaseLost
    }

    /** One turn of `renew_lease`; the thread ends when it does not go on. */
    method Renew(beat: Beat) returns (goesOn: bool)
      modifies this, queue.db
      ensures goesOn <==> beat.reachable && Current(old(queue.db.Rows()), lease)
      ensures leaseLost <==> old(leaseLost) || !goesOn
      ensures queue.db.Rows() ==
                if beat.reachable
                then JobQueue.Heartbeat(old(queue.db.Rows()), lease.job, lease.worker, lease.token,
                                        queue.settings.leaseSeconds, beat.now)
                else old(queue.db.Rows())
    {
      goesOn := false;
      if beat.reachable {
        goesOn := queue.HeartbeatJob(lease.job, lease.worker, lease.token, beat.now);
      }
      if !goesOn {
        leaseLost := true;
      }
    }

    /** The thread from start to stop, with nobody else writing: the flag rises exactly when a beat
        got no answer or found the lease gone, and an owner's flag never rises while it is answered. */
    method Run(beats: seq<Beat>)
      requires !leaseLost
      modifies this, queue.db
      ensures leaseLost <==> beats != [] && (!Current(old(queue.db.Rows()), lease) || exists b <- beats :: !b.reachable)
      ensures Current(queue.db.Rows(), lease) <==> Current(old(queue.db.Rows()), lease)
      ensures !Current(old(queue.db.Rows()), lease) ==> queue.db.Rows() == old(queue.db.Rows())
    {
      for i := 0 to |beats|
        invariant !leaseLost
        invariant i > 0 ==> Current(old(queue.db.Rows()), lease)
        invariant forall k :: 0 <= k < i ==> beats[k].reachable
        invariant Current(queue.db.Rows(), lease) <==> Current(old(queue.db.Rows()), lease)
        invariant !Current(old(queue.db.Rows()), lease) ==> queue.db.Rows() == old(queue.db.Rows())
      {
        assert beats[i] in beats;
        var goesOn := Renew(beats[i]);
        if !goesOn {
          return;
        }
      }
    }
  }

  /** A refused heartbeat is final: whatever runs afterwards, no heartbeat, preparation, crossing or
      closing of the holder changes a row, and a step of the holder changes one if and only if it is
      the failure mark of its own raise or a write of the pipeline it is still executing. */
  lemma RefusedHeartbeatIsFinal(c: Settings, s: Sys, ls: seq<Label>, lease: Lease)
    requires Inv(c, s) && AllDisciplined(ls) && 0 < c.maxAttempts
    requires lease.token in s.issued && !Current(s.db, lease)
    ensures Inert(c, QueueProtocol.Run(c, s, ls).db, lease, QueueProtocol.Run(c, s, ls).now)
    ensures var v := QueueProtocol.Run(c, s, ls);
            forall l :: Enabled(c, v, l) && OfHolder(v, l, lease) ==>
              (Step(c, v, l).db != v.db <==>
                 || (l.MarkDeployment? && MarkBites(v.db, lease.deployment.value))
                 || (l.PipelineWrite? && l.row != v.db.deployments[lease.deployment.value]))
  {
    assert lease.job in s.db.jobs ==> JobOk(c, s, lease.job);
    assert !TokenAt(s, lease.token, lease.job, lease.worker);
    hide Inv, Inert, QueueProtocol.Run, AllDisciplined, Enabled, OfHolder, MarkBites, Step;
    StaleLeaseIsInert(c, s, ls, lease);
    var v := QueueProtocol.Run(c, s, ls);
    forall l | Enabled(c, v, l) && OfHolder(v, l, lease)
      ensures Step(c, v, l).db != v.db <==>
                || (l.MarkDeployment? && MarkBites(v.db, lease.deployment.value))
                || (l.PipelineWrite? && l.row != v.db.deployments[lease.deployment.value])
    {
      FencedExactly(c, s, ls, lease, l);
    }
  }
}
