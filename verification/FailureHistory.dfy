/** When a failed job leaves its deployment active: the exact condition, over every run. */
module FailureHistory {
  import opened Wrappers
  import opened Tables
  import opened Reconcile
  import opened JobQueue
  import opened JobRunner
  import opened PassMeaning
  import opened DrainLaws
  import opened QueueProtocol
  import opened QueueInvariant

  /** What closed a job as failed; `active` says whether its deployment was active at that moment. */
  datatype Closing = ByFinish(active: bool) | ByRaise(active: bool) | ByPass

  /** `marked`: the deployment mark owed by a raise has run. `late`: a write by the displaced holder
      came last, and whether the status it wrote is an active one. */
  datatype Record = Record(closing: Closing, marked: bool, late: Option<bool>)

  /** The queue beside what happened to each failed job. */
  datatype Traced = Traced(sys: Sys, records: map<Id, Record>)

  predicate UnverifiedFinish(r: Record) {
    r.closing == ByFinish(true) && r.late.None?
  }

  predicate OwedMark(r: Record) {
    r.closing == ByRaise(true) && !r.marked && r.late.None?
  }

  predicate LateWrite(r: Record) {
    r.late == Some(true)
  }

  predicate Open(r: Record) {
    UnverifiedFinish(r) || OwedMark(r) || LateWrite(r)
  }

  predicate ActiveRow(s: Sys, deployment: Option<Id>) {
    deployment.Some? && deployment.value in s.db.deployments && Active(s.db.deployments[deployment.value].status)
  }

  /** The jobs of a batch that this pass closes as failed. */
  function FailedBy(c: Settings, s: Sys, who: Who, batch: seq<Id>): set<Id> {
    set id | id in batch && id in s.db.jobs && Verdict(who, RowOf(s.db, id), c.maxAttempts) == Fail
  }

  function Recorded(c: Settings, t: Traced, l: Label): map<Id, Record>
    requires Enabled(c, t.sys, l)
  {
    var s, rs := t.sys, t.records;
    match l
    case Finish(w, run) =>
      var lease := PhaseOf(s, w).lease;
      if Current(s.db, lease) && FinalMark(RowFor(s, lease.deployment), run).MarkFailed?
      then rs[lease.job := Record(ByFinish(ActiveRow(s, lease.deployment)), false, None)] else rs
    case Raise(w, _) =>
      var lease := PhaseOf(s, w).lease;
      if Current(s.db, lease)
      then rs[lease.job := Record(ByRaise(ActiveRow(s, lease.deployment)), false, None)] else rs
    case MarkDeployment(w) =>
      var job := PhaseOf(s, w).lease.job;
      if job in rs then rs[job := rs[job].(marked := true, late := None)] else rs
    case PipelineWrite(w, row) =>
      var job := PhaseOf(s, w).lease.job;
      if job in rs then rs[job := rs[job].(late := Some(Active(row.status)))] else rs
    case ReconcileBy(who, batch) =>
      map id | id in rs.Keys + FailedBy(c, s, who, batch) :: if id in rs then rs[id] else Record(ByPass, false, None)
    case _ => rs
  }

  function TraceStep(c: Settings, t: Traced, l: Label): Traced {
    if Enabled(c, t.sys, l) then Traced(Do(c, t.sys, l), Recorded(c, t, l)) else t
  }

  function TraceRun(c: Settings, t: Traced, ls: seq<Label>): Traced
    decreases |ls|
  {
    if ls == [] then t else TraceRun(c, TraceStep(c, t, ls[0]), ls[1..])
  }

  /** Keeping the record does not disturb the queue. */
  lemma {:induction false} TraceIsRun(c: Settings, t: Traced, ls: seq<Label>)
    ensures TraceRun(c, t, ls).sys == Run(c, t.sys, ls)
    decreases |ls|
  {
    hide Enabled, Do, Recorded;
    if ls != [] {
      TraceIsRun(c, TraceStep(c, t, ls[0]), ls[1..]);
    }
  }

  // ---- The invariant --------------------------------------------------------------------

  ghost predicate RecordOk(t: Traced, id: Id)
    requires id in t.sys.db.jobs
  {
    var j := t.sys.db.jobs[id];
    && (id in t.records <==> j.status == JobStatus.Failed)
    && (id in t.records ==>
          && (t.records[id].late.Some? ==> t.records[id].closing.ByPass?)
          && (t.records[id].marked ==> t.records[id].closing.ByRaise?)
          && (ActiveRow(t.sys, j.deployment) <==> j.deployment.Some? && Open(t.records[id])))
  }

  /** A worker about to mark its deployment closed the job by its own raise; one still executing is
      the only holder its job can have, or was displaced by a pass. */
  ghost predicate HolderOk(t: Traced, phase: Phase) {
    && (phase.FailPending? ==>
          phase.lease.job in t.records && t.records[phase.lease.job].closing.ByRaise?
          && !t.records[phase.lease.job].marked)
    && (phase.Executing? ==>
          && (phase.lease.job in t.records ==> t.records[phase.lease.job].closing.ByPass?)
          && (phase.lease.job in t.sys.db.jobs && t.sys.db.jobs[phase.lease.job].token.Some? ==>
                t.sys.db.jobs[phase.lease.job].token == Some(phase.lease.token)))
  }

  /** Leases of different workers have different tokens; at most one executes, and at most one owes a mark. */
  ghost predicate Apart(a: Phase, b: Phase) {
    && (!a.Idle? && !b.Idle? ==> a.lease.token != b.lease.token)
    && (a.Executing? && b.Executing? ==> a.lease.job != b.lease.job)
    && (a.FailPending? && b.FailPending? ==> a.lease.job != b.lease.job)
  }

  ghost predicate HistInv(c: Settings, t: Traced) {
    && Inv(c, t.sys)
    && t.records.Keys <= t.sys.db.jobs.Keys
    && (forall id <- t.sys.db.jobs.Keys :: RecordOk(t, id))
    && (forall w <- t.sys.workers.Keys :: HolderOk(t, t.sys.workers[w]))
    && (forall u, w :: u in t.sys.workers && w in t.sys.workers && u != w ==> Apart(t.sys.workers[u], t.sys.workers[w]))
  }

  // ---- Records, one label at a time -----------------------------------------------------

  lemma SameRecord(t: Traced, v: Traced, id: Id)
    requires id in t.sys.db.jobs && id in v.sys.db.jobs && RecordOk(t, id)
    requires v.sys.db.jobs[id].deployment == t.sys.db.jobs[id].deployment
    requires v.sys.db.jobs[id].status == JobStatus.Failed <==> t.sys.db.jobs[id].status == JobStatus.Failed
    requires (id in v.records <==> id in t.records) && (id in t.records ==> v.records[id] == t.records[id])
    requires id in t.records ==> (ActiveRow(v.sys, t.sys.db.jobs[id].deployment) <==> ActiveRow(t.sys, t.sys.db.jobs[id].deployment))
    ensures RecordOk(v, id)
  {
  }

  lemma EnqueueRecord(c: Settings, t: Traced, l: Label, id: Id)
    requires HistInv(c, t) && Enabled(c, t.sys, l) && l.Enqueue? && id in Do(c, t.sys, l).db.jobs
    ensures RecordOk(TraceStep(c, t, l), id)
  {
    hide OneJobPerDeployment, TokensDistinct, DeploymentOk, WorkerOk, HolderOk, Apart, LooksQueued;
    if id in t.sys.db.jobs {
      assert RecordOk(t, id) && JobOk(c, t.sys, id);
      SameRecord(t, TraceStep(c, t, l), id);
    }
  }

  lemma RowlessRecord(c: Settings, t: Traced, l: Label, id: Id)
    requires HistInv(c, t) && Enabled(c, t.sys, l) && id in Do(c, t.sys, l).db.jobs
    requires l.Heartbeat? || l.Crash? || l.Tick? || l.Pop?
    ensures RecordOk(TraceStep(c, t, l), id)
  {
    hide OneJobPerDeployment, TokensDistinct, DeploymentOk, WorkerOk, HolderOk, Apart, LooksQueued, JobOk;
    assert RecordOk(t, id);
    SameRecord(t, TraceStep(c, t, l), id);
  }

  /** A fenced write touches the row of a running job, and no failed job has that deployment. */
  lemma FencedRecord(c: Settings, t: Traced, l: Label, id: Id)
    requires HistInv(c, t) && Enabled(c, t.sys, l) && (l.Persist? || l.Begin?) && id in Do(c, t.sys, l).db.jobs
    ensures RecordOk(TraceStep(c, t, l), id)
  {
    hide TokensDistinct, DeploymentOk, WorkerOk, HolderOk, Apart, LooksQueued, JobOk;
    assert RecordOk(t, id);
    SameRecord(t, TraceStep(c, t, l), id);
  }

  lemma PipelineRecord(c: Settings, t: Traced, l: Label, id: Id)
    requires HistInv(c, t) && Enabled(c, t.sys, l) && l.PipelineWrite? && id in Do(c, t.sys, l).db.jobs
    ensures RecordOk(TraceStep(c, t, l), id)
  {
    hide TokensDistinct, DeploymentOk, Apart, LooksQueued, JobOk;
    var phase := t.sys.workers[l.worker];
    assert WorkerOk(t.sys, phase) && HolderOk(t, phase);
    hide WorkerOk, HolderOk;
    assert RecordOk(t, id);
    if id != phase.lease.job {
      SameRecord(t, TraceStep(c, t, l), id);
    }
  }

  lemma CloseShape(db: Db, lease: Lease, mark: Mark, now: Time)
    ensures var after := Close(db, lease, mark, now);
            && after.deployments == db.deployments && after.jobs.Keys == db.jobs.Keys
            && (forall id :: id in db.jobs && (id != lease.job || !Current(db, lease)) ==> after.jobs[id] == db.jobs[id])
            && (Current(db, lease) ==>
                  && after.jobs[lease.job].deployment == db.jobs[lease.job].deployment
                  && after.jobs[lease.job].token.None?
                  && (after.jobs[lease.job].status == JobStatus.Failed <==> mark.MarkFailed?))
  {
  }

  lemma OwnClosing(c: Settings, t: Traced, l: Label)
    requires HistInv(c, t) && Enabled(c, t.sys, l) && (l.Finish? || l.Raise?)
    requires Current(t.sys.db, PhaseOf(t.sys, l.worker).lease)
    ensures RecordOk(TraceStep(c, t, l), PhaseOf(t.sys, l.worker).lease.job)
  {
    hide TokensDistinct, DeploymentOk, Apart, LooksQueued, JobOk, OneJobPerDeployment, FinalMark, HolderOk, Close;
    var phase := t.sys.workers[l.worker];
    assert WorkerOk(t.sys, phase);
    hide WorkerOk;
    CloseShape(t.sys.db, phase.lease,
      if l.Finish? then FinalMark(RowFor(t.sys, phase.lease.deployment), l.run) else MarkFailed(l.reason), t.sys.now);
    assert RecordOk(t, phase.lease.job);
  }

  lemma ClosingRecord(c: Settings, t: Traced, l: Label, id: Id)
    requires HistInv(c, t) && Enabled(c, t.sys, l) && (l.Finish? || l.Raise?) && id in Do(c, t.sys, l).db.jobs
    ensures RecordOk(TraceStep(c, t, l), id)
  {
    hide TokensDistinct, DeploymentOk, Apart, LooksQueued, JobOk, OneJobPerDeployment, FinalMark, HolderOk, Close;
    var phase := t.sys.workers[l.worker];
    assert WorkerOk(t.sys, phase);
    hide WorkerOk;
    CloseShape(t.sys.db, phase.lease,
      if l.Finish? then FinalMark(RowFor(t.sys, phase.lease.deployment), l.run) else MarkFailed(l.reason), t.sys.now);
    assert RecordOk(t, id);
    if id != phase.lease.job || !Current(t.sys.db, phase.lease) {
      SameRecord(t, TraceStep(c, t, l), id);
    } else {
      OwnClosing(c, t, l);
    }
  }

  /** After the mark the deployment is not active. */
  lemma MarkSettles(d: Id, reason: string, db: Db, now: Time)
    ensures var after := FailDeployment(Worker, d, reason, db, now);
            && after.jobs == db.jobs && after.deployments.Keys == db.deployments.Keys
            && (d in db.deployments ==> !Active(after.deployments[d].status))
            && forall other :: other in db.deployments && other != d ==> after.deployments[other] == db.deployments[other]
  {
  }

  lemma MarkRecord(c: Settings, t: Traced, l: Label, id: Id)
    requires HistInv(c, t) && Enabled(c, t.sys, l) && l.MarkDeployment? && id in Do(c, t.sys, l).db.jobs
    ensures RecordOk(TraceStep(c, t, l), id)
  {
    hide TokensDistinct, DeploymentOk, Apart, LooksQueued, JobOk, FailDeployment;
    var phase := t.sys.workers[l.worker];
    assert WorkerOk(t.sys, phase) && HolderOk(t, phase);
    hide WorkerOk, HolderOk;
    MarkSettles(phase.lease.deployment.value, phase.reason, t.sys.db, t.sys.now);
    assert RecordOk(t, id);
    if id != phase.lease.job {
      SameRecord(t, TraceStep(c, t, l), id);
    }
  }

  // ---- Records under a pass -------------------------------------------------------------

  /** A pass that fails a claim leaves its deployment inactive, if there is one. */
  lemma FailedRow(c: Settings, s: Sys, who: Who, batch: seq<Id>, id: Id)
    requires IsBatch(who, s.db, batch, c, s.now) && OneJobPerDeployment(s.db.jobs) && id in FailedBy(c, s, who, batch)
    requires s.db.jobs[id].deployment.Some? && s.db.jobs[id].deployment.value in s.db.deployments
    ensures var after := ReconcilePass(who, s.db, batch, c, s.now); var d := s.db.jobs[id].deployment.value;
            d in after.deployments && !Active(after.deployments[d].status)
  {
    hide Pass, Stale, Verdict, IsBatch, Distinct, AllRunning, OneJobPerDeployment;
    BatchRows(who, s.db, batch, c, s.now);
    var rows, d := RowsOf(s.db, batch), s.db.jobs[id].deployment.value;
    PassDeployment(who, rows, s.db, c.maxAttempts, s.now, d);
    var i :| 0 <= i < |batch| && batch[i] == id;
    assert FailsOn(who, rows[i], d, c.maxAttempts);
  }

  lemma PassRecord(c: Settings, t: Traced, l: Label, id: Id)
    requires HistInv(c, t) && Enabled(c, t.sys, l) && l.ReconcileBy? && id in Do(c, t.sys, l).db.jobs
    ensures RecordOk(TraceStep(c, t, l), id)
  {
    hide TokensDistinct, WorkerOk, HolderOk, Apart, LooksQueued, ReconcilePass, IsBatch, SettleJob, Verdict;
    PassOnJob(l.who, t.sys.db, l.batch, c, t.sys.now, id);
    assert RecordOk(t, id) && JobOk(c, t.sys, id);
    var j, v := t.sys.db.jobs[id], TraceStep(c, t, l);
    if id in l.batch {
      PassOnBatchJob(l.who, t.sys, l.batch, c, id);
      FailedShape(l.who, RowOf(t.sys.db, id), j, c.maxAttempts, t.sys.now);
      if id in FailedBy(c, t.sys, l.who, l.batch) && j.deployment.Some? {
        FailedRow(c, t.sys, l.who, l.batch, id);
      }
    } else {
      if j.deployment.Some? {
        OnlyJobOf(t.sys.db.jobs, id);
        PassOnDeployment(l.who, t.sys, l.batch, c, j.deployment.value);
      }
      SameRecord(t, v, id);
    }
  }

  lemma FailedShape(who: Who, r: Row, j: Job, max: nat, now: Time)
    ensures SettleJob(who, r, j, max, now).status == JobStatus.Failed <==> Verdict(who, r, max) == Fail
    ensures SettleJob(who, r, j, max, now).deployment == j.deployment
  {
  }

  // ---- Workers, one label at a time -----------------------------------------------------

  ghost predicate AllApart(t: Traced) {
    forall u, w :: u in t.sys.workers && w in t.sys.workers && u != w ==> Apart(t.sys.workers[u], t.sys.workers[w])
  }

  /** One worker moved, away from all others. */
  lemma MovedApart(t: Traced, v: Traced, w: string)
    requires AllApart(t) && w in v.sys.workers && v.sys.workers == t.sys.workers[w := v.sys.workers[w]]
    requires forall u :: u in t.sys.workers && u != w ==> Apart(t.sys.workers[u], v.sys.workers[w])
    ensures AllApart(v)
  {
  }

  /** Moving within one claim, or to Idle, needs no new distance. */
  lemma KeptApart(t: Traced, v: Traced, w: string)
    requires AllApart(t) && w in v.sys.workers && v.sys.workers == t.sys.workers[w := v.sys.workers[w]]
    requires v.sys.workers[w].Idle?
             || (w in t.sys.workers && !t.sys.workers[w].Idle? && v.sys.workers[w].lease == t.sys.workers[w].lease
                 && v.sys.workers[w].Persisted?)
    ensures AllApart(v)
  {
    forall u | u in t.sys.workers && u != w ensures Apart(t.sys.workers[u], v.sys.workers[w]) {
      if w in t.sys.workers {
        assert Apart(t.sys.workers[u], t.sys.workers[w]);
      }
    }
    MovedApart(t, v, w);
  }

  lemma PopApart(c: Settings, t: Traced, l: Label)
    requires HistInv(c, t) && Enabled(c, t.sys, l) && l.Pop?
    ensures AllApart(TraceStep(c, t, l))
  {
    hide TokensDistinct, DeploymentOk, LooksQueued, JobOk, OneJobPerDeployment, HolderOk, RecordOk;
    forall u | u in t.sys.workers && u != l.worker ensures Apart(t.sys.workers[u], Do(c, t.sys, l).workers[l.worker]) {
      assert WorkerOk(t.sys, t.sys.workers[u]);
    }
    MovedApart(t, TraceStep(c, t, l), l.worker);
  }

  lemma BeginApart(c: Settings, t: Traced, l: Label)
    requires HistInv(c, t) && Enabled(c, t.sys, l) && l.Begin?
    ensures AllApart(TraceStep(c, t, l))
  {
    hide TokensDistinct, LooksQueued, JobOk, OneJobPerDeployment, HolderOk, RecordOk;
    QueuedReadsQueued();
    var phase := t.sys.workers[l.worker];
    assert WorkerOk(t.sys, phase);
    forall u | u in t.sys.workers && u != l.worker ensures Apart(t.sys.workers[u], Do(c, t.sys, l).workers[l.worker]) {
      assert WorkerOk(t.sys, t.sys.workers[u]) && Apart(t.sys.workers[u], phase);
      assert DeploymentOk(t.sys, phase.lease.deployment.value);
    }
    MovedApart(t, TraceStep(c, t, l), l.worker);
  }

  lemma RaiseApart(c: Settings, t: Traced, l: Label)
    requires HistInv(c, t) && Enabled(c, t.sys, l) && l.Raise?
    ensures AllApart(TraceStep(c, t, l))
  {
    hide TokensDistinct, LooksQueued, JobOk, OneJobPerDeployment, DeploymentOk, WorkerOk;
    var phase, v := t.sys.workers[l.worker], TraceStep(c, t, l);
    if Current(t.sys.db, phase.lease) {
      assert RecordOk(t, phase.lease.job);
      forall u | u in t.sys.workers && u != l.worker ensures Apart(t.sys.workers[u], v.sys.workers[l.worker]) {
        assert HolderOk(t, t.sys.workers[u]) && Apart(t.sys.workers[u], phase);
      }
      MovedApart(t, v, l.worker);
    } else {
      KeptApart(t, v, l.worker);
    }
  }

  lemma StepApart(c: Settings, t: Traced, l: Label)
    requires HistInv(c, t) && Enabled(c, t.sys, l)
    ensures AllApart(TraceStep(c, t, l))
  {
    if l.Pop? { PopApart(c, t, l); }
    else if l.Begin? { BeginApart(c, t, l); }
    else if l.Raise? { RaiseApart(c, t, l); }
    else if l.Persist? || l.Finish? || l.MarkDeployment? || l.Crash? {
      hide Inv, Apart, RecordOk, HolderOk, Recorded, Close, FailDeployment, JobRunner.Persist;
      KeptApart(t, TraceStep(c, t, l), l.worker);
    } else {
      hide Inv, Apart, RecordOk, HolderOk, Recorded, ReconcilePass, JobQueue.Heartbeat;
    }
  }

  /** Everyone but the worker that acts. */
  lemma BystanderOk(c: Settings, t: Traced, l: Label, u: string)
    requires HistInv(c, t) && Enabled(c, t.sys, l) && u in t.sys.workers && !l.ReconcileBy? && !l.Finish? && !l.Raise?
    requires l.Enqueue? || l.Heartbeat? || l.Tick? || l.worker != u
    ensures HolderOk(TraceStep(c, t, l), t.sys.workers[u])
  {
    hide TokensDistinct, LooksQueued, JobOk, OneJobPerDeployment, DeploymentOk, FinalMark, FailDeployment, ActiveRow, Close;
    var other := t.sys.workers[u];
    assert WorkerOk(t.sys, other) && HolderOk(t, other);
    if l.Pop? {
      PopLeavesExecutor(c, t, l, u);
    } else if l.MarkDeployment? {
      MarkSettles(t.sys.workers[l.worker].lease.deployment.value, t.sys.workers[l.worker].reason, t.sys.db, t.sys.now);
      assert Apart(other, t.sys.workers[l.worker]);
    }
  }

  lemma ClosingBystander(c: Settings, t: Traced, l: Label, u: string)
    requires HistInv(c, t) && Enabled(c, t.sys, l) && u in t.sys.workers && (l.Finish? || l.Raise?) && l.worker != u
    ensures HolderOk(TraceStep(c, t, l), t.sys.workers[u])
  {
    hide TokensDistinct, LooksQueued, JobOk, OneJobPerDeployment, DeploymentOk, FinalMark, ActiveRow, Close;
    var other, phase := t.sys.workers[u], t.sys.workers[l.worker];
    assert WorkerOk(t.sys, other) && HolderOk(t, other) && Apart(other, phase);
    CloseShape(t.sys.db, phase.lease,
      if l.Finish? then FinalMark(RowFor(t.sys, phase.lease.deployment), l.run) else MarkFailed(l.reason), t.sys.now);
    if phase.lease.job in t.sys.db.jobs { assert RecordOk(t, phase.lease.job); }
  }

  /** A job whose boundary was crossed is never popped. */
  lemma PopLeavesExecutor(c: Settings, t: Traced, l: Label, u: string)
    requires HistInv(c, t) && Enabled(c, t.sys, l) && l.Pop? && u in t.sys.workers
    ensures t.sys.workers[u].Executing? ==> t.sys.workers[u].lease.job != l.job
  {
    hide TokensDistinct, LooksQueued, OneJobPerDeployment, HolderOk, RecordOk, Apart;
    var other := t.sys.workers[u];
    assert WorkerOk(t.sys, other) && JobOk(c, t.sys, l.job);
    if other.Executing? {
      var d := other.lease.deployment.value;
      assert d in t.sys.db.deployments ==> DeploymentOk(t.sys, d);
    }
  }

  lemma ActorOk(c: Settings, t: Traced, l: Label)
    requires HistInv(c, t) && Enabled(c, t.sys, l)
    requires !l.ReconcileBy? && !l.Enqueue? && !l.Heartbeat? && !l.Tick?
    ensures l.worker in TraceStep(c, t, l).sys.workers
    ensures HolderOk(TraceStep(c, t, l), TraceStep(c, t, l).sys.workers[l.worker])
  {
    hide TokensDistinct, LooksQueued, JobOk, OneJobPerDeployment, DeploymentOk, FinalMark, FailDeployment, ActiveRow, WorkerOk;
    if l.worker in t.sys.workers {
      var phase := t.sys.workers[l.worker];
      assert HolderOk(t, phase);
      if !phase.Idle? && phase.lease.job in t.sys.db.jobs { assert RecordOk(t, phase.lease.job); }
    }
  }

  lemma PassHolderOk(c: Settings, t: Traced, l: Label, u: string)
    requires HistInv(c, t) && Enabled(c, t.sys, l) && l.ReconcileBy? && u in t.sys.workers
    ensures HolderOk(TraceStep(c, t, l), t.sys.workers[u])
  {
    hide TokensDistinct, LooksQueued, JobOk, OneJobPerDeployment, DeploymentOk, ReconcilePass, IsBatch, FailedBy, Apart, RecordOk;
    var other := t.sys.workers[u];
    assert WorkerOk(t.sys, other) && HolderOk(t, other);
    if !other.Idle? {
      ReconcileKeepsJob(c, t.sys, l, other.lease.job);
    }
  }

  // ---- Every run ------------------------------------------------------------------------

  lemma StepRecord(c: Settings, t: Traced, l: Label, id: Id)
    requires HistInv(c, t) && Enabled(c, t.sys, l) && id in Do(c, t.sys, l).db.jobs
    ensures RecordOk(TraceStep(c, t, l), id)
  {
    hide HistInv, Enabled, Do, RecordOk, TraceStep;
    match l
    case Enqueue(_, _, _) => EnqueueRecord(c, t, l, id);
    case Persist(_, _, _) => FencedRecord(c, t, l, id);
    case Begin(_, _) => FencedRecord(c, t, l, id);
    case PipelineWrite(_, _) => PipelineRecord(c, t, l, id);
    case Finish(_, _) => ClosingRecord(c, t, l, id);
    case Raise(_, _) => ClosingRecord(c, t, l, id);
    case MarkDeployment(_) => MarkRecord(c, t, l, id);
    case ReconcileBy(_, _) => PassRecord(c, t, l, id);
    case _ => RowlessRecord(c, t, l, id);
  }

  lemma StepHolder(c: Settings, t: Traced, l: Label, u: string)
    requires HistInv(c, t) && Enabled(c, t.sys, l) && u in Do(c, t.sys, l).workers
    ensures HolderOk(TraceStep(c, t, l), Do(c, t.sys, l).workers[u])
  {
    WorkersMove(c, t.sys, l, u);
    hide HistInv, Enabled, Do, HolderOk, TraceStep;
    if l.ReconcileBy? { PassHolderOk(c, t, l, u); }
    else if (l.Finish? || l.Raise?) && l.worker != u { ClosingBystander(c, t, l, u); }
    else if l.Enqueue? || l.Heartbeat? || l.Tick? || l.worker != u { BystanderOk(c, t, l, u); }
    else { ActorSame(c, t, l); }
  }

  lemma ActorSame(c: Settings, t: Traced, l: Label)
    requires HistInv(c, t) && Enabled(c, t.sys, l)
    requires !l.ReconcileBy? && !l.Enqueue? && !l.Heartbeat? && !l.Tick?
    ensures l.worker in Do(c, t.sys, l).workers
    ensures HolderOk(TraceStep(c, t, l), Do(c, t.sys, l).workers[l.worker])
  {
    hide HistInv, HolderOk, Do, Recorded;
    ActorOk(c, t, l);
  }

  lemma WorkersMove(c: Settings, s: Sys, l: Label, u: string)
    requires Enabled(c, s, l) && u in Do(c, s, l).workers
    ensures l.ReconcileBy? || l.Enqueue? || l.Heartbeat? || l.Tick? || l.worker != u ==>
              u in s.workers && Do(c, s, l).workers[u] == s.workers[u]
  {
    hide ReconcilePass, JobQueue.Heartbeat, FailDeployment, Close, FinalMark, Claim, JobRunner.Persist, JobRunner.Begin,
      MayBegin, MayPersist, IsBatch, ClaimableJobs;
  }

  lemma RecordKeys(c: Settings, t: Traced, l: Label)
    requires HistInv(c, t) && Enabled(c, t.sys, l)
    ensures TraceStep(c, t, l).records.Keys <= TraceStep(c, t, l).sys.db.jobs.Keys
  {
    hide TokensDistinct, DeploymentOk, LooksQueued, JobOk, RecordOk, HolderOk, Apart, ReconcilePass, IsBatch, FinalMark,
      FailDeployment, ActiveRow, Verdict;
    if l.ReconcileBy? {
      PassKeepsJobs(l.who, t.sys.db, l.batch, c, t.sys.now);
    } else if l.PipelineWrite? || l.Finish? || l.Raise? || l.MarkDeployment? {
      assert WorkerOk(t.sys, t.sys.workers[l.worker]);
      if l.MarkDeployment? {
        MarkSettles(t.sys.workers[l.worker].lease.deployment.value, t.sys.workers[l.worker].reason, t.sys.db, t.sys.now);
      }
    }
  }

  lemma HistStep(c: Settings, t: Traced, l: Label)
    requires HistInv(c, t) && Enabled(c, t.sys, l) && Disciplined(l) && 0 < c.maxAttempts
    ensures HistInv(c, TraceStep(c, t, l))
  {
    var v := TraceStep(c, t, l);
    assert v.sys == Do(c, t.sys, l);
    StepApart(c, t, l);
    RecordKeys(c, t, l);
    hide Do, Enabled, RecordOk, HolderOk, Apart, Recorded, TraceStep;
    forall id | id in v.sys.db.jobs ensures RecordOk(v, id) {
      StepRecord(c, t, l, id);
    }
    forall w | w in v.sys.workers ensures HolderOk(v, v.sys.workers[w]) {
      StepHolder(c, t, l, w);
    }
    hide Inv;
    StepKeeps(c, t.sys, l);
  }

  lemma {:induction false} HistRun(c: Settings, t: Traced, ls: seq<Label>)
    requires HistInv(c, t) && AllDisciplined(ls) && 0 < c.maxAttempts
    ensures HistInv(c, TraceRun(c, t, ls))
    decreases |ls|
  {
    hide HistInv, Do, Enabled, Recorded;
    if ls != [] {
      if Enabled(c, t.sys, ls[0]) { HistStep(c, t, ls[0]); }
      HistRun(c, TraceStep(c, t, ls[0]), ls[1..]);
    }
  }

  function Start(projects: map<Id, string>, now: Time): Traced {
    Traced(Init(projects, now), map[])
  }

  // ---- Main results ---------------------------------------------------------------------

  /**
   In every run, a failed job's deployment is active exactly when the job was closed by an unverified
   finish on an active row, or by a raise on an active row whose deployment mark has not run, or the
   displaced holder wrote an active status last.
   */
  lemma FailedJobActiveExactly(c: Settings, projects: map<Id, string>, now: Time, ls: seq<Label>, job: Id)
    requires AllDisciplined(ls) && 0 < c.maxAttempts
    ensures var t := TraceRun(c, Start(projects, now), ls); var s := Run(c, Init(projects, now), ls);
            && t.sys == s
            && (job in s.db.jobs && s.db.jobs[job].status == JobStatus.Failed && s.db.jobs[job].deployment.Some? ==>
                  && job in t.records && s.db.jobs[job].deployment.value in s.db.deployments
                  && (Active(s.db.deployments[s.db.jobs[job].deployment.value].status) <==>
                        UnverifiedFinish(t.records[job]) || OwedMark(t.records[job]) || LateWrite(t.records[job])))
  {
    InitHolds(c, projects, now);
    HistRun(c, Start(projects, now), ls);
    TraceIsRun(c, Start(projects, now), ls);
    hide TraceRun, Run, UnverifiedFinish, OwedMark, LateWrite, TokensDistinct, WorkerOk, HolderOk, Apart, DeploymentOk;
    var t := TraceRun(c, Start(projects, now), ls);
    if job in t.sys.db.jobs {
      assert RecordOk(t, job) && JobOk(c, t.sys, job);
    }
  }

  /** The three routes exclude each other: only a pass displaces a holder that can still write, and
      only a raise owes a mark. */
  lemma RoutesExclude(c: Settings, projects: map<Id, string>, now: Time, ls: seq<Label>, job: Id)
    requires AllDisciplined(ls) && 0 < c.maxAttempts
    requires job in TraceRun(c, Start(projects, now), ls).records
    ensures var r := TraceRun(c, Start(projects, now), ls).records[job];
            && (LateWrite(r) ==> r.closing.ByPass?)
            && (OwedMark(r) ==> r.closing == ByRaise(true)) && (UnverifiedFinish(r) ==> r.closing == ByFinish(true))
            && (r.late.Some? ==> r.closing.ByPass?)
  {
    InitHolds(c, projects, now);
    HistRun(c, Start(projects, now), ls);
    hide TraceRun, Inv, HolderOk, Apart;
    assert RecordOk(TraceRun(c, Start(projects, now), ls), job);
  }

  /** A worker that is about to mark a deployment closed its job by its own raise, and the mark is still owed. */
  lemma PendingMarkFollowsRaise(c: Settings, projects: map<Id, string>, now: Time, ls: seq<Label>, w: string)
    requires AllDisciplined(ls) && 0 < c.maxAttempts
    ensures var t := TraceRun(c, Start(projects, now), ls);
            PhaseOf(t.sys, w).FailPending? ==>
              && PhaseOf(t.sys, w).lease.job in t.records
              && t.records[PhaseOf(t.sys, w).lease.job].closing.ByRaise?
              && !t.records[PhaseOf(t.sys, w).lease.job].marked
  {
    InitHolds(c, projects, now);
    HistRun(c, Start(projects, now), ls);
    hide TraceRun, Inv, RecordOk, Apart;
    var t := TraceRun(c, Start(projects, now), ls);
    if w in t.sys.workers { assert HolderOk(t, t.sys.workers[w]); }
  }
}
