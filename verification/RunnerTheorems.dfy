/** What every run of the plan/apply protocol guarantees. */
module RunnerTheorems {
  import opened Wrappers
  import opened Text
  import opened Contracts
  import opened BlobStore
  import opened RunnerProtocol
  import opened RunnerInvariant
  import PlanSummary
  import Gate = ExecutionGate

  ghost predicate Reachable(h: Hashes, w: World) {
    exists now: int, ls: seq<Label> :: w == Run(h, Init(now), ls)
  }

  lemma ReachableIsInv(h: Hashes, w: World)
    requires Reachable(h, w)
    ensures Inv(h, w)
  {
    hide Run, Inv, Init;
    var now: int, ls: seq<Label> :| w == Run(h, Init(now), ls);
    ReachableInv(h, now, ls);
  }

  // ---- Only guarded plans are applied ---------------------------------------------------

  /** The plan job that saved these bytes, for the same tenant and workflow, within its own guardrails. */
  ghost predicate GuardedSource(s: Save, a: Application) {
    && s.env.claims.operation == "plan"
    && s.env.claims.tenantId == a.env.claims.tenantId
    && s.env.claims.workflowId == a.env.claims.workflowId
    && s.bytes == a.bytes
    && Gate.Accepts(ScopeOf(s.env), s.doc, s.inputs)
  }

  lemma PlanBlobSource(h: Hashes, w: World, e: Envelope, bytes: Bytes) returns (s: Save)
    requires Inv(h, w) && Valid(h, e) && PlanBytes(h, w, e, bytes)
    ensures s in w.saves && SavedAs(h, s, e.claims.savedPlan.value.blobName, bytes)
  {
    var name := e.claims.savedPlan.value.blobName;
    hide Valid, SavedAs;
    assert BlobOk(h, w, name);
    s :| s in w.saves && SavedAs(h, s, name, bytes);
  }

  lemma SameWorkspace(h: Hashes, s: Envelope, e: Envelope, sha: string)
    requires Valid(h, s) && Valid(h, e) && IsApply(e)
    requires e.claims.savedPlan.value.blobName == PlanNameOf(s, sha)
    ensures s.claims.tenantId == e.claims.tenantId && s.claims.workflowId == e.claims.workflowId
  {
    hide ApplyBound, GuardrailsOk, Canonical;
    var c := s.claims;
    var rest := c.jobId + "/" + sha + ".tfplan";
    assert PlanNameOf(s, sha) == PlanPrefix(c.tenantId, c.workflowId) + rest;
    PlanPrefixDecodes(c.tenantId, c.workflowId, rest, e.claims.tenantId, e.claims.workflowId);
  }

  /**
   In every run, whatever was handed to `terraform apply` was saved earlier by a plan job of the
   same tenant and workflow that passed its guardrails, and the gate saw a live approval of exactly
   that digest.
   */
  lemma AppliedBytesWereGuarded(h: Hashes, w: World, a: Application)
    requires Reachable(h, w) && a in w.applied
    ensures exists s <- w.saves :: GuardedSource(s, a)
    ensures IsApply(a.env)
    ensures a.env.claims.approval.value.planSha256 == h.file(a.bytes)
    ensures a.env.claims.approval.value.decision == "approved"
    ensures a.gatedAt < a.env.claims.approval.value.expiresAt
    ensures a.gatedAt - a.env.claims.approval.value.approvedAt <= DAY
  {
    hide Reachable, Canonical, Gate.Accepts, ApplyBound, SavedPlanOk, GuardrailsOk;
    ReachableIsInv(h, w);
    assert AppliedOk(h, w, a) by { hide Valid; }
    hide Inv;
    var s := PlanBlobSource(h, w, a.env, a.bytes);
    SameWorkspace(h, s.env, a.env, h.file(a.bytes));
    assert GuardedSource(s, a);
  }

  // ---- One apply job per approval -------------------------------------------------------

  /** Any two deliveries that reached the executor under one approval carry one job. */
  lemma OneJobPerApproval(h: Hashes, w: World, d: Delivery, e: Delivery)
    requires Reachable(h, w) && d in w.executed && e in w.executed
    requires IsApply(d.env) && IsApply(e.env)
    requires d.env.claims.tenantId == e.env.claims.tenantId
    requires d.env.claims.approval.value.approvalId == e.env.claims.approval.value.approvalId
    ensures d.env.jobDigest == e.env.jobDigest && d.env.claims.jobId == e.env.claims.jobId
    ensures CollisionFree(h) ==> d.env == e.env
  {
    hide Reachable, Canonical, CollisionFree;
    ReachableIsInv(h, w);
    assert ExecutedOk(h, w, d) && ExecutedOk(h, w, e) by { hide Valid; }
    hide Inv;
    assert ClaimNameOf(d.env) == ClaimNameOf(e.env);
    assert ClaimOf(d.env) == ClaimOf(e.env);
    if CollisionFree(h) { SameDigestSameEnvelope(h, d.env, e.env); }
  }

  lemma SameDigestSameEnvelope(h: Hashes, d: Envelope, e: Envelope)
    requires CollisionFree(h) && Valid(h, d) && Valid(h, e) && d.jobDigest == e.jobDigest
    ensures d == e
  {
    hide Canonical, ApplyBound, SavedPlanOk, GuardrailsOk;
    assert h.message(d.raw) == h.message(e.raw);
  }

  /** A job that has executed under its approval is admitted again on every later delivery. */
  lemma BoundJobStaysAdmitted(h: Hashes, w: World, d: Delivery, ls: seq<Label>)
    requires Reachable(h, w) && d in w.executed && IsApply(d.env)
    ensures MayClaim(Run(h, w, ls).blobs, d.env)
  {
    hide Reachable, Run, EnvelopeOf, Valid;
    ReachableIsInv(h, w);
    RunKeeps(h, w, ls);
    assert ExecutedOk(h, w, d);
    hide Inv;
  }

  // ---- Completion -----------------------------------------------------------------------

  /** A receipt under a job's name stands for that job, and its success event was sent first. */
  lemma ReceiptMeansPublished(h: Hashes, w: World, e: Envelope)
    requires CollisionFree(h) && Reachable(h, w) && Valid(h, e) && ReceiptNameOf(e) in w.blobs
    ensures EventOf(h, e, true) in w.events
  {
    hide Reachable, Canonical, CollisionFree, EventOf, ApplyBound, SavedPlanOk, GuardrailsOk, Gate.Accepts;
    ReachableIsInv(h, w);
    var name := ReceiptNameOf(e);
    assert BlobOk(h, w, name) by { hide Valid; }
    hide Inv;
    match w.blobs[name].content {
      case PlanContent(bytes, _) =>
        var s :| s in w.saves && SavedAs(h, s, name, bytes);
        PlanNameStart(s.env, h.file(bytes));
        NamespacesDisjoint(name, e.claims.tenantId, e.claims.workflowId, e.jobDigest, "");
      case ClaimContent(_) =>
        var f: Envelope :| Valid(h, f) && IsApply(f) && name == ClaimNameOf(f);
        ReceiptIsNotClaim(e, f);
      case ReceiptContent(_, _) =>
        var f: Envelope :| Valid(h, f) && name == ReceiptNameOf(f) && EventOf(h, f, true) in w.events;
        ReceiptNameDecodes(e.claims.tenantId, e.claims.workflowId, e.jobDigest, f.claims.tenantId, f.claims.workflowId, f.jobDigest);
        SameDigestSameEnvelope(h, e, f);
    }
  }

  lemma PlanNameStart(e: Envelope, sha: string)
    ensures StartsWith(PlanNameOf(e, sha), "tenants/")
  {
    assert PlanNameOf(e, sha)[..8] == "tenants/";
  }

  lemma ReceiptIsNotClaim(e: Envelope, f: Envelope)
    requires f.claims.approval.Some?
    ensures ReceiptNameOf(e) != ClaimNameOf(f)
  {
    assert ReceiptNameOf(e)[0] == 'r' && ClaimNameOf(f)[0] == 'a';
  }

  /** A settled message has its receipt, and therefore its success event. */
  lemma CompletedMeansReceipt(h: Hashes, w: World, m: Id)
    requires CollisionFree(h) && Reachable(h, w) && m in w.messages && w.messages[m].state == MessageState.Completed
    ensures var e := EnvelopeOf(w.messages[m].payload);
            Valid(h, e) && ReceiptNameOf(e) in w.blobs && EventOf(h, e, true) in w.events
  {
    hide Reachable, Valid, EnvelopeOf, CollisionFree;
    ReachableIsInv(h, w);
    assert MessageOk(h, w, m);
    hide Inv;
    ReceiptMeansPublished(h, w, EnvelopeOf(w.messages[m].payload));
  }

  /** A delivery that began after its receipt existed never reaches the executor. */
  lemma SettledJobIsNotExecuted(h: Hashes, w: World, d: Delivery)
    requires Reachable(h, w) && d in w.executed
    ensures !d.receiptAtStart
  {
    hide Reachable, Valid, EnvelopeOf;
    ReachableIsInv(h, w);
    assert ExecutedOk(h, w, d);
  }

  // ---- Event identity -------------------------------------------------------------------

  lemma EventTextDecodes(t: string, w: string, j: string, k: string, t': string, w': string, j': string, k': string)
    requires |t| == |t'| == |w| == |w'| == |j| == |j'| == 36
    requires EventText(t, w, j, k) == EventText(t', w', j', k')
    ensures t == t' && w == w' && j == j' && k == k'
  {
    var a, b := EventText(t, w, j, k), EventText(t', w', j', k');
    assert a[18..54] == t && b[18..54] == t';
    assert a[55..91] == w && b[55..91] == w';
    assert a[92..128] == j && b[92..128] == j';
    assert a[129..] == k && b[129..] == k';
  }

  /** Event ids agree exactly on tenant, workflow, job and event type. */
  lemma EventIdExactly(h: Hashes, d: Envelope, e: Envelope, x: bool, y: bool)
    requires CollisionFree(h) && Valid(h, d) && Valid(h, e)
    ensures EventOf(h, d, x).eventId == EventOf(h, e, y).eventId <==>
              && d.claims.tenantId == e.claims.tenantId && d.claims.workflowId == e.claims.workflowId
              && d.claims.jobId == e.claims.jobId && EventType(d, x) == EventType(e, y)
  {
    hide Canonical, ApplyBound, SavedPlanOk, GuardrailsOk, EventType, EventText;
    var a := EventText(d.claims.tenantId, d.claims.workflowId, d.claims.jobId, EventType(d, x));
    var b := EventText(e.claims.tenantId, e.claims.workflowId, e.claims.jobId, EventType(e, y));
    if EventOf(h, d, x).eventId == EventOf(h, e, y).eventId {
      assert EventOf(h, d, x).eventId[4..] == h.text(a) && EventOf(h, e, y).eventId[4..] == h.text(b);
      assert h.text(a) == h.text(b);
      EventTextDecodes(d.claims.tenantId, d.claims.workflowId, d.claims.jobId, EventType(d, x),
        e.claims.tenantId, e.claims.workflowId, e.claims.jobId, EventType(e, y));
    }
  }

  /** All success events of one job carry one id, over every redelivery. */
  lemma SuccessEventsAgree(h: Hashes, w: World, u: Event, v: Event)
    requires CollisionFree(h) && Reachable(h, w) && u in w.events && v in w.events
    requires u.success && v.success && u.jobDigest == v.jobDigest
    ensures u == v
  {
    hide Reachable, CollisionFree, Valid;
    ReachableIsInv(h, w);
    assert EventOk(h, u) && EventOk(h, v);
    hide Inv;
    var d: Envelope :| Valid(h, d) && u == EventOf(h, d, true);
    var e: Envelope :| Valid(h, e) && v == EventOf(h, e, true);
    SameDigestSameEnvelope(h, d, e);
  }

  // ---- Scale-in protection --------------------------------------------------------------

  /** The executor runs only on a protected instance. */
  lemma ExecutingIsProtected(h: Hashes, w: World, r: Id)
    requires Reachable(h, w) && r in w.runners && Executing(w.runners[r].phase)
    ensures w.runners[r].armed
  {
    hide Reachable, PhaseOk;
    ReachableIsInv(h, w);
    assert ShieldOk(w.runners[r]);
  }

  /** A runner ready for its next message holds protection if and only if its last protect call raised
      after taking effect. */
  lemma ReadyIsReleased(h: Hashes, w: World, r: Id)
    requires Reachable(h, w) && r in w.runners && w.runners[r].phase.Polling?
    ensures w.runners[r].armed <==> w.runners[r].unsure
  {
    hide Reachable, PhaseOk;
    ReachableIsInv(h, w);
    assert ShieldOk(w.runners[r]);
  }

  /** That exception is real: the handler never releases what `protected` did not record. */
  lemma AmbiguousProtectLeaks(h: Hashes, w: World, r: Id)
    requires r in w.runners && w.runners[r].phase.Unprotected?
    ensures var v := Step(h, Step(h, w, Protect(r, RaisedAfter)), Handle(r, true, true, false));
            v.runners[r] == Runner(Polling, true, true)
  {
    hide EventOf;
  }

  lemma StoppedStep(h: Hashes, w: World, l: Label, r: Id)
    requires r in w.runners && w.runners[r].phase.Stopped?
    ensures r in Step(h, w, l).runners && Step(h, w, l).runners[r].phase.Stopped?
  {
    hide DecodePhase, FaultPhase, EventOf, GateOpen, MayDownload, MayClaim, MaySave, Gate.Accepts, ReceiptNameOf, EnvelopeOf,
      Finally;
  }

  /** After a failed release, or a crash, the process takes no message in any continuation. */
  lemma {:induction false} StoppedTakesNoMessage(h: Hashes, w: World, ls: seq<Label>, r: Id, m: Id)
    requires r in w.runners && w.runners[r].phase.Stopped?
    ensures !Enabled(h, Run(h, w, ls), Receive(r, m))
    decreases |ls|
  {
    hide Step;
    if ls != [] {
      StoppedStep(h, w, ls[0], r);
      StoppedTakesNoMessage(h, Step(h, w, ls[0]), ls[1..], r, m);
    }
  }

  /** A release that fails stops the runner, whether or not it took effect. */
  lemma FailedReleaseStops(h: Hashes, w: World, r: Id, effective: bool)
    requires r in w.runners && w.runners[r].phase.Releasing?
    ensures Step(h, w, Release(r, false, effective)).runners[r].phase.Stopped?
  {
  }

  /** So after a failed release the process takes no message, whatever runs next. */
  lemma FailedReleaseIsFinal(h: Hashes, w: World, ls: seq<Label>, r: Id, effective: bool, m: Id)
    requires r in w.runners && w.runners[r].phase.Releasing?
    ensures !Enabled(h, Run(h, Step(h, w, Release(r, false, effective)), ls), Receive(r, m))
    ensures Step(h, w, Release(r, false, effective)).runners == w.runners[r := Runner(Stopped, w.runners[r].armed && !effective, w.runners[r].unsure)]
  {
    FailedReleaseStops(h, w, r, effective);
    hide Step, Run;
    StoppedTakesNoMessage(h, Step(h, w, Release(r, false, effective)), ls, r, m);
  }

  // ---- Four steps at once ---------------------------------------------------------------

  lemma RunFour(h: Hashes, w: World, a: Label, b: Label, c: Label, d: Label)
    ensures Run(h, w, [a, b, c, d]) == Step(h, Step(h, Step(h, Step(h, w, a), b), c), d)
  {
    hide Step;
    assert [a, b, c, d][1..] == [b, c, d] && [b, c, d][1..] == [c, d] && [c, d][1..] == [d] && [d][1..] == [];
    assert Run(h, w, [a, b, c, d]) == Run(h, Step(h, w, a), [b, c, d]);
    assert Run(h, Step(h, w, a), [b, c, d]) == Run(h, Step(h, Step(h, w, a), b), [c, d]);
    assert Run(h, Step(h, Step(h, w, a), b), [c, d]) == Run(h, Step(h, Step(h, Step(h, w, a), b), c), [d]);
  }
}
