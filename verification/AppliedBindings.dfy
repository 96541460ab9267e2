/** What bound every apply that ever happened: approval, plan, cost and budget, in every reachable world. */
module AppliedBindings {
  import opened Wrappers
  import opened Text
  import opened Contracts
  import opened BlobStore
  import opened RunnerProtocol
  import opened RunnerInvariant
  import opened RunnerTheorems
  import opened AcceptedMessages
  import Gate = ExecutionGate

  lemma AppliedParts(h: Hashes, w: World, a: Application)
    requires Reachable(h, w) && a in w.applied
    ensures Valid(h, a.env) && PlanBytes(h, w, a.env, a.bytes) && GateOpen(a.env, h.file(a.bytes), a.gatedAt)
  {
    hide Reachable, Valid, PlanBytes, GateOpen;
    ReachableIsInv(h, w);
    assert AppliedOk(h, w, a);
  }

  lemma LowerOnce(s: string)
    ensures Lower(Lower(s)) == Lower(s)
  {
    LowerTwice(s);
  }

  /** The estimate of every applied job was in the budget's currency and within its amount, was taken
      before the approval, and is the one that was approved. */
  lemma AppliedWithinBudget(h: Hashes, w: World, a: Application)
    requires Reachable(h, w) && a in w.applied
    ensures a.env.claims.cost.Some? && a.env.claims.approval.Some?
    ensures var c, e, v := a.env.claims, a.env.claims.cost.value, a.env.claims.approval.value;
            && (c.guardrails.budget.Some? ==>
                  c.guardrails.budgetCurrency == Some(e.currency) && e.monthlyCost <= c.guardrails.budget.value)
            && e.capturedAt <= v.approvedAt
            && v.costSha256 == e.artifactSha256 && v.currency == e.currency && v.monthlyCost == e.monthlyCost
  {
    AppliedParts(h, w, a);
    hide Reachable, PlanBytes, Canonical, SavedPlanOk, GuardrailsOk, StateKey;
    var c := a.env.claims;
    BindingMeaning(c, c.savedPlan.value, c.cost.value, c.approval.value);
    hide ApplyBound;
  }

  /** Every apply ran on exactly the approved bytes, for the approved job, less than a day after an
      approval that had not expired, and bundle, inputs, scope and policy are those of plan and approval. */
  lemma AppliedAsApproved(h: Hashes, w: World, a: Application)
    requires Reachable(h, w) && a in w.applied
    ensures a.env.claims.savedPlan.Some? && a.env.claims.approval.Some?
    ensures var c, p, v := a.env.claims, a.env.claims.savedPlan.value, a.env.claims.approval.value;
            && h.file(a.bytes) == p.sha256 && h.file(a.bytes) == v.planSha256
            && v.applyJobId == c.jobId && v.decision == "approved"
            && a.gatedAt < v.expiresAt && a.gatedAt - v.approvedAt <= 24 * 60 * 60
            && v.planJobDigest == p.planJobDigest && v.planEtag == p.etag
            && p.bundleSha256 == c.bundle.sha256 && v.bundleSha256 == c.bundle.sha256
            && p.inputsSha256 == c.inputs.sha256 && v.inputsSha256 == c.inputs.sha256
            && p.scopeDigest == c.guardrails.scopeDigest && v.scopeDigest == c.guardrails.scopeDigest
            && p.policyDigest == c.guardrails.policyDigest && v.policyDigest == c.guardrails.policyDigest
            && p.blobName in w.blobs && w.blobs[p.blobName].etag == p.etag
            && w.blobs[p.blobName].content.PlanContent? && w.blobs[p.blobName].content.bytes == a.bytes
  {
    AppliedParts(h, w, a);
    hide Reachable, SavedPlanOk, GuardrailsOk, StateKey, Lower;
    var c := a.env.claims;
    BindingMeaning(c, c.savedPlan.value, c.cost.value, c.approval.value);
    LowerOnce(a.env.raw.approval.value.applyJobId);
    hide ApplyBound;
  }

  /** The gate before an apply: the approved digest, an approval of at most a day that has not expired, and
      the approved bundle. On a validated message the digest and the expiry decide alone. */
  lemma GateExactly(h: Hashes, e: Envelope, sha: string, now: int)
    ensures GateOpen(e, sha, now) <==>
              && e.claims.operation == "apply" && e.claims.savedPlan.Some? && e.claims.approval.Some?
              && sha == e.claims.savedPlan.value.sha256 && sha == e.claims.approval.value.planSha256
              && now < e.claims.approval.value.expiresAt && now - e.claims.approval.value.approvedAt <= 24 * 60 * 60
              && e.claims.approval.value.bundleSha256 == e.claims.bundle.sha256
    ensures Valid(h, e) && e.claims.operation == "apply" ==>
              (GateOpen(e, sha, now) <==> sha == e.claims.savedPlan.value.sha256 && now < e.claims.approval.value.expiresAt)
  {
    hide Canonical, SavedPlanOk, GuardrailsOk, StateKey;
  }
}
