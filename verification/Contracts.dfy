/** worker/contracts.py: the immutable envelope, from its decoded JSON to the validated record. */
module Contracts {
  import opened Wrappers
  import opened Text

  type Bytes = seq<int>

  const DAY := 86_400
  const MAX_BUNDLE_BYTES := 100 * 1024 * 1024
  const TRILLIONS := 1_000_000_000_000_000

  datatype BundleReference = BundleReference(
    container: string, artifactId: string, version: int, pathDigest: string,
    etag: string, sha256: string, sizeBytes: int)

  datatype InputDefinition = InputDefinition(name: string, kind: string)
  datatype InputVariables = InputVariables(fileName: string, sha256: string, definitions: seq<InputDefinition>)

  datatype Guardrails = Guardrails(
    resourceGroup: string,
    allowedTypes: seq<string>,
    maxChanges: int,
    maxDeletes: int,
    maxReplaces: int,
    scopeDigest: string,
    policyDigest: string,
    budget: Option<int>,
    budgetCurrency: Option<string>)

  datatype SavedPlan = SavedPlan(
    blobName: string, etag: string, sha256: string, planJobDigest: string,
    bundleSha256: string, inputsSha256: string, scopeDigest: string, policyDigest: string)

  datatype CostEstimate = CostEstimate(artifactSha256: string, currency: string, monthlyCost: int, capturedAt: int)

  datatype Approval = Approval(
    approvalId: string, decision: string, approvedBy: string, approvedAt: int, planJobDigest: string,
    planSha256: string, planEtag: string, bundleSha256: string, applyJobId: string, expiresAt: int,
    inputsSha256: string, scopeDigest: string, policyDigest: string, costSha256: string,
    currency: string, monthlyCost: int)

  /** Every field of a message except `job_digest`; an absent apply section is None. */
  datatype Claims = Claims(
    schemaVersion: string, operation: string, jobId: string, tenantId: string, projectId: string, userId: string,
    workflowId: string, revision: int, bundle: BundleReference, inputs: InputVariables, guardrails: Guardrails,
    stateKey: string, subscriptionId: string, azureTenantId: string, terraformVersion: string, requestedAt: int,
    savedPlan: Option<SavedPlan>, cost: Option<CostEstimate>, approval: Option<Approval>)

  datatype Payload = Payload(claims: Claims, jobDigest: string)

  /** The validated record: identifiers in canonical lower case. `raw` is the message it came from. */
  datatype Envelope = Envelope(claims: Claims, jobDigest: string, raw: Claims)

  /** SHA-256 over file bytes, over canonical JSON of a message, and over event text. */
  datatype Hashes = Hashes(file: Bytes -> string, message: Claims -> string, text: string -> string)

  ghost predicate CollisionFree(h: Hashes) {
    && (forall a, b :: h.file(a) == h.file(b) ==> a == b)
    && (forall a, b :: h.message(a) == h.message(b) ==> a == b)
    && (forall a, b :: h.text(a) == h.text(b) ==> a == b)
  }

  // ---- Field rules ----------------------------------------------------------------------

  predicate EtagOk(s: string) {
    0 < |s| <= 256 && forall c <- s :: c as int >= 32
  }

  predicate SafePath(s: string) {
    s != [] && forall c <- s :: Alnum(c) || c in "._/-"
  }

  predicate CurrencyOk(s: string) {
    |s| == 3 && forall c <- s :: UpperLetter(c)
  }

  predicate SortedDistinct(s: seq<string>) {
    forall i :: 0 < i < |s| ==> Before(s[i - 1], s[i])
  }

  predicate Before(a: string, b: string) {
    b != [] && (a == [] || a[0] < b[0] || (a[0] == b[0] && Before(a[1..], b[1..])))
  }

  predicate VariableNameOk(s: string) {
    && 1 <= |s| <= 64 && LowerLetter(s[0])
    && (forall c <- s :: LowerLetter(c) || Digit(c) || c == '_')
    && !SecretName(s)
  }

  predicate SecretName(s: string) {
    exists word <- SECRET_WORDS :: Contains(s, word)
  }

  const SECRET_WORDS := ["password", "passwd", "secret", "token", "authorization", "apikey", "api_key",
    "connectionstring", "connection_string", "privatekey", "private_key", "sas"]

  predicate ResourceTypeOk(s: string) {
    && StartsWith(s, "azurerm_") && 9 <= |s| <= 104
    && forall c <- s[8..] :: LowerLetter(c) || Digit(c) || c == '_'
  }

  predicate ResourceGroupOk(s: string) {
    && 1 <= |s| <= 90 && s[|s| - 1] != '.'
    && forall c <- s :: Alnum(c) || c in "._()-"
  }

  predicate VersionOk(s: string) {
    var parts := Split(s, '.');
    |parts| == 3 && forall p <- parts :: p != [] && forall c <- p :: Digit(c)
  }

  predicate BundleOk(b: BundleReference) {
    && IsSha256(b.sha256)
    && |b.container| == 42 && b.container[..2] == "t-" && (forall c <- b.container[2..] :: LowerHex(c))
    && CanonicalUuid(b.artifactId) && 1 <= b.version && b.pathDigest == b.sha256
    && 0 < b.sizeBytes <= MAX_BUNDLE_BYTES
    && EtagOk(b.etag)
  }

  predicate InputsOk(v: InputVariables) {
    && v.fileName == "zeroops.auto.tfvars.json"
    && |v.definitions| <= 64
    && (forall d <- v.definitions :: VariableNameOk(d.name) && d.kind in ["string", "number", "bool", "list(string)"])
    && SortedDistinct(seq(|v.definitions|, i requires 0 <= i < |v.definitions| => v.definitions[i].name))
    && IsSha256(v.sha256)
  }

  predicate GuardrailsOk(g: Guardrails) {
    && ResourceGroupOk(g.resourceGroup)
    && 1 <= |g.allowedTypes| <= 120 && (forall t <- g.allowedTypes :: ResourceTypeOk(t)) && SortedDistinct(g.allowedTypes)
    && 1 <= g.maxChanges <= 500 && 0 <= g.maxDeletes <= 100 && 0 <= g.maxReplaces <= 100
    && g.maxDeletes <= g.maxChanges && g.maxReplaces <= g.maxChanges
    && (match g.budget
        case Some(amount) => 0 <= amount <= TRILLIONS && g.budgetCurrency.Some? && CurrencyOk(g.budgetCurrency.value)
        case None => g.budgetCurrency.None?)
    && IsSha256(g.scopeDigest) && IsSha256(g.policyDigest)
  }

  function PlanPrefix(tenant: string, workflow: string): string {
    "tenants/" + tenant + "/workflows/" + workflow + "/plans/"
  }

  predicate SavedPlanOk(p: SavedPlan, tenant: string, workflow: string) {
    && SafePath(p.blobName) && StartsWith(p.blobName, PlanPrefix(tenant, workflow))
    && ".." !in Split(p.blobName, '/') && EndsWith(p.blobName, ".tfplan")
    && EtagOk(p.etag) && IsSha256(p.sha256) && IsSha256(p.planJobDigest) && IsSha256(p.bundleSha256)
    && IsSha256(p.inputsSha256) && IsSha256(p.scopeDigest) && IsSha256(p.policyDigest)
  }

  predicate NotFuture(t: int, now: int) {
    t <= now + 300
  }

  predicate CostOk(c: CostEstimate, now: int) {
    CurrencyOk(c.currency) && IsSha256(c.artifactSha256) && 0 <= c.monthlyCost <= TRILLIONS && NotFuture(c.capturedAt, now)
  }

  predicate ApprovalOk(a: Approval, now: int) {
    && a.decision == "approved" && NotFuture(a.approvedAt, now)
    && a.approvedAt < a.expiresAt && a.expiresAt - a.approvedAt <= DAY
    && CurrencyOk(a.currency) && IsUuid(a.approvalId) && IsUuid(a.approvedBy) && IsUuid(a.applyJobId)
    && IsSha256(a.planJobDigest) && IsSha256(a.planSha256) && EtagOk(a.planEtag) && IsSha256(a.bundleSha256)
    && IsSha256(a.inputsSha256) && IsSha256(a.scopeDigest) && IsSha256(a.policyDigest) && IsSha256(a.costSha256)
    && 0 <= a.monthlyCost <= TRILLIONS
  }

  /** The chain of equalities that ties plan, approval, cost and this message together. */
  predicate ApplyBound(c: Claims, p: SavedPlan, e: CostEstimate, a: Approval) {
    && Lower(a.applyJobId) == c.jobId
    && p.planJobDigest == a.planJobDigest && p.sha256 == a.planSha256 && p.etag == a.planEtag
    && c.bundle.sha256 == p.bundleSha256 == a.bundleSha256
    && p.inputsSha256 == a.inputsSha256 == c.inputs.sha256
    && p.scopeDigest == a.scopeDigest == c.guardrails.scopeDigest
    && p.policyDigest == a.policyDigest == c.guardrails.policyDigest
    && a.costSha256 == e.artifactSha256 && a.currency == e.currency && a.monthlyCost == e.monthlyCost
    && (c.guardrails.budget.Some? ==>
          c.guardrails.budgetCurrency == Some(e.currency) && e.monthlyCost <= c.guardrails.budget.value)
    && e.capturedAt <= a.approvedAt
  }

  function StateKey(tenant: string, workflow: string): string {
    "tenants/" + tenant + "/workspaces/" + workflow + "/terraform.tfstate"
  }

  predicate SectionsMatch(c: Claims) {
    || (c.operation == "plan" && c.savedPlan.None? && c.cost.None? && c.approval.None?)
    || (c.operation == "apply" && c.savedPlan.Some? && c.cost.Some? && c.approval.Some?)
  }

  /** Everything `from_mapping` asks of the message apart from its digest. */
  predicate Acceptable(c: Claims, now: int) {
    && SectionsMatch(c)
    && c.schemaVersion == "1.0"
    && IsUuid(c.tenantId) && IsUuid(c.workflowId) && 1 <= c.revision
    && c.stateKey == StateKey(Lower(c.tenantId), Lower(c.workflowId)) && SafePath(c.stateKey)
    && VersionOk(c.terraformVersion)
    && BundleOk(c.bundle) && InputsOk(c.inputs) && GuardrailsOk(c.guardrails)
    && (c.operation == "apply" ==>
          && SavedPlanOk(c.savedPlan.value, Lower(c.tenantId), Lower(c.workflowId))
          && CostOk(c.cost.value, now) && ApprovalOk(c.approval.value, now)
          && ApplyBound(c, c.savedPlan.value, c.cost.value, c.approval.value))
    && IsUuid(c.jobId) && IsUuid(c.projectId) && IsUuid(c.userId)
    && IsUuid(c.subscriptionId) && IsUuid(c.azureTenantId) && NotFuture(c.requestedAt, now)
  }

  function CanonicalApproval(a: Approval): Approval {
    a.(approvalId := Lower(a.approvalId), approvedBy := Lower(a.approvedBy), applyJobId := Lower(a.applyJobId))
  }

  function Canonical(c: Claims): Claims {
    c.(jobId := Lower(c.jobId), tenantId := Lower(c.tenantId), projectId := Lower(c.projectId),
       userId := Lower(c.userId), workflowId := Lower(c.workflowId), subscriptionId := Lower(c.subscriptionId),
       azureTenantId := Lower(c.azureTenantId),
       approval := if c.approval.Some? then Some(CanonicalApproval(c.approval.value)) else None)
  }

  function FromMapping(h: Hashes, now: int, p: Payload): Result<Envelope, string> {
    if !SectionsMatch(p.claims) then Err("operation or fields")
    else if !IsSha256(p.jobDigest) || h.message(p.claims) != p.jobDigest then Err("job_digest")
    else if !Acceptable(p.claims, now) then Err("field or binding")
    else Ok(Envelope(Canonical(p.claims), p.jobDigest, p.claims))
  }

  /** The producer's helper: a message carrying its own digest. */
  function PayloadWithDigest(h: Hashes, c: Claims): Payload {
    Payload(c, h.message(c))
  }

  /** A validated envelope, as the rest of the runner may rely on it. */
  ghost predicate Valid(h: Hashes, e: Envelope) {
    && e.claims == Canonical(e.raw) && e.jobDigest == h.message(e.raw)
    && CanonicalUuid(e.claims.tenantId) && CanonicalUuid(e.claims.workflowId) && CanonicalUuid(e.claims.jobId)
    && CanonicalUuid(e.claims.subscriptionId)
    && (e.claims.operation == "plan" || e.claims.operation == "apply")
    && GuardrailsOk(e.claims.guardrails)
    && e.claims.stateKey == StateKey(e.claims.tenantId, e.claims.workflowId)
    && (e.claims.operation == "apply" ==>
          && e.claims.savedPlan.Some? && e.claims.cost.Some? && e.claims.approval.Some?
          && CanonicalUuid(e.claims.approval.value.approvalId)
          && SavedPlanOk(e.claims.savedPlan.value, e.claims.tenantId, e.claims.workflowId)
          && e.claims.approval.value.decision == "approved"
          && e.claims.approval.value.expiresAt - e.claims.approval.value.approvedAt <= DAY
          && ApplyBound(e.claims, e.claims.savedPlan.value, e.claims.cost.value, e.claims.approval.value))
  }

  lemma LowerTwice(s: string)
    ensures Lower(Lower(s)) == Lower(s)
  {
    assert forall i :: 0 <= i < |s| ==> Lower(Lower(s))[i] == Lower(s)[i];
  }

  lemma FromMappingValid(h: Hashes, now: int, p: Payload)
    requires FromMapping(h, now, p).Ok?
    ensures Valid(h, FromMapping(h, now, p).value)
  {
    hide BundleOk, InputsOk, VersionOk, SafePath, IsSha256, EtagOk, GuardrailsOk;
    var c := p.claims;
    LowerUuid(c.tenantId);
    LowerUuid(c.workflowId);
    LowerUuid(c.jobId);
    LowerUuid(c.subscriptionId);
    if c.operation == "apply" {
      LowerUuid(c.approval.value.approvalId);
      LowerTwice(c.approval.value.applyJobId);
    }
  }

  /** The producer's message is accepted exactly when its fields are; the digest never stands in the way. */
  lemma ProducedMessage(h: Hashes, now: int, c: Claims)
    requires IsSha256(h.message(c))
    ensures FromMapping(h, now, PayloadWithDigest(h, c)).Ok? <==> Acceptable(c, now)
    ensures Acceptable(c, now) ==> FromMapping(h, now, PayloadWithDigest(h, c)).value.raw == c
  {
  }

  /** One digest names one message: any edit under the same digest is refused. */
  lemma DigestNamesMessage(h: Hashes, now: int, later: int, p: Payload, q: Payload)
    requires CollisionFree(h) && p.jobDigest == q.jobDigest
    requires FromMapping(h, now, p).Ok? && FromMapping(h, later, q).Ok?
    ensures FromMapping(h, now, p) == FromMapping(h, later, q)
  {
    assert h.message(p.claims) == h.message(q.claims);
  }
}
