/** Which messages `from_mapping` accepts: the exact condition, field by field and character by character. */
module AcceptedMessages {
  import opened Wrappers
  import opened Text
  import opened Sorting
  import opened Contracts
  import opened TextMeaning

  // ---- Single fields --------------------------------------------------------------------

  predicate IsDigit(c: char) { '0' <= c <= '9' }

  /** Sixty-four lower-case hexadecimal digits. */
  predicate Digest(s: string) {
    |s| == 64 && forall i :: 0 <= i < 64 ==> IsDigit(s[i]) || 'a' <= s[i] <= 'f'
  }

  /** 8-4-4-4-12 hexadecimal digits of either case. */
  predicate Uuid(s: string) {
    |s| == 36 && s[8] == '-' && s[13] == '-' && s[18] == '-' && s[23] == '-'
    && forall i :: 0 <= i < 36 && i != 8 && i != 13 && i != 18 && i != 23 ==>
         IsDigit(s[i]) || 'a' <= s[i] <= 'f' || 'A' <= s[i] <= 'F'
  }

  /** At least one and at most 256 characters, none of them a control character. */
  predicate StorageTag(s: string) {
    1 <= |s| && |s| <= 256 && forall i :: 0 <= i < |s| ==> s[i] as int >= 32
  }

  /** Three capitals. */
  predicate Currency(s: string) {
    |s| == 3 && 'A' <= s[0] <= 'Z' && 'A' <= s[1] <= 'Z' && 'A' <= s[2] <= 'Z'
  }

  predicate PathChar(c: char) {
    IsDigit(c) || 'a' <= c <= 'z' || 'A' <= c <= 'Z' || c == '.' || c == '_' || c == '/' || c == '-'
  }

  predicate Path(s: string) {
    |s| > 0 && forall i :: 0 <= i < |s| ==> PathChar(s[i])
  }

  predicate Number(s: string) {
    |s| > 0 && forall i :: 0 <= i < |s| ==> IsDigit(s[i])
  }

  /** Three numbers with dots between them. */
  ghost predicate Release(s: string) {
    exists a, b, c :: Number(a) && Number(b) && Number(c) && s == a + "." + b + "." + c
  }

  /** Names in strict code-point order, so each at most once. */
  ghost predicate Ascending(names: seq<string>) {
    forall i, j :: 0 <= i < j < |names| ==> StringLe(names[i], names[j]) && names[i] != names[j]
  }

  lemma DigestMeaning(s: string)
    ensures IsSha256(s) <==> Digest(s)
  {
    assert forall c <- s :: LowerHex(c) <==> IsDigit(c) || 'a' <= c <= 'f';
  }

  lemma UuidMeaning(s: string)
    ensures IsUuid(s) <==> Uuid(s)
  {
  }

  lemma TagMeaning(s: string)
    ensures EtagOk(s) <==> StorageTag(s)
  {
    if EtagOk(s) {
      forall i | 0 <= i < |s| ensures s[i] as int >= 32 {
        assert s[i] in s;
      }
    }
    if StorageTag(s) {
      forall c | c in s ensures c as int >= 32 {
        var i :| 0 <= i < |s| && s[i] == c;
      }
    }
  }

  lemma CurrencyMeaning(s: string)
    ensures CurrencyOk(s) <==> Currency(s)
  {
    if |s| == 3 {
      assert s == [s[0], s[1], s[2]];
      assert s[0] in s && s[1] in s && s[2] in s;
    }
  }

  lemma PathMeaning(s: string)
    ensures SafePath(s) <==> Path(s)
  {
    assert forall c: char :: Alnum(c) || c in "._/-" <==> PathChar(c);
    if SafePath(s) {
      forall i | 0 <= i < |s| ensures PathChar(s[i]) { }
    }
  }

  lemma ReleaseMeaning(s: string)
    ensures VersionOk(s) <==> Release(s)
  {
    hide Split, Join;
    var parts := Split(s, '.');
    if VersionOk(s) {
      JoinSplit(s, '.');
      var a, b, c := parts[0], parts[1], parts[2];
      assert parts == [a, b, c];
      JoinThree(a, b, c);
      assert Number(a) && Number(b) && Number(c) by {
        assert a in parts && b in parts && c in parts;
        assert forall i :: 0 <= i < |a| ==> Digit(a[i]);
        assert forall i :: 0 <= i < |b| ==> Digit(b[i]);
        assert forall i :: 0 <= i < |c| ==> Digit(c[i]);
      }
    }
    if a, b, c :| Number(a) && Number(b) && Number(c) && s == a + "." + b + "." + c {
      JoinThree(a, b, c);
      SplitOf([a, b, c], '.');
      assert parts == [a, b, c];
    }
  }

  lemma JoinThree(a: string, b: string, c: string)
    ensures Join([a, b, c], '.') == a + "." + b + "." + c
  {
    assert [a, b, c][1..] == [b, c] && [b, c][1..] == [c];
    assert Join([b, c], '.') == b + "." + c;
  }

  lemma {:induction false} AscendingMeaning(names: seq<string>)
    ensures SortedDistinct(names) <==> Ascending(names)
  {
    if SortedDistinct(names) {
      forall i, j | 0 <= i < j < |names| ensures StringLe(names[i], names[j]) && names[i] != names[j] {
        Climbs(names, i, j);
      }
    }
    if Ascending(names) {
      forall i | 0 < i < |names| ensures Before(names[i - 1], names[i]) {
        BeforeMeaning(names[i - 1], names[i]);
      }
    }
  }

  lemma {:induction false} Climbs(names: seq<string>, i: int, j: int)
    requires SortedDistinct(names) && 0 <= i < j < |names|
    ensures StringLe(names[i], names[j]) && names[i] != names[j]
    decreases j
  {
    BeforeMeaning(names[j - 1], names[j]);
    if i < j - 1 {
      Climbs(names, i, j - 1);
      StringTransitive(names[i], names[j - 1], names[j]);
      StringTotal(names[i], names[j - 1]);
    }
  }

  // ---- Bundle, inputs, guardrails -------------------------------------------------------

  /** An opaque tenant container, a canonical artifact path that ends in the bundle's own digest, and
      at most 100 MiB. */
  predicate PlainBundle(b: BundleReference) {
    && |b.container| == 42 && b.container[0] == 't' && b.container[1] == '-'
    && (forall i :: 2 <= i < 42 ==> IsDigit(b.container[i]) || 'a' <= b.container[i] <= 'f')
    && Uuid(b.artifactId) && NoCapitals(b.artifactId)
    && b.version >= 1 && Digest(b.sha256) && b.pathDigest == b.sha256
    && StorageTag(b.etag) && 1 <= b.sizeBytes <= 104_857_600
  }

  lemma BundleMeaning(b: BundleReference)
    ensures BundleOk(b) <==> PlainBundle(b)
  {
    DigestMeaning(b.sha256);
    TagMeaning(b.etag);
    UuidMeaning(b.artifactId);
    hide Digest, StorageTag, Uuid, IsSha256, EtagOk, IsUuid;
    LowerSpells(b.artifactId, b.artifactId);
    assert Spells(b.artifactId, b.artifactId);
    if |b.container| == 42 {
      assert b.container[..2] == [b.container[0], b.container[1]];
      var digits := b.container[2..];
      assert forall i :: 2 <= i < 42 ==> digits[i - 2] == b.container[i];
      assert forall i :: 0 <= i < 40 ==> digits[i] == b.container[i + 2];
      if BundleOk(b) {
        forall i | 2 <= i < 42 ensures IsDigit(b.container[i]) || 'a' <= b.container[i] <= 'f' {
          assert LowerHex(digits[i - 2]);
        }
      }
      if PlainBundle(b) {
        forall c | c in digits ensures LowerHex(c) {
          var i :| 0 <= i < 40 && digits[i] == c;
          assert b.container[i + 2] == c;
        }
      }
    }
  }

  /** A lower-case name of at most 64 characters in which no word for a secret occurs. */
  ghost predicate PlainName(s: string) {
    && 1 <= |s| && |s| <= 64 && 'a' <= s[0] <= 'z'
    && (forall i :: 0 <= i < |s| ==> 'a' <= s[i] <= 'z' || IsDigit(s[i]) || s[i] == '_')
    && !Inside(s, "password") && !Inside(s, "passwd") && !Inside(s, "secret") && !Inside(s, "token")
    && !Inside(s, "authorization") && !Inside(s, "apikey") && !Inside(s, "api_key") && !Inside(s, "connectionstring")
    && !Inside(s, "connection_string") && !Inside(s, "privatekey") && !Inside(s, "private_key") && !Inside(s, "sas")
  }

  lemma SecretMeaning(s: string)
    ensures SecretName(s) <==> exists word <- SECRET_WORDS :: Inside(s, word)
  {
    hide Contains, Inside;
    forall word | word in SECRET_WORDS ensures Contains(s, word) <==> Inside(s, word) {
      ContainsMeaning(s, word);
    }
  }

  lemma NameMeaning(s: string)
    ensures VariableNameOk(s) <==> PlainName(s)
  {
    SecretMeaning(s);
    hide Inside, SecretName;
    assert forall c: char :: Digit(c) <==> IsDigit(c);
  }

  ghost predicate PlainInputs(v: InputVariables) {
    && v.fileName == "zeroops.auto.tfvars.json" && Digest(v.sha256) && |v.definitions| <= 64
    && (forall i :: 0 <= i < |v.definitions| ==>
          PlainName(v.definitions[i].name) && v.definitions[i].kind in {"string", "number", "bool", "list(string)"})
    && (forall i, j :: 0 <= i < j < |v.definitions| ==>
          StringLe(v.definitions[i].name, v.definitions[j].name) && v.definitions[i].name != v.definitions[j].name)
  }

  lemma InputsMeaning(v: InputVariables)
    ensures InputsOk(v) <==> PlainInputs(v)
  {
    hide VariableNameOk, PlainName, Digest, IsSha256, SortedDistinct, StringLe;
    DigestMeaning(v.sha256);
    var names := seq(|v.definitions|, i requires 0 <= i < |v.definitions| => v.definitions[i].name);
    AscendingMeaning(names);
    assert Ascending(names) <==> forall i, j :: 0 <= i < j < |v.definitions| ==>
      StringLe(v.definitions[i].name, v.definitions[j].name) && v.definitions[i].name != v.definitions[j].name by {
      if Ascending(names) {
        forall i, j | 0 <= i < j < |v.definitions|
          ensures StringLe(v.definitions[i].name, v.definitions[j].name) && v.definitions[i].name != v.definitions[j].name {
          assert names[i] == v.definitions[i].name && names[j] == v.definitions[j].name;
        }
      }
    }
    forall i | 0 <= i < |v.definitions| ensures VariableNameOk(v.definitions[i].name) <==> PlainName(v.definitions[i].name) {
      NameMeaning(v.definitions[i].name);
    }
  }

  predicate PlainType(s: string) {
    9 <= |s| <= 104 && s[..8] == "azurerm_" && forall i :: 8 <= i < |s| ==> 'a' <= s[i] <= 'z' || IsDigit(s[i]) || s[i] == '_'
  }

  lemma TypeMeaning(s: string)
    ensures ResourceTypeOk(s) <==> PlainType(s)
  {
    if ResourceTypeOk(s) {
      forall i | 8 <= i < |s| ensures 'a' <= s[i] <= 'z' || IsDigit(s[i]) || s[i] == '_' {
        assert s[8..][i - 8] == s[i] && s[i] in s[8..];
        assert LowerLetter(s[i]) || Digit(s[i]) || s[i] == '_';
      }
    }
    if PlainType(s) {
      forall c | c in s[8..] ensures LowerLetter(c) || Digit(c) || c == '_' {
        var i :| 0 <= i < |s[8..]| && s[8..][i] == c;
        assert s[i + 8] == c;
      }
    }
  }

  predicate GroupNameChar(c: char) {
    IsDigit(c) || 'a' <= c <= 'z' || 'A' <= c <= 'Z' || c == '.' || c == '_' || c == '(' || c == ')' || c == '-'
  }

  predicate PlainGroup(s: string) {
    1 <= |s| && |s| <= 90 && s[|s| - 1] != '.' && forall i :: 0 <= i < |s| ==> GroupNameChar(s[i])
  }

  lemma GroupMeaning(s: string)
    ensures ResourceGroupOk(s) <==> PlainGroup(s)
  {
    assert forall c: char :: Alnum(c) || c in "._()-" <==> GroupNameChar(c);
    if ResourceGroupOk(s) {
      forall i | 0 <= i < |s| ensures GroupNameChar(s[i]) { }
    }
  }

  /** The limits an approval sets: types, three maxima within their own bounds, and a budget with its currency. */
  ghost predicate PlainGuardrails(g: Guardrails) {
    && PlainGroup(g.resourceGroup) && 1 <= |g.allowedTypes| <= 120
    && (forall i :: 0 <= i < |g.allowedTypes| ==> PlainType(g.allowedTypes[i])) && Ascending(g.allowedTypes)
    && 1 <= g.maxChanges <= 500 && 0 <= g.maxDeletes <= 100 && 0 <= g.maxReplaces <= 100
    && g.maxDeletes <= g.maxChanges && g.maxReplaces <= g.maxChanges
    && (g.budget.Some? <==> g.budgetCurrency.Some?)
    && (g.budget.Some? ==> 0 <= g.budget.value <= 1_000_000_000_000_000 && Currency(g.budgetCurrency.value))
    && Digest(g.scopeDigest) && Digest(g.policyDigest)
  }

  lemma GuardrailsMeaning(g: Guardrails)
    ensures GuardrailsOk(g) <==> PlainGuardrails(g)
  {
    GroupMeaning(g.resourceGroup);
    AscendingMeaning(g.allowedTypes);
    DigestMeaning(g.scopeDigest);
    DigestMeaning(g.policyDigest);
    if g.budgetCurrency.Some? { CurrencyMeaning(g.budgetCurrency.value); }
    hide ResourceTypeOk, PlainType, ResourceGroupOk, PlainGroup, IsSha256, Digest, CurrencyOk, Currency, SortedDistinct, Ascending;
    forall i | 0 <= i < |g.allowedTypes| ensures ResourceTypeOk(g.allowedTypes[i]) <==> PlainType(g.allowedTypes[i]) {
      TypeMeaning(g.allowedTypes[i]);
    }
  }

  // ---- Plan, cost, approval -------------------------------------------------------------

  /** A plan blob of this tenant and workflow. */
  ghost predicate PlainPlan(p: SavedPlan, tenant: string, workflow: string) {
    && Path(p.blobName) && (exists rest :: p.blobName == "tenants/" + tenant + "/workflows/" + workflow + "/plans/" + rest)
    && (exists front :: p.blobName == front + ".tfplan") && ".." !in Split(p.blobName, '/')
    && StorageTag(p.etag) && Digest(p.sha256) && Digest(p.planJobDigest) && Digest(p.bundleSha256)
    && Digest(p.inputsSha256) && Digest(p.scopeDigest) && Digest(p.policyDigest)
  }

  lemma PlanMeaning(p: SavedPlan, tenant: string, workflow: string)
    ensures SavedPlanOk(p, tenant, workflow) <==> PlainPlan(p, tenant, workflow)
  {
    PathMeaning(p.blobName);
    var prefix := "tenants/" + tenant + "/workflows/" + workflow + "/plans/";
    StartsWithMeaning(p.blobName, prefix);
    EndsWithMeaning(p.blobName, ".tfplan");
    TagMeaning(p.etag);
    DigestMeaning(p.sha256);
    DigestMeaning(p.planJobDigest);
    DigestMeaning(p.bundleSha256);
    DigestMeaning(p.inputsSha256);
    DigestMeaning(p.scopeDigest);
    DigestMeaning(p.policyDigest);
    hide SafePath, Path, EtagOk, StorageTag, IsSha256, Digest, StartsWith, EndsWith, Split;
    assert PlanPrefix(tenant, workflow) == prefix;
  }

  predicate PlainCost(c: CostEstimate, now: int) {
    Currency(c.currency) && Digest(c.artifactSha256) && 0 <= c.monthlyCost <= 1_000_000_000_000_000 && c.capturedAt - now <= 300
  }

  /** An approval that is not from the future and lives for at most a day. */
  predicate PlainApproval(a: Approval, now: int) {
    && a.decision == "approved" && a.approvedAt - now <= 300 && 0 < a.expiresAt - a.approvedAt <= 24 * 60 * 60
    && Uuid(a.approvalId) && Uuid(a.approvedBy) && Uuid(a.applyJobId)
    && Digest(a.planJobDigest) && Digest(a.planSha256) && StorageTag(a.planEtag) && Digest(a.bundleSha256)
    && Digest(a.inputsSha256) && Digest(a.scopeDigest) && Digest(a.policyDigest) && Digest(a.costSha256)
    && Currency(a.currency) && 0 <= a.monthlyCost <= 1_000_000_000_000_000
  }

  lemma CostMeaning(c: CostEstimate, now: int)
    ensures CostOk(c, now) <==> PlainCost(c, now)
  {
    CurrencyMeaning(c.currency);
    DigestMeaning(c.artifactSha256);
    hide CurrencyOk, Currency, IsSha256, Digest;
  }

  lemma ApprovalMeaning(a: Approval, now: int)
    ensures ApprovalOk(a, now) <==> PlainApproval(a, now)
  {
    CurrencyMeaning(a.currency);
    UuidMeaning(a.approvalId);
    UuidMeaning(a.approvedBy);
    UuidMeaning(a.applyJobId);
    TagMeaning(a.planEtag);
    DigestMeaning(a.planJobDigest);
    DigestMeaning(a.planSha256);
    DigestMeaning(a.bundleSha256);
    DigestMeaning(a.inputsSha256);
    DigestMeaning(a.scopeDigest);
    DigestMeaning(a.policyDigest);
    DigestMeaning(a.costSha256);
    hide CurrencyOk, Currency, IsSha256, Digest, IsUuid, Uuid, EtagOk, StorageTag;
  }

  /** The approval is for this job, for the plan the message names, and for what the message itself
      says: bundle, inputs, scope, policy and cost. */
  ghost predicate SameBusiness(c: Claims, p: SavedPlan, e: CostEstimate, a: Approval) {
    && c.jobId == Lower(a.applyJobId)
    && a.planJobDigest == p.planJobDigest && a.planSha256 == p.sha256 && a.planEtag == p.etag
    && p.bundleSha256 == c.bundle.sha256 && a.bundleSha256 == c.bundle.sha256
    && p.inputsSha256 == c.inputs.sha256 && a.inputsSha256 == c.inputs.sha256
    && p.scopeDigest == c.guardrails.scopeDigest && a.scopeDigest == c.guardrails.scopeDigest
    && p.policyDigest == c.guardrails.policyDigest && a.policyDigest == c.guardrails.policyDigest
    && a.costSha256 == e.artifactSha256 && a.currency == e.currency && a.monthlyCost == e.monthlyCost
    && e.capturedAt <= a.approvedAt
  }

  /** The estimate is in the budget's currency and within its amount. */
  ghost predicate WithinBudget(g: Guardrails, e: CostEstimate) {
    g.budget.Some? ==> g.budgetCurrency == Some(e.currency) && e.monthlyCost <= g.budget.value
  }

  lemma BindingMeaning(c: Claims, p: SavedPlan, e: CostEstimate, a: Approval)
    ensures ApplyBound(c, p, e, a) <==> SameBusiness(c, p, e, a) && WithinBudget(c.guardrails, e)
  {
  }

  // ---- The whole message ----------------------------------------------------------------

  ghost predicate PlainHeader(c: Claims, now: int) {
    && c.schemaVersion == "1.0" && Uuid(c.jobId) && Uuid(c.tenantId) && Uuid(c.projectId) && Uuid(c.userId)
    && Uuid(c.workflowId) && Uuid(c.subscriptionId) && Uuid(c.azureTenantId) && c.revision >= 1
    && c.stateKey == "tenants/" + Lower(c.tenantId) + "/workspaces/" + Lower(c.workflowId) + "/terraform.tfstate"
    && Release(c.terraformVersion) && c.requestedAt - now <= 300
  }

  ghost predicate PlainApply(c: Claims, now: int) {
    && c.savedPlan.Some? && c.cost.Some? && c.approval.Some?
    && PlainPlan(c.savedPlan.value, Lower(c.tenantId), Lower(c.workflowId)) && PlainCost(c.cost.value, now)
    && PlainApproval(c.approval.value, now)
    && SameBusiness(c, c.savedPlan.value, c.cost.value, c.approval.value) && WithinBudget(c.guardrails, c.cost.value)
  }

  /** The characters of a canonical state key. */
  lemma StateKeyIsPath(tenant: string, workflow: string)
    requires Uuid(tenant) && Uuid(workflow)
    ensures Path("tenants/" + Lower(tenant) + "/workspaces/" + Lower(workflow) + "/terraform.tfstate")
  {
    var s := "tenants/" + Lower(tenant) + "/workspaces/" + Lower(workflow) + "/terraform.tfstate";
    UuidChars(tenant);
    UuidChars(workflow);
    hide Uuid, Lower;
    PathJoin("tenants/", Lower(tenant));
    PathJoin("tenants/" + Lower(tenant), "/workspaces/");
    PathJoin("tenants/" + Lower(tenant) + "/workspaces/", Lower(workflow));
    PathJoin("tenants/" + Lower(tenant) + "/workspaces/" + Lower(workflow), "/terraform.tfstate");
  }

  lemma UuidChars(s: string)
    requires Uuid(s)
    ensures Path(Lower(s))
  {
  }

  lemma PathJoin(a: string, b: string)
    requires Path(a) && Path(b)
    ensures Path(a + b)
  {
  }

  lemma HeaderMeaning(c: Claims, now: int)
    ensures PlainHeader(c, now) <==>
              && c.schemaVersion == "1.0" && IsUuid(c.tenantId) && IsUuid(c.workflowId) && 1 <= c.revision
              && c.stateKey == StateKey(Lower(c.tenantId), Lower(c.workflowId)) && SafePath(c.stateKey)
              && VersionOk(c.terraformVersion)
              && IsUuid(c.jobId) && IsUuid(c.projectId) && IsUuid(c.userId)
              && IsUuid(c.subscriptionId) && IsUuid(c.azureTenantId) && NotFuture(c.requestedAt, now)
  {
    UuidMeaning(c.tenantId);
    UuidMeaning(c.workflowId);
    UuidMeaning(c.jobId);
    UuidMeaning(c.projectId);
    UuidMeaning(c.userId);
    UuidMeaning(c.subscriptionId);
    UuidMeaning(c.azureTenantId);
    ReleaseMeaning(c.terraformVersion);
    PathMeaning(c.stateKey);
    hide IsUuid, Uuid, VersionOk, Release, SafePath, Path;
    if Uuid(c.tenantId) && Uuid(c.workflowId) { StateKeyIsPath(c.tenantId, c.workflowId); }
  }

  lemma ApplyMeaning(c: Claims, now: int)
    requires c.savedPlan.Some? && c.cost.Some? && c.approval.Some?
    ensures PlainApply(c, now) <==>
              && SavedPlanOk(c.savedPlan.value, Lower(c.tenantId), Lower(c.workflowId))
              && CostOk(c.cost.value, now) && ApprovalOk(c.approval.value, now)
              && ApplyBound(c, c.savedPlan.value, c.cost.value, c.approval.value)
  {
    PlanMeaning(c.savedPlan.value, Lower(c.tenantId), Lower(c.workflowId));
    CostMeaning(c.cost.value, now);
    ApprovalMeaning(c.approval.value, now);
    BindingMeaning(c, c.savedPlan.value, c.cost.value, c.approval.value);
    hide SavedPlanOk, PlainPlan, CostOk, PlainCost, ApprovalOk, PlainApproval, ApplyBound, SameBusiness, WithinBudget;
  }

  /**
   The exact acceptance condition of a message: its own digest, its header, bundle, inputs and
   guardrails, and either a plan without apply sections or an apply whose plan, cost and approval
   belong to this job and keep within the budget.
   */
  lemma AcceptedExactly(h: Hashes, now: int, p: Payload)
    ensures FromMapping(h, now, p).Ok? <==>
              && Digest(p.jobDigest) && p.jobDigest == h.message(p.claims)
              && PlainHeader(p.claims, now) && PlainBundle(p.claims.bundle) && PlainInputs(p.claims.inputs)
              && PlainGuardrails(p.claims.guardrails)
              && (|| (p.claims.operation == "plan" && p.claims.savedPlan.None? && p.claims.cost.None? && p.claims.approval.None?)
                  || (p.claims.operation == "apply" && PlainApply(p.claims, now)))
  {
    var c := p.claims;
    DigestMeaning(p.jobDigest);
    HeaderMeaning(c, now);
    BundleMeaning(c.bundle);
    InputsMeaning(c.inputs);
    GuardrailsMeaning(c.guardrails);
    if c.savedPlan.Some? && c.cost.Some? && c.approval.Some? { ApplyMeaning(c, now); }
    OperationWords();
    hide PlainHeader, IsUuid, VersionOk, SafePath, BundleOk, PlainBundle, InputsOk, PlainInputs, GuardrailsOk, PlainGuardrails,
      SavedPlanOk, CostOk, ApprovalOk, ApplyBound, IsSha256, Digest, PlainPlan, PlainCost, PlainApproval, SameBusiness,
      WithinBudget, StateKey;
  }

  lemma OperationWords()
    ensures "plan" != "apply"
  {
    assert "plan"[0] == 'p' && "apply"[0] == 'a';
  }

  /** What an accepted message becomes: itself, with its identifiers in lower case. */
  lemma AcceptedRecord(h: Hashes, now: int, p: Payload)
    requires FromMapping(h, now, p).Ok?
    ensures var e := FromMapping(h, now, p).value;
            && e.jobDigest == p.jobDigest && e.raw == p.claims
            && e.claims == p.claims.(jobId := Lower(p.claims.jobId), tenantId := Lower(p.claims.tenantId),
                 projectId := Lower(p.claims.projectId), userId := Lower(p.claims.userId), workflowId := Lower(p.claims.workflowId),
                 subscriptionId := Lower(p.claims.subscriptionId), azureTenantId := Lower(p.claims.azureTenantId),
                 approval := e.claims.approval)
            && (e.claims.approval.Some? <==> p.claims.approval.Some?)
            && (p.claims.approval.Some? ==>
                  e.claims.approval.value == p.claims.approval.value.(approvalId := Lower(p.claims.approval.value.approvalId),
                    approvedBy := Lower(p.claims.approval.value.approvedBy), applyJobId := Lower(p.claims.approval.value.applyJobId)))
  {
    hide Acceptable, Lower;
  }
}
