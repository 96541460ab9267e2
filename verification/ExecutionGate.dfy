/** worker/execution_gate.py: the limits a Terraform plan must stay within before it is saved. */
module ExecutionGate {
  import opened Wrappers
  import opened Text
  import opened Contracts
  import opened PlanSummary
  import opened PlanMeaning

  /** What the gate reads from the envelope. */
  datatype Scope = Scope(subscription: string, guardrails: Guardrails)

  /** Approved input values: whether they hash to the approved digest, and their registry id. */
  datatype Inputs = Inputs(digestMatches: bool, registryId: Option<string>)

  datatype GateError =
    | InputDigestMismatch
    | TooManyChanges
    | TooManyDeletes
    | TooManyReplaces
    | KindOutsideApproval
    | TypeOutsideApproval
    | EscapesGroup
    | EscapesScope
    | ScopeUnproven

  // ---- Scopes ---------------------------------------------------------------------------

  function TargetPrefix(s: Scope): string {
    Lower("/subscriptions/" + s.subscription + "/resourceGroups/" + s.guardrails.resourceGroup)
  }

  /** The code's test: equal to the prefix, or the prefix followed by a slash. */
  predicate Below(s: Scope, normalized: string) {
    normalized == TargetPrefix(s) || StartsWith(normalized, TargetPrefix(s) + "/")
  }

  /** The meaning: the first path segments are those of the approved resource group. */
  predicate InsideGroup(s: Scope, normalized: string) {
    IsPrefix(["", "subscriptions", Lower(s.subscription), "resourcegroups", Lower(s.guardrails.resourceGroup)],
             Split(normalized, '/'))
  }

  lemma LowerConcat(a: string, b: string)
    ensures Lower(a + b) == Lower(a) + Lower(b)
  {
  }

  lemma {:induction false} SplitWhole(s: string, sep: char)
    requires sep !in s
    ensures Split(s, sep) == [s]
  {
    if s != [] {
      SplitWhole(s[1..], sep);
      assert s == [s[0]] + s[1..];
    }
  }

  lemma LowerFree(s: string)
    requires '/' !in s
    ensures '/' !in Lower(s)
  {
  }

  lemma TargetSegments(s: Scope)
    requires '/' !in s.subscription && '/' !in s.guardrails.resourceGroup
    ensures Split(TargetPrefix(s), '/') ==
              ["", "subscriptions", Lower(s.subscription), "resourcegroups", Lower(s.guardrails.resourceGroup)]
  {
    hide Split;
    var sub, rg := Lower(s.subscription), Lower(s.guardrails.resourceGroup);
    LowerFree(s.subscription);
    LowerFree(s.guardrails.resourceGroup);
    PrefixText(s);
    var a := "" + ['/'] + "subscriptions";
    var b := a + ['/'] + sub;
    var c := b + ['/'] + "resourcegroups";
    SplitWhole("", '/');
    SplitWhole("subscriptions", '/');
    SplitWhole(sub, '/');
    SplitWhole("resourcegroups", '/');
    SplitWhole(rg, '/');
    SplitAppend("", "subscriptions", '/');
    SplitAppend(a, sub, '/');
    SplitAppend(b, "resourcegroups", '/');
    SplitAppend(c, rg, '/');
  }

  lemma PrefixText(s: Scope)
    ensures TargetPrefix(s) == "" + ['/'] + "subscriptions" + ['/'] + Lower(s.subscription)
                               + ['/'] + "resourcegroups" + ['/'] + Lower(s.guardrails.resourceGroup)
  {
    hide Lower;
    var sub, rg := s.subscription, s.guardrails.resourceGroup;
    LowerConcat("/subscriptions/", sub);
    LowerConcat("/subscriptions/" + sub, "/resourceGroups/");
    LowerConcat("/subscriptions/" + sub + "/resourceGroups/", rg);
    LowerLiterals();
    assert TargetPrefix(s) == "/subscriptions/" + Lower(sub) + "/resourcegroups/" + Lower(rg);
    assert "/resourcegroups/" == ['/'] + "resourcegroups" + ['/'];
    assert "/subscriptions/" == "" + ['/'] + "subscriptions" + ['/'];
  }

  lemma LowerLiterals()
    ensures Lower("/subscriptions/") == "/subscriptions/"
    ensures Lower("/resourceGroups/") == "/resourcegroups/"
  {
  }

  /** The textual test is containment by whole segments. */
  lemma BelowIsInside(s: Scope, normalized: string)
    requires '/' !in s.subscription && '/' !in s.guardrails.resourceGroup
    ensures Below(s, normalized) <==> InsideGroup(s, normalized)
  {
    TargetSegments(s);
    SegmentPrefix(TargetPrefix(s), normalized, '/');
    assert TargetPrefix(s) + "/" == TargetPrefix(s) + ['/'];
  }

  function Normalize(scope: string): string {
    Lower(RStrip(scope, '/'))
  }

  predicate GroupChar(c: char) { Alnum(c) || c in "._()-" }

  /** The registry pattern, case folded: one registry in some group of the target subscription. */
  predicate RegistryPattern(s: Scope, id: string) {
    var parts := Split(Lower(id), '/');
    && |parts| == 9
    && parts[..4] == ["", "subscriptions", Lower(s.subscription), "resourcegroups"]
    && parts[4] != [] && (forall c <- parts[4] :: GroupChar(c))
    && parts[5..8] == ["providers", "microsoft.containerregistry", "registries"]
    && parts[8] != [] && (forall c <- parts[8] :: Alnum(c))
  }

  function RegistryScope(s: Scope, inputs: Option<Inputs>): Option<string> {
    if inputs.Some? && inputs.value.registryId.Some? && RegistryPattern(s, inputs.value.registryId.value)
    then Some(Lower(inputs.value.registryId.value)) else None
  }

  // ---- The one shared-registry exception ------------------------------------------------

  predicate NewApplication(c: Change) {
    c.Change? && c.kind == Some("azurerm_linux_web_app") && c.actions == Some(["create"])
  }

  function Applications(cs: seq<Change>): seq<Change> {
    if cs == [] then [] else (if NewApplication(cs[0]) then [cs[0]] else []) + Applications(cs[1..])
  }

  function FindResource(rs: seq<Resource>, address: Option<string>): Option<Resource> {
    if rs == [] then None else if rs[0].address == address then Some(rs[0]) else FindResource(rs[1..], address)
  }

  /** An entry that is not an object would raise, so it can never lead to an accepted grant. */
  predicate ApplicationIdentityGrant(doc: Document, c: Change)
    requires c.Change?
  {
    var resource := FindResource(doc.configuration, c.address);
    && resource.Some?
    && resource.value.references != [] && !resource.value.constant
    && (forall e <- doc.changes :: e.Change?)
    && var apps := Applications(doc.changes);
       && |apps| == 1 && apps[0].Change?
       && var address := apps[0].address.GetOr("");
          && address != ""
          && (forall r <- resource.value.references ::
                r in [address, address + ".identity", address + ".identity[0]", address + ".identity[0].principal_id"])
          && (exists r <- resource.value.references :: StartsWith(r, address + ".identity"))
  }

  /** The grant is for the identity of the plan's only new application, by reference and never by a constant. */
  lemma GrantNamesTheNewApplication(doc: Document, c: Change)
    requires c.Change? && ApplicationIdentityGrant(doc, c)
    ensures exists k :: 0 <= k < |doc.changes| && NewApplication(doc.changes[k])
              && (forall j :: 0 <= j < |doc.changes| && NewApplication(doc.changes[j]) ==> j == k)
              && doc.changes[k].address.Some?
              && forall r <- FindResource(doc.configuration, c.address).value.references ::
                   StartsWith(r, doc.changes[k].address.value)
  {
    SingleApplication(doc.changes);
    var k :| 0 <= k < |doc.changes| && NewApplication(doc.changes[k]) && doc.changes[k] == Applications(doc.changes)[0]
      && (forall j :: 0 <= j < |doc.changes| && NewApplication(doc.changes[j]) ==> j == k);
    var address := doc.changes[k].address.value;
    forall r | r in FindResource(doc.configuration, c.address).value.references ensures StartsWith(r, address) {
      assert r in [address, address + ".identity", address + ".identity[0]", address + ".identity[0].principal_id"];
    }
  }

  lemma {:induction false} NoApplication(cs: seq<Change>)
    requires Applications(cs) == []
    ensures forall j :: 0 <= j < |cs| ==> !NewApplication(cs[j])
  {
    if cs != [] { NoApplication(cs[1..]); }
  }

  lemma {:induction false} SingleApplication(cs: seq<Change>)
    requires |Applications(cs)| == 1
    ensures exists k :: 0 <= k < |cs| && NewApplication(cs[k]) && cs[k] == Applications(cs)[0]
              && forall j :: 0 <= j < |cs| && NewApplication(cs[j]) ==> j == k
  {
    if NewApplication(cs[0]) {
      NoApplication(cs[1..]);
      assert forall j :: 0 <= j < |cs| && NewApplication(cs[j]) ==> j == 0;
    } else {
      SingleApplication(cs[1..]);
      var k :| 0 <= k < |cs[1..]| && NewApplication(cs[1..][k]) && cs[1..][k] == Applications(cs[1..])[0]
        && forall j :: 0 <= j < |cs[1..]| && NewApplication(cs[1..][j]) ==> j == k;
      forall j | 0 <= j < |cs| && NewApplication(cs[j]) ensures j == k + 1 {
        assert cs[1..][j - 1] == cs[j];
      }
    }
  }

  predicate SharedRegistryPull(doc: Document, c: Change, body: Body, registry: Option<string>)
    requires c.Change? && "scope" in body.text
  {
    && c.kind == Some("azurerm_role_assignment")
    && registry.Some?
    && Normalize(body.text["scope"]) == registry.value
    && "role_definition_name" in body.text && body.text["role_definition_name"] == "AcrPull"
    && !body.condition
    && c.actions == Some(["create"])
    && ApplicationIdentityGrant(doc, c)
  }

  // ---- What acceptance means ------------------------------------------------------------

  predicate ScopeOk(s: Scope, doc: Document, c: Change, body: Body, registry: Option<string>)
    requires c.Change?
  {
    "scope" in body.text ==>
      InsideGroup(s, Normalize(body.text["scope"])) || SharedRegistryPull(doc, c, body, registry)
  }

  predicate GroupOk(s: Scope, c: Change, body: Body)
    requires c.Change?
  {
    && ("resource_group_name" in body.text ==> Lower(body.text["resource_group_name"]) == Lower(s.guardrails.resourceGroup))
    && (c.kind == Some("azurerm_resource_group") && "name" in body.text ==>
          Lower(body.text["name"]) == Lower(s.guardrails.resourceGroup))
  }

  predicate IdKey(key: string) {
    key == "id" || EndsWith(key, "_id")
  }

  /** Something in the body places the resource: its group, its scope, an id inside the group, or its own name. */
  predicate Placed(s: Scope, c: Change, body: Body)
    requires c.Change?
  {
    || "resource_group_name" in body.text
    || "scope" in body.text
    || (exists key <- body.text.Keys :: IdKey(key) && InsideGroup(s, Lower(body.text[key])))
    || (c.kind == Some("azurerm_resource_group") && "name" in body.text)
  }

  function Bodies(c: Change): seq<Body>
    requires c.Change?
  {
    (if c.after.Some? then [c.after.value] else []) + (if c.before.Some? then [c.before.value] else [])
  }

  predicate Managed(c: Change) {
    c.Change? && c.mode.GetOr("managed") == "managed"
    && c.actions != Some(["read"]) && c.actions != Some(["no-op"])
  }

  predicate ChangeOk(s: Scope, doc: Document, c: Change, registry: Option<string>)
    requires c.Change?
  {
    && c.kind.Some? && c.kind.value in s.guardrails.allowedTypes
    && (forall body <- Bodies(c) :: GroupOk(s, c, body) && ScopeOk(s, doc, c, body, registry))
    && (exists body <- Bodies(c) :: Placed(s, c, body))
  }

  predicate WithinLimits(g: Guardrails, n: Counts) {
    && n.create + n.update + n.delete + n.replace <= g.maxChanges
    && n.delete <= g.maxDeletes
    && n.replace <= g.maxReplaces
  }

  ghost predicate Accepts(s: Scope, doc: Document, inputs: Option<Inputs>) {
    && (inputs.Some? ==> inputs.value.digestMatches)
    && WithinLimits(s.guardrails, CountTags(multiset(Tags(doc.changes))))
    && (forall kind <- Kinds(doc.changes) :: kind in s.guardrails.allowedTypes)
    && (forall c <- doc.changes :: Managed(c) ==> ChangeOk(s, doc, c, RegistryScope(s, inputs)))
  }

  // ---- The gate itself ------------------------------------------------------------------

  /** Looks through one body's string attributes for an id inside the group. */
  method HasPlacingId(s: Scope, body: Body) returns (found: bool)
    requires '/' !in s.subscription && '/' !in s.guardrails.resourceGroup
    ensures found <==> exists key <- body.text.Keys :: IdKey(key) && InsideGroup(s, Lower(body.text[key]))
  {
    hide Below, InsideGroup;
    found := false;
    var rest := body.text.Keys;
    while rest != {}
      invariant rest <= body.text.Keys
      invariant found <==> exists key <- body.text.Keys - rest :: IdKey(key) && InsideGroup(s, Lower(body.text[key]))
      decreases rest
    {
      var key :| key in rest;
      BelowIsInside(s, Lower(body.text[key]));
      if IdKey(key) && Below(s, Lower(body.text[key])) {
        found := true;
      }
      rest := rest - {key};
    }
  }

  /** One body of one change: refused, or accepted with or without evidence of its place. */
  method CheckBody(s: Scope, doc: Document, c: Change, body: Body, registry: Option<string>)
    returns (r: Result<bool, GateError>)
    requires c.Change? && '/' !in s.subscription && '/' !in s.guardrails.resourceGroup
    ensures r.Ok? <==> GroupOk(s, c, body) && ScopeOk(s, doc, c, body, registry)
    ensures r.Ok? ==> (r.value <==> Placed(s, c, body))
  {
    hide Below, InsideGroup, SharedRegistryPull;
    var scoped := false;
    if "resource_group_name" in body.text {
      if Lower(body.text["resource_group_name"]) != Lower(s.guardrails.resourceGroup) {
        return Err(EscapesGroup);
      }
      scoped := true;
    }
    if "scope" in body.text {
      var normalized := Normalize(body.text["scope"]);
      BelowIsInside(s, normalized);
      if !(Below(s, normalized) || SharedRegistryPull(doc, c, body, registry)) {
        return Err(EscapesScope);
      }
      scoped := true;
    }
    var placed := HasPlacingId(s, body);
    if placed {
      scoped := true;
    }
    if c.kind == Some("azurerm_resource_group") && "name" in body.text {
      if Lower(body.text["name"]) != Lower(s.guardrails.resourceGroup) {
        return Err(EscapesGroup);
      }
      scoped := true;
    }
    return Ok(scoped);
  }

  method CheckChange(s: Scope, doc: Document, c: Change, registry: Option<string>) returns (r: Result<(), GateError>)
    requires c.Change? && '/' !in s.subscription && '/' !in s.guardrails.resourceGroup
    ensures r.Ok? <==> ChangeOk(s, doc, c, registry)
  {
    hide GroupOk, ScopeOk, Placed;
    if c.kind.None? || c.kind.value !in s.guardrails.allowedTypes {
      return Err(TypeOutsideApproval);
    }
    var bodies := Bodies(c);
    var scoped := false;
    for i := 0 to |bodies|
      invariant forall j :: 0 <= j < i ==> GroupOk(s, c, bodies[j]) && ScopeOk(s, doc, c, bodies[j], registry)
      invariant scoped <==> exists j :: 0 <= j < i && Placed(s, c, bodies[j])
    {
      var checked := CheckBody(s, doc, c, bodies[i], registry);
      if checked.Err? {
        assert bodies[i] in bodies;
        return Err(checked.error);
      }
      scoped := scoped || checked.value;
    }
    if !scoped {
      return Err(ScopeUnproven);
    }
    return Ok(());
  }

  method ValidatePlanGuardrails(s: Scope, doc: Document, inputs: Option<Inputs>)
    returns (r: Result<Summary, GateError>)
    requires '/' !in s.subscription && '/' !in s.guardrails.resourceGroup
    ensures r.Ok? <==> Accepts(s, doc, inputs)
    ensures r.Ok? ==> Summarizes(r.value, doc)
  {
    hide ChangeOk, Kinds, CountTags, Tags, RegistryScope;
    if inputs.Some? && !inputs.value.digestMatches {
      return Err(InputDigestMismatch);
    }
    var registry := RegistryScope(s, inputs);
    var summary := SummarizePlanJson(doc);
    var n, g := summary.actions, s.guardrails;
    if n.create + n.update + n.delete + n.replace > g.maxChanges {
      return Err(TooManyChanges);
    }
    if n.delete > g.maxDeletes {
      return Err(TooManyDeletes);
    }
    if n.replace > g.maxReplaces {
      return Err(TooManyReplaces);
    }
    if exists kind <- summary.kinds :: kind !in g.allowedTypes {
      return Err(KindOutsideApproval);
    }
    for i := 0 to |doc.changes|
      invariant forall j :: 0 <= j < i && Managed(doc.changes[j]) ==> ChangeOk(s, doc, doc.changes[j], registry)
    {
      if Managed(doc.changes[i]) {
        var checked := CheckChange(s, doc, doc.changes[i], registry);
        if checked.Err? {
          assert doc.changes[i] in doc.changes;
          return Err(checked.error);
        }
      }
    }
    return Ok(summary);
  }

  // ---- Laws -----------------------------------------------------------------------------

  /** Larger maxima, more types, the same group. */
  predicate Loosens(g: Guardrails, looser: Guardrails) {
    && looser.resourceGroup == g.resourceGroup
    && (forall t <- g.allowedTypes :: t in looser.allowedTypes)
    && g.maxChanges <= looser.maxChanges && g.maxDeletes <= looser.maxDeletes && g.maxReplaces <= looser.maxReplaces
  }

  lemma LooserChangeOk(s: Scope, t: Scope, doc: Document, c: Change, registry: Option<string>)
    requires t.subscription == s.subscription && Loosens(s.guardrails, t.guardrails)
    requires c.Change? && ChangeOk(s, doc, c, registry)
    ensures ChangeOk(t, doc, c, registry)
  {
    hide SharedRegistryPull;
    forall body | body in Bodies(c) ensures GroupOk(t, c, body) && ScopeOk(t, doc, c, body, registry) {
      assert GroupOk(s, c, body) && ScopeOk(s, doc, c, body, registry);
    }
    var body :| body in Bodies(c) && Placed(s, c, body);
    assert Placed(t, c, body);
  }

  /** Loosening the limits never turns an accepted plan away. */
  lemma LooserAccepts(s: Scope, t: Scope, doc: Document, inputs: Option<Inputs>)
    requires t.subscription == s.subscription && Loosens(s.guardrails, t.guardrails)
    requires Accepts(s, doc, inputs)
    ensures Accepts(t, doc, inputs)
  {
    hide ChangeOk, Kinds, CountTags, Tags;
    assert RegistryScope(s, inputs) == RegistryScope(t, inputs);
    forall c | c in doc.changes && Managed(c) ensures ChangeOk(t, doc, c, RegistryScope(t, inputs)) {
      LooserChangeOk(s, t, doc, c, RegistryScope(s, inputs));
    }
  }

  /** What an accepted plan may do through one body of one managed change. */
  lemma AcceptedEffects(s: Scope, doc: Document, inputs: Option<Inputs>, c: Change, body: Body)
    requires Accepts(s, doc, inputs) && c in doc.changes && Managed(c) && body in Bodies(c)
    ensures c.kind.Some? && c.kind.value in s.guardrails.allowedTypes
    ensures "resource_group_name" in body.text ==>
              Lower(body.text["resource_group_name"]) == Lower(s.guardrails.resourceGroup)
    ensures c.kind == Some("azurerm_resource_group") && "name" in body.text ==>
              Lower(body.text["name"]) == Lower(s.guardrails.resourceGroup)
    ensures "scope" in body.text && !InsideGroup(s, Normalize(body.text["scope"])) ==>
              && c.kind == Some("azurerm_role_assignment") && c.actions == Some(["create"])
              && "role_definition_name" in body.text && body.text["role_definition_name"] == "AcrPull"
              && RegistryScope(s, inputs) == Some(Normalize(body.text["scope"]))
              && exists k :: 0 <= k < |doc.changes| && NewApplication(doc.changes[k])
                   && (forall j :: 0 <= j < |doc.changes| && NewApplication(doc.changes[j]) ==> j == k)
                   && doc.changes[k].address.Some?
                   && forall r <- FindResource(doc.configuration, c.address).value.references ::
                        StartsWith(r, doc.changes[k].address.value)
  {
    hide ApplicationIdentityGrant, InsideGroup, Kinds, CountTags, Tags;
    var registry := RegistryScope(s, inputs);
    assert ChangeOk(s, doc, c, registry);
    assert ScopeOk(s, doc, c, body, registry) && GroupOk(s, c, body);
    if "scope" in body.text && !InsideGroup(s, Normalize(body.text["scope"])) {
      assert SharedRegistryPull(doc, c, body, registry);
      GrantHasResource(doc, c);
      GrantNamesTheNewApplication(doc, c);
    }
  }

  /** The positions of an accepted plan, by the action lists they carry, are within the approved maxima. */
  lemma AcceptedCounts(s: Scope, doc: Document, inputs: Option<Inputs>)
    requires Accepts(s, doc, inputs)
    ensures |Listing(doc.changes, ["delete"])| <= s.guardrails.maxDeletes
    ensures |Listing(doc.changes, ["delete", "create"]) + Listing(doc.changes, ["create", "delete"])| <= s.guardrails.maxReplaces
    ensures |Listing(doc.changes, ["create"])| + |Listing(doc.changes, ["update"])| + |Listing(doc.changes, ["delete"])|
            + |Listing(doc.changes, ["delete", "create"]) + Listing(doc.changes, ["create", "delete"])| <= s.guardrails.maxChanges
  {
    hide Tags, Kinds, ChangeOk, Managed, RegistryScope, Listing;
    TagCounts(doc.changes);
    var a, b := Listing(doc.changes, ["delete", "create"]), Listing(doc.changes, ["create", "delete"]);
    assert |a + b| == |a| + |b| - |a * b|;
  }

  lemma GrantHasResource(doc: Document, c: Change)
    requires c.Change? && ApplicationIdentityGrant(doc, c)
    ensures FindResource(doc.configuration, c.address).Some?
  {
  }
}
