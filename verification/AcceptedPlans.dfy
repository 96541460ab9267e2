/** Which plans the guardrails accept: the exact condition, in the words of the plan itself. */
module AcceptedPlans {
  import opened Wrappers
  import opened Text
  import opened Contracts
  import opened PlanSummary
  import opened PlanMeaning
  import opened ExecutionGate
  import opened TextMeaning

  // ---- Places ---------------------------------------------------------------------------

  /** The approved resource group as a path, in lower case. */
  function GroupPath(s: Scope): string {
    "/subscriptions/" + Lower(s.subscription) + "/resourcegroups/" + Lower(s.guardrails.resourceGroup)
  }

  /** The group itself, or something under it. */
  ghost predicate Under(s: Scope, path: string) {
    path == GroupPath(s) || exists rest :: path == GroupPath(s) + "/" + rest
  }

  lemma GroupText(s: Scope)
    ensures GroupPath(s) == TargetPrefix(s)
  {
    hide Lower;
    var sub, rg := s.subscription, s.guardrails.resourceGroup;
    LowerConcat("/subscriptions/", sub);
    LowerConcat("/subscriptions/" + sub, "/resourceGroups/");
    LowerConcat("/subscriptions/" + sub + "/resourceGroups/", rg);
    LowerLiterals();
  }

  lemma UnderIsInside(s: Scope, path: string)
    requires '/' !in s.subscription && '/' !in s.guardrails.resourceGroup
    ensures Under(s, path) <==> InsideGroup(s, path)
  {
    GroupText(s);
    BelowIsInside(s, path);
    hide GroupPath, TargetPrefix, InsideGroup, StartsWith;
    StartsWithMeaning(path, TargetPrefix(s) + "/");
  }

  /** A scope as it is compared: without trailing slashes, in lower case. */
  function Place(scope: string): string {
    Lower(RStrip(scope, '/'))
  }

  /** One registry in some group of the approved subscription. */
  predicate RegistryAt(s: Scope, id: string, group: string, name: string) {
    && Lower(id) == "/" + "subscriptions" + "/" + Lower(s.subscription) + "/" + "resourcegroups" + "/" + group
                    + "/" + "providers" + "/" + "microsoft.containerregistry" + "/" + "registries" + "/" + name
    && group != "" && (forall i :: 0 <= i < |group| ==> LowerOrDigit(group[i]) || 'A' <= group[i] <= 'Z' || group[i] in ".()-")
    && name != "" && (forall i :: 0 <= i < |name| ==> 'a' <= name[i] <= 'z' || 'A' <= name[i] <= 'Z' || '0' <= name[i] <= '9')
  }

  ghost predicate IsRegistry(s: Scope, id: string) {
    exists group, name :: RegistryAt(s, id, group, name)
  }

  /** The nine segments of a registry id, one after the other. */
  lemma JoinNine(a: string, b: string, c: string, d: string, e: string, f: string, g: string, h: string, i: string)
    ensures Join([a, b, c, d, e, f, g, h, i], '/')
         == a + "/" + b + "/" + c + "/" + d + "/" + e + "/" + f + "/" + g + "/" + h + "/" + i
  {
    JoinLast([a], b);
    JoinLast([a, b], c);
    JoinLast([a, b, c], d);
    JoinLast([a, b, c, d], e);
    JoinLast([a, b, c, d, e], f);
    JoinLast([a, b, c, d, e, f], g);
    JoinLast([a, b, c, d, e, f, g], h);
    JoinLast([a, b, c, d, e, f, g, h], i);
    hide Join;
    assert [a] + [b] == [a, b] && [a, b] + [c] == [a, b, c] && [a, b, c] + [d] == [a, b, c, d];
    assert [a, b, c, d] + [e] == [a, b, c, d, e] && [a, b, c, d, e] + [f] == [a, b, c, d, e, f];
    assert [a, b, c, d, e, f] + [g] == [a, b, c, d, e, f, g] && [a, b, c, d, e, f, g] + [h] == [a, b, c, d, e, f, g, h];
    assert [a, b, c, d, e, f, g, h] + [i] == [a, b, c, d, e, f, g, h, i];
  }

  lemma JoinLast(parts: seq<string>, last: string)
    requires parts != []
    ensures Join(parts + [last], '/') == Join(parts, '/') + "/" + last
    ensures Join([parts[0]], '/') == parts[0]
  {
    JoinAppend(parts, [last], '/');
  }

  lemma RegistryMeaning(s: Scope, id: string)
    requires '/' !in s.subscription
    ensures RegistryPattern(s, id) <==> IsRegistry(s, id)
  {
    if RegistryPattern(s, id) {
      PatternIsRegistry(s, id);
    }
    if group, name :| RegistryAt(s, id, group, name) {
      RegistryIsPattern(s, id, group, name);
    }
  }

  lemma NineText(s: Scope, group: string, name: string)
    ensures Join(["", "subscriptions", Lower(s.subscription), "resourcegroups", group, "providers",
                  "microsoft.containerregistry", "registries", name], '/')
         == "/" + "subscriptions" + "/" + Lower(s.subscription) + "/" + "resourcegroups" + "/" + group
            + "/" + "providers" + "/" + "microsoft.containerregistry" + "/" + "registries" + "/" + name
  {
    hide *;
    JoinNine("", "subscriptions", Lower(s.subscription), "resourcegroups", group, "providers",
      "microsoft.containerregistry", "registries", name);
    assert "" + "/" == "/";
  }

  lemma PatternIsRegistry(s: Scope, id: string)
    requires RegistryPattern(s, id)
    ensures IsRegistry(s, id)
  {
    hide Split, Join, Lower;
    var parts := Split(Lower(id), '/');
    JoinSplit(Lower(id), '/');
    var group, name := parts[4], parts[8];
    assert parts == parts[..4] + [parts[4]] + parts[5..8] + [parts[8]];
    assert parts == ["", "subscriptions", Lower(s.subscription), "resourcegroups", group, "providers",
                     "microsoft.containerregistry", "registries", name];
    NineText(s, group, name);
    forall i | 0 <= i < |group| ensures LowerOrDigit(group[i]) || 'A' <= group[i] <= 'Z' || group[i] in ".()-" {
      assert GroupChar(group[i]);
    }
    forall i | 0 <= i < |name| ensures 'a' <= name[i] <= 'z' || 'A' <= name[i] <= 'Z' || '0' <= name[i] <= '9' {
      assert Alnum(name[i]);
    }
    assert RegistryAt(s, id, group, name);
  }

  lemma RegistryIsPattern(s: Scope, id: string, group: string, name: string)
    requires '/' !in s.subscription && RegistryAt(s, id, group, name)
    ensures RegistryPattern(s, id)
  {
    hide Split, Join, Lower;
    LowerFree(s.subscription);
    NineText(s, group, name);
    var parts := ["", "subscriptions", Lower(s.subscription), "resourcegroups", group, "providers",
                  "microsoft.containerregistry", "registries", name];
    assert forall c <- group :: GroupChar(c);
    assert forall c <- name :: Alnum(c);
    SplitOf(parts, '/');
  }

  // ---- The one grant outside the group --------------------------------------------------

  /** The four ways to refer to the identity of an application. */
  predicate RefersTo(reference: string, address: string) {
    reference == address || reference == address + ".identity" || reference == address + ".identity[0]"
    || reference == address + ".identity[0].principal_id"
  }

  /** Resource `i` is the first one configured under this address. */
  predicate ConfiguredAt(doc: Document, address: Option<string>, i: int) {
    0 <= i < |doc.configuration| && doc.configuration[i].address == address
    && forall j :: 0 <= j < i ==> doc.configuration[j].address != address
  }

  predicate IsNewApplication(c: Change) {
    c.Change? && c.kind == Some("azurerm_linux_web_app") && c.actions == Some(["create"])
  }

  /** Entry `k` is the only new application of the plan. */
  predicate OnlyApplicationAt(doc: Document, k: int) {
    0 <= k < |doc.changes| && IsNewApplication(doc.changes[k])
    && forall j :: 0 <= j < |doc.changes| && j != k ==> doc.changes[j].Change? && !IsNewApplication(doc.changes[j])
  }

  /** Its principal is named by references only, all to the only new application, one to its identity. */
  ghost predicate GrantedTo(doc: Document, c: Change, i: int, k: int)
    requires c.Change?
  {
    && ConfiguredAt(doc, c.address, i) && OnlyApplicationAt(doc, k)
    && doc.changes[k].address.Some? && doc.changes[k].address != Some("")
    && !doc.configuration[i].constant && doc.configuration[i].references != []
    && (forall r <- doc.configuration[i].references :: RefersTo(r, doc.changes[k].address.value))
    && (exists r <- doc.configuration[i].references :: r != doc.changes[k].address.value)
  }

  lemma {:induction false} FoundFirst(rs: seq<Resource>, address: Option<string>)
    ensures match FindResource(rs, address)
            case Some(r) => exists i :: 0 <= i < |rs| && rs[i] == r && r.address == address && forall j :: 0 <= j < i ==> rs[j].address != address
            case None => forall j :: 0 <= j < |rs| ==> rs[j].address != address
  {
    if rs != [] && rs[0].address != address {
      FoundFirst(rs[1..], address);
      if FindResource(rs[1..], address).Some? {
        var i :| 0 <= i < |rs[1..]| && rs[1..][i] == FindResource(rs[1..], address).value
                 && rs[1..][i].address == address && forall j :: 0 <= j < i ==> rs[1..][j].address != address;
        forall j | 0 <= j < i + 1 ensures rs[j].address != address {
          if j > 0 { assert rs[j] == rs[1..][j - 1]; }
        }
        assert rs[i + 1] == rs[1..][i];
      } else {
        forall j | 0 <= j < |rs| ensures rs[j].address != address {
          if j > 0 { assert rs[j] == rs[1..][j - 1]; }
        }
      }
    }
  }

  lemma {:induction false} NoneListed(cs: seq<Change>)
    requires forall j :: 0 <= j < |cs| ==> !NewApplication(cs[j])
    ensures Applications(cs) == []
  {
    if cs != [] { NoneListed(cs[1..]); }
  }

  lemma {:induction false} OneListed(cs: seq<Change>, k: int)
    requires 0 <= k < |cs| && NewApplication(cs[k])
    requires forall j :: 0 <= j < |cs| && j != k ==> !NewApplication(cs[j])
    ensures Applications(cs) == [cs[k]]
  {
    if k == 0 {
      NoneListed(cs[1..]);
    } else {
      OneListed(cs[1..], k - 1);
    }
  }

  lemma ReferenceForms(r: string, address: string)
    ensures RefersTo(r, address) <==>
              r in [address, address + ".identity", address + ".identity[0]", address + ".identity[0].principal_id"]
    ensures RefersTo(r, address) ==> (StartsWith(r, address + ".identity") <==> r != address)
  {
    assert (address + ".identity[0]") == (address + ".identity") + "[0]";
    assert (address + ".identity[0].principal_id") == (address + ".identity") + "[0].principal_id";
    assert |address + ".identity"| > |address|;
  }

  lemma GrantMeaning(doc: Document, c: Change)
    requires c.Change?
    ensures ApplicationIdentityGrant(doc, c) <==> exists i, k :: GrantedTo(doc, c, i, k)
  {
    if ApplicationIdentityGrant(doc, c) {
      GrantIsGranted(doc, c);
    }
    if i, k :| GrantedTo(doc, c, i, k) {
      GrantedIsGrant(doc, c, i, k);
    }
  }

  lemma GrantIsGranted(doc: Document, c: Change)
    requires c.Change? && ApplicationIdentityGrant(doc, c)
    ensures exists i, k :: GrantedTo(doc, c, i, k)
  {
    hide RefersTo, FindResource;
    FoundFirst(doc.configuration, c.address);
    var resource := FindResource(doc.configuration, c.address).value;
    var i :| 0 <= i < |doc.configuration| && doc.configuration[i] == resource && resource.address == c.address
             && forall j :: 0 <= j < i ==> doc.configuration[j].address != c.address;
    SingleApplication(doc.changes);
    var k :| 0 <= k < |doc.changes| && NewApplication(doc.changes[k]) && doc.changes[k] == Applications(doc.changes)[0]
      && forall j :: 0 <= j < |doc.changes| && NewApplication(doc.changes[j]) ==> j == k;
    var address := doc.changes[k].address.GetOr("");
    forall r | r in resource.references
      ensures RefersTo(r, address) && (StartsWith(r, address + ".identity") <==> r != address) {
      ReferenceForms(r, address);
    }
    assert GrantedTo(doc, c, i, k);
  }

  lemma GrantedIsGrant(doc: Document, c: Change, i: int, k: int)
    requires c.Change? && GrantedTo(doc, c, i, k)
    ensures ApplicationIdentityGrant(doc, c)
  {
    hide RefersTo, FindResource;
    FoundFirst(doc.configuration, c.address);
    OneListed(doc.changes, k);
    var address := doc.changes[k].address.value;
    var resource := FindResource(doc.configuration, c.address).value;
    assert resource == doc.configuration[i];
    forall r | r in resource.references
      ensures r in [address, address + ".identity", address + ".identity[0]", address + ".identity[0].principal_id"]
      ensures StartsWith(r, address + ".identity") <==> r != address {
      ReferenceForms(r, address);
    }
  }

  /** A pull permission on the approved registry for the identity of the plan's only new application. */
  ghost predicate PullGrant(s: Scope, doc: Document, inputs: Option<Inputs>, c: Change, body: Body)
    requires c.Change?
  {
    && inputs.Some? && inputs.value.registryId.Some? && IsRegistry(s, inputs.value.registryId.value)
    && "scope" in body.text && Place(body.text["scope"]) == Lower(inputs.value.registryId.value)
    && "role_definition_name" in body.text && body.text["role_definition_name"] == "AcrPull" && !body.condition
    && c.kind == Some("azurerm_role_assignment") && c.actions == Some(["create"])
    && exists i, k :: GrantedTo(doc, c, i, k)
  }

  // ---- Acceptance -----------------------------------------------------------------------

  /** Nothing in the body points outside the approved group, apart from that grant. */
  ghost predicate StaysInside(s: Scope, doc: Document, inputs: Option<Inputs>, c: Change, body: Body)
    requires c.Change?
  {
    && ("resource_group_name" in body.text ==> Lower(body.text["resource_group_name"]) == Lower(s.guardrails.resourceGroup))
    && ("scope" in body.text ==> Under(s, Place(body.text["scope"])) || PullGrant(s, doc, inputs, c, body))
    && (c.kind == Some("azurerm_resource_group") && "name" in body.text ==>
          Lower(body.text["name"]) == Lower(s.guardrails.resourceGroup))
  }

  /** The attribute `id`, or one whose name ends in `_id`. */
  ghost predicate NamesAnId(key: string) {
    key == "id" || exists stem :: key == stem + "_id"
  }

  /** The body shows where the resource lies: its group, its scope, an id under the group, or the group's own name. */
  ghost predicate ShowsPlace(s: Scope, c: Change, body: Body)
    requires c.Change?
  {
    || "resource_group_name" in body.text
    || "scope" in body.text
    || (exists key <- body.text.Keys :: NamesAnId(key) && Under(s, Lower(body.text[key])))
    || (c.kind == Some("azurerm_resource_group") && "name" in body.text)
  }

  /** A managed entry that does more than read. */
  predicate Acts(c: Change) {
    c.Change? && c.mode in {None, Some("managed")} && c.actions != Some(["read"]) && c.actions != Some(["no-op"])
  }

  ghost predicate EntryAllowed(s: Scope, doc: Document, inputs: Option<Inputs>, c: Change)
    requires c.Change?
  {
    && c.kind.Some? && c.kind.value in s.guardrails.allowedTypes
    && (c.after.Some? ==> StaysInside(s, doc, inputs, c, c.after.value))
    && (c.before.Some? ==> StaysInside(s, doc, inputs, c, c.before.value))
    && ((c.after.Some? && ShowsPlace(s, c, c.after.value)) || (c.before.Some? && ShowsPlace(s, c, c.before.value)))
  }

  lemma IdKeyMeaning(key: string)
    ensures IdKey(key) <==> NamesAnId(key)
  {
    EndsWithMeaning(key, "_id");
  }

  lemma PlacedMeaning(s: Scope, c: Change, body: Body)
    requires c.Change? && '/' !in s.subscription && '/' !in s.guardrails.resourceGroup
    ensures Placed(s, c, body) <==> ShowsPlace(s, c, body)
  {
    hide Under, InsideGroup, IdKey, NamesAnId;
    forall key | key in body.text
      ensures (IdKey(key) && InsideGroup(s, Lower(body.text[key]))) <==> (NamesAnId(key) && Under(s, Lower(body.text[key]))) {
      IdKeyMeaning(key);
      UnderIsInside(s, Lower(body.text[key]));
    }
  }

  lemma PullMeaning(s: Scope, doc: Document, inputs: Option<Inputs>, c: Change, body: Body)
    requires c.Change? && "scope" in body.text && '/' !in s.subscription
    ensures SharedRegistryPull(doc, c, body, RegistryScope(s, inputs)) <==> PullGrant(s, doc, inputs, c, body)
  {
    hide ApplicationIdentityGrant, GrantedTo, RegistryPattern, IsRegistry;
    GrantMeaning(doc, c);
    if inputs.Some? && inputs.value.registryId.Some? {
      RegistryMeaning(s, inputs.value.registryId.value);
    }
  }

  lemma InsideMeaning(s: Scope, doc: Document, inputs: Option<Inputs>, c: Change, body: Body)
    requires c.Change? && '/' !in s.subscription && '/' !in s.guardrails.resourceGroup
    ensures GroupOk(s, c, body) && ScopeOk(s, doc, c, body, RegistryScope(s, inputs)) <==> StaysInside(s, doc, inputs, c, body)
  {
    hide SharedRegistryPull, PullGrant, Under, InsideGroup, RegistryScope;
    if "scope" in body.text {
      PullMeaning(s, doc, inputs, c, body);
      UnderIsInside(s, Place(body.text["scope"]));
      assert Place(body.text["scope"]) == Normalize(body.text["scope"]);
    }
  }

  lemma EntryMeaning(s: Scope, doc: Document, inputs: Option<Inputs>, c: Change)
    requires c.Change? && '/' !in s.subscription && '/' !in s.guardrails.resourceGroup
    ensures ChangeOk(s, doc, c, RegistryScope(s, inputs)) <==> EntryAllowed(s, doc, inputs, c)
  {
    hide GroupOk, ScopeOk, Placed, StaysInside, ShowsPlace, RegistryScope;
    if c.after.Some? {
      InsideMeaning(s, doc, inputs, c, c.after.value);
      PlacedMeaning(s, c, c.after.value);
    }
    if c.before.Some? {
      InsideMeaning(s, doc, inputs, c, c.before.value);
      PlacedMeaning(s, c, c.before.value);
    }
    assert forall body :: body in Bodies(c) <==> c.after == Some(body) || c.before == Some(body);
  }

  /**
   The exact acceptance condition: the inputs carry the approved digest, the action lists keep within
   the three maxima, every type is approved, and every managed entry that does more than read stays
   inside the approved group and shows that it does.
   */
  lemma AcceptedExactly(s: Scope, doc: Document, inputs: Option<Inputs>)
    requires '/' !in s.subscription && '/' !in s.guardrails.resourceGroup
    ensures Accepts(s, doc, inputs) <==>
              && (inputs.Some? ==> inputs.value.digestMatches)
              && |Listing(doc.changes, ["create"])| + |Listing(doc.changes, ["update"])| + |Listing(doc.changes, ["delete"])|
                 + |Listing(doc.changes, ["delete", "create"])| + |Listing(doc.changes, ["create", "delete"])| <= s.guardrails.maxChanges
              && |Listing(doc.changes, ["delete"])| <= s.guardrails.maxDeletes
              && |Listing(doc.changes, ["delete", "create"])| + |Listing(doc.changes, ["create", "delete"])| <= s.guardrails.maxReplaces
              && (forall c <- doc.changes :: c.Change? && c.kind.Some? && |c.kind.value| <= 128 ==>
                    c.kind.value in s.guardrails.allowedTypes)
              && (forall c <- doc.changes :: Acts(c) ==> EntryAllowed(s, doc, inputs, c))
  {
    hide ChangeOk, EntryAllowed, Kinds, CountTags, Tags, Listing, RegistryScope;
    TagCounts(doc.changes);
    AllKindsAllowed(doc.changes, s.guardrails.allowedTypes);
    forall c | c in doc.changes && c.Change?
      ensures Managed(c) <==> Acts(c)
      ensures ChangeOk(s, doc, c, RegistryScope(s, inputs)) <==> EntryAllowed(s, doc, inputs, c) {
      EntryMeaning(s, doc, inputs, c);
    }
  }

  lemma AllKindsAllowed(cs: seq<Change>, allowed: seq<string>)
    ensures (forall kind <- Kinds(cs) :: kind in allowed)
       <==> forall c <- cs :: c.Change? && c.kind.Some? && |c.kind.value| <= 128 ==> c.kind.value in allowed
  {
    hide Kinds;
    forall x: string ensures x in Kinds(cs) <==> exists i :: 0 <= i < |cs| && cs[i].Change? && cs[i].kind == Some(x) && |x| <= 128 {
      KindMember(cs, x);
    }
    if forall kind <- Kinds(cs) :: kind in allowed {
      forall c | c in cs && c.Change? && c.kind.Some? && |c.kind.value| <= 128 ensures c.kind.value in allowed {
        assert c.kind.value in Kinds(cs);
      }
    }
  }
}
