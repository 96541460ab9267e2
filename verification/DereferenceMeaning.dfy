/** Inlining references accepts exactly the same values, when the siblings of a `$ref` are annotations. */
module DereferenceMeaning {
  import opened Wrappers
  import opened Text
  import opened Json
  import opened SchemaReducer
  import opened SchemaMeaning
  import opened DictLaws
  import opened DereferenceLaws

  /** Plain data in which no member is spelled like a reference. */
  ghost predicate Data(v: Json) {
    match v
    case Arr(items) => forall i :: 0 <= i < |items| ==> Data(items[i])
    case Obj(fields) => Distinct(fields) && forall i :: 0 <= i < |fields| ==>
        fields[i].name != "$ref" && fields[i].name != "$defs" && Data(fields[i].value)
    case _ => true
  }

  /** A schema whose references have only annotations beside them, and in which `$ref` and `$defs`
      are never the name of a property or of a member of plain data. */
  ghost predicate Clean(s: Json)
    decreases s, 0
  {
    s.Obj? ==>
      && Distinct(s.fields)
      && (Has(s.fields, "$ref") ==>
            forall i :: 0 <= i < |s.fields| ==> s.fields[i].name == "$ref" || Annotation(s.fields[i].name))
      && forall i :: 0 <= i < |s.fields| ==> CleanKeyword(s.fields[i].name, s.fields[i].value)
  }

  ghost predicate CleanKeyword(name: string, v: Json)
    decreases v, 1
  {
    if name == "$ref" || Annotation(name) then true
    else if name == "properties" then
      v.Obj? ==> Distinct(v.fields) && forall i :: 0 <= i < |v.fields| ==>
        v.fields[i].name != "$ref" && v.fields[i].name != "$defs" && Clean(v.fields[i].value)
    else if name == "additionalProperties" || name == "items" || name == "not" then Clean(v)
    else if name == "allOf" || name == "anyOf" || name == "oneOf" then
      v.Arr? ==> forall i :: 0 <= i < |v.items| ==> Clean(v.items[i])
    else Data(v)
  }

  ghost predicate CleanDefinitions(defs: seq<Field>) {
    forall i :: 0 <= i < |defs| ==> Clean(defs[i].value)
  }

  /** Where no reference stands, members keep their names and are inlined one by one. */
  lemma MembersInlined(v: Json, defs: seq<Field>, depth: nat, p: string)
    requires v.Obj? && Distinct(v.fields) && !Has(v.fields, "$ref") && Dereference(v, defs, depth).Ok?
    ensures Dereference(v, defs, depth).value.Obj?
    ensures Has(Dereference(v, defs, depth).value.fields, p) <==> Has(v.fields, p) && p != "$defs"
    ensures Has(Dereference(v, defs, depth).value.fields, p) ==>
              Dereference(Get(v.fields, p).value, defs, depth) == Ok(Get(Dereference(v, defs, depth).value.fields, p).value)
  {
    ObjSteps(v, defs, depth);
    hide Dereference, AllFields, Get, Members;
    if Has(v.fields, p) && p != "$defs" {
      MemberKept(v, defs, depth, p);
    } else {
      MemberGone(v, defs, depth, p);
    }
  }

  lemma MemberKept(v: Json, defs: seq<Field>, depth: nat, p: string)
    requires v.Obj? && Distinct(v.fields) && AllFields(Members(v, defs, depth)).Ok?
    requires Has(v.fields, p) && p != "$defs"
    ensures Dereference(Get(v.fields, p).value, defs, depth).Ok?
    ensures Get(AllFields(Members(v, defs, depth)).value, p) == Some(Dereference(Get(v.fields, p).value, defs, depth).value)
  {
    hide Dereference, AllFields, Get;
    var parts := Members(v, defs, depth);
    var i := IndexOf(v.fields, p);
    assert parts[i] == DereferenceField(v.fields[i], defs, depth);
    forall j | i < j < |parts| ensures !Yields(parts[j], p) {
      assert parts[j] == DereferenceField(v.fields[j], defs, depth);
    }
    LastWriteWins(parts, p, i);
  }

  lemma MemberGone(v: Json, defs: seq<Field>, depth: nat, p: string)
    requires v.Obj? && AllFields(Members(v, defs, depth)).Ok?
    requires !Has(v.fields, p) || p == "$defs"
    ensures Get(AllFields(Members(v, defs, depth)).value, p) == None
  {
    hide Dereference, AllFields, Get;
    var parts := Members(v, defs, depth);
    forall j | 0 <= j < |parts| ensures !Yields(parts[j], p) {
      assert parts[j] == DereferenceField(v.fields[j], defs, depth);
    }
    NeverWritten(parts, p);
  }

  lemma {:induction false} DataUnchanged(v: Json, defs: seq<Field>, depth: nat)
    requires Data(v)
    ensures Dereference(v, defs, depth) == Ok(v)
  {
    match v
    case Arr(items) =>
      ArrSteps(v, defs, depth);
      forall i | 0 <= i < |items| ensures Items(v, defs, depth)[i] == Ok(items[i]) {
        DataUnchanged(items[i], defs, depth);
      }
      assert AllItems(Items(v, defs, depth)).value == items;
    case Obj(fields) =>
      ObjSteps(v, defs, depth);
      var parts := Members(v, defs, depth);
      forall i | 0 <= i < |fields| ensures parts[i] == Ok(Some(fields[i])) {
        DataUnchanged(fields[i].value, defs, depth);
      }
      FilledInOrder(parts);
      assert AllFields(parts).value == fields;
    case _ =>
  }

  lemma DeclaredInlined(v: Json, defs: seq<Field>, depth: nat, p: string)
    requires v.Obj? && Clean(v) && !Has(v.fields, "$ref") && Dereference(v, defs, depth).Ok?
    ensures Dereference(v, defs, depth).value.Obj?
    ensures Has(Declared(v.fields), p) <==> Has(Declared(Dereference(v, defs, depth).value.fields), p)
  {
    MembersInlined(v, defs, depth, "properties");
    var fs := Dereference(v, defs, depth).value.fields;
    if Has(v.fields, "properties") {
      var i := IndexOf(v.fields, "properties");
      assert CleanKeyword("properties", v.fields[i].value);
      if v.fields[i].value.Obj? {
        MembersInlined(v.fields[i].value, defs, depth, p);
      } else {
        KindKept(v.fields[i].value, defs, depth);
      }
    }
  }

  lemma KindKept(v: Json, defs: seq<Field>, depth: nat)
    requires !v.Obj? && Dereference(v, defs, depth).Ok?
    ensures !Dereference(v, defs, depth).value.Obj?
    ensures v.Arr? <==> Dereference(v, defs, depth).value.Arr?
    ensures !v.Arr? ==> Dereference(v, defs, depth).value == v
  {
  }

  /** Two dicts that agree on everything but annotations accept the same values. */
  lemma AnnotationsIrrelevant(w: World, depth: nat, a: seq<Field>, b: seq<Field>, x: Json, complete: bool)
    requires forall name :: !Annotation(name) ==> Get(a, name) == Get(b, name)
    ensures Accepts(w, depth, Obj(a), x, complete) <==> Accepts(w, depth, Obj(b), x, complete)
  {
    AnnotationsDropped(w, depth, a, b, x, complete);
    AnnotationsDropped(w, depth, b, a, x, complete);
  }

  lemma AnnotationsDropped(w: World, depth: nat, a: seq<Field>, b: seq<Field>, x: Json, complete: bool)
    requires forall name :: !Annotation(name) ==> Get(a, name) == Get(b, name)
    ensures Accepts(w, depth, Obj(a), x, complete) ==> Accepts(w, depth, Obj(b), x, complete)
  {
    hide Follows, Keyword;
    assert Get(a, "properties") == Get(b, "properties") && Get(a, "type") == Get(b, "type") && Get(a, "$ref") == Get(b, "$ref");
    if Accepts(w, depth, Obj(a), x, complete) {
      forall name | Has(b, name) ensures Keyword(w, depth, b, name, Get(b, name).value, x, complete) {
        if Annotation(name) {
          AnnotationAccepts(w, depth, b, name, Get(b, name).value, x, complete);
        } else {
          assert Get(a, name) == Get(b, name);
          assert Keyword(w, depth, a, name, Get(a, name).value, x, complete);
          SameDeclared(w, depth, a, b, name, Get(b, name).value, x, complete);
        }
      }
    }
  }

  lemma AnnotationAccepts(w: World, depth: nat, schema: seq<Field>, name: string, v: Json, x: Json, complete: bool)
    requires Annotation(name) || name == "$ref"
    ensures Keyword(w, depth, schema, name, v, x, complete)
  {
    hide Annotation;
  }

  /** A keyword looks at its siblings only through the declared properties. */
  lemma SameDeclared(w: World, depth: nat, a: seq<Field>, b: seq<Field>, name: string, v: Json, x: Json, complete: bool)
    requires Declared(a) == Declared(b)
    ensures Keyword(w, depth, a, name, v, x, complete) <==> Keyword(w, depth, b, name, v, x, complete)
  {
    hide Accepts, HasType, Annotation, Declared;
  }

  lemma {:induction false} ObjKept(v: Json, defs: seq<Field>, depth: nat)
    requires v.Obj? && Dereference(v, defs, depth).Ok?
    ensures Dereference(v, defs, depth).value.Obj?
    decreases depth
  {
    if Has(v.fields, "$ref") {
      ObjKept(Merged(v, defs), defs, depth - 1);
    }
  }

  lemma ItemInlined(v: Json, defs: seq<Field>, depth: nat, i: nat)
    requires v.Arr? && i < |v.items| && Dereference(v, defs, depth).Ok?
    ensures var p := Dereference(v, defs, depth).value;
            p.Arr? && |p.items| == |v.items| && Dereference(v.items[i], defs, depth) == Ok(p.items[i])
  {
    ArrSteps(v, defs, depth);
    assert Items(v, defs, depth)[i] == Dereference(v.items[i], defs, depth);
  }

  /** The schema a `$ref` unfolds to means what the definition means. */
  lemma MergedMeansTarget(w: World, depth: nat, s: Json, x: Json, complete: bool)
    requires s.Obj? && Clean(s) && CleanDefinitions(w.defs)
    requires Has(s.fields, "$ref") && Target(Get(s.fields, "$ref").value, w.defs).Ok?
    ensures Clean(Merged(s, w.defs))
    ensures Accepts(w, depth, Merged(s, w.defs), x, complete)
       <==> Accepts(w, depth, Obj(Target(Get(s.fields, "$ref").value, w.defs).value), x, complete)
  {
    hide Accepts, Annotation;
    var target := Target(Get(s.fields, "$ref").value, w.defs).value;
    var siblings := Siblings(s.fields);
    SiblingsIn(s.fields);
    TargetClean(w.defs, Get(s.fields, "$ref").value);
    UpdateDistinct(target, siblings);
    UpdateIn(target, siblings);
    forall name | !Annotation(name) ensures Get(Update(target, siblings), name) == Get(target, name) {
      forall f | f in siblings ensures f.name != name {
        SiblingAnnotation(s, f);
      }
      UpdateKeeps(target, siblings, name);
    }
    AnnotationsIrrelevant(w, depth, Update(target, siblings), target, x, complete);
    MergedClean(target, siblings, s);
  }

  lemma SiblingAnnotation(s: Json, f: Field)
    requires s.Obj? && Clean(s) && Has(s.fields, "$ref") && f in s.fields && f.name != "$ref"
    ensures Annotation(f.name)
  {
    hide Annotation;
    var i :| 0 <= i < |s.fields| && s.fields[i] == f;
  }

  lemma TargetClean(defs: seq<Field>, reference: Json)
    requires CleanDefinitions(defs) && Target(reference, defs).Ok?
    ensures Clean(Obj(Target(reference, defs).value))
  {
    hide Clean;
    var i :| 0 <= i < |defs| && defs[i] == Field(reference.s[|DEFS_PREFIX|..], Obj(Target(reference, defs).value));
  }

  lemma MergedClean(target: seq<Field>, siblings: seq<Field>, s: Json)
    requires Clean(Obj(target)) && s.Obj? && Clean(s) && Has(s.fields, "$ref") && siblings == Siblings(s.fields)
    requires Distinct(Update(target, siblings))
    ensures Clean(Obj(Update(target, siblings)))
  {
    hide Annotation, CleanKeyword;
    var merged := Update(target, siblings);
    SiblingsIn(s.fields);
    UpdateIn(target, siblings);
    UpdateKeeps(target, siblings, "$ref");
    forall i | 0 <= i < |merged|
      ensures CleanKeyword(merged[i].name, merged[i].value)
      ensures Has(merged, "$ref") ==> merged[i].name == "$ref" || Annotation(merged[i].name)
    {
      if merged[i] in target {
        var k :| 0 <= k < |target| && target[k] == merged[i];
      } else {
        SiblingAnnotation(s, merged[i]);
        AnnotationClean(merged[i].name, merged[i].value);
      }
    }
  }

  lemma AnnotationClean(name: string, v: Json)
    requires Annotation(name)
    ensures CleanKeyword(name, v)
  {
  }

  /** Inlining keeps the meaning. */
  lemma {:induction false} Preserves(w: World, depth: nat, s: Json, x: Json, complete: bool)
    requires Clean(s) && CleanDefinitions(w.defs) && Dereference(s, w.defs, depth).Ok?
    ensures Accepts(w, depth, s, x, complete)
       <==> Accepts(w, 0, Dereference(s, w.defs, depth).value, x, complete)
    decreases depth, s, 1
  {
    hide Keyword, CleanKeyword, Annotation, Clean, Accepts, Dereference;
    if !s.Obj? {
      ScalarPreserved(w, depth, s, x, complete);
    } else if Has(s.fields, "$ref") {
      UnfoldReference(s, w.defs, depth);
      MergedMeansTarget(w, depth - 1, s, x, complete);
      Preserves(w, depth - 1, Merged(s, w.defs), x, complete);
      OnlyReference(w, depth, s, x, complete);
    } else {
      ObjKept(s, w.defs, depth);
      MembersPreserved(w, depth, s, x, complete);
      SameKeywords(w, depth, s, x, complete);
    }
  }

  lemma ScalarPreserved(w: World, depth: nat, s: Json, x: Json, complete: bool)
    requires !s.Obj? && Dereference(s, w.defs, depth).Ok?
    ensures Accepts(w, depth, s, x, complete) <==> Accepts(w, 0, Dereference(s, w.defs, depth).value, x, complete)
  {
    KindKept(s, w.defs, depth);
  }

  lemma UnfoldReference(s: Json, defs: seq<Field>, depth: nat)
    requires s.Obj? && Has(s.fields, "$ref") && Dereference(s, defs, depth).Ok?
    ensures depth > 0 && Target(Get(s.fields, "$ref").value, defs).Ok?
    ensures Dereference(s, defs, depth) == Dereference(Merged(s, defs), defs, depth - 1)
  {
  }

  lemma MembersPreserved(w: World, depth: nat, s: Json, x: Json, complete: bool)
    requires s.Obj? && Clean(s) && CleanDefinitions(w.defs) && !Has(s.fields, "$ref")
    requires Dereference(s, w.defs, depth).Ok? && Dereference(s, w.defs, depth).value.Obj?
    ensures forall name :: Has(Dereference(s, w.defs, depth).value.fields, name) ==> Has(s.fields, name)
    ensures var p := Dereference(s, w.defs, depth).value;
            forall name :: Has(p.fields, name) ==>
              (Keyword(w, depth, s.fields, name, Get(s.fields, name).value, x, complete)
               <==> Keyword(w, 0, p.fields, name, Get(p.fields, name).value, x, complete))
    decreases depth, s, 0
  {
    hide Keyword, CleanKeyword, Annotation, Clean, Accepts, Dereference;
    CleanParts(s);
    var p := Dereference(s, w.defs, depth).value;
    forall name | Has(p.fields, name)
      ensures Has(s.fields, name)
      ensures Keyword(w, depth, s.fields, name, Get(s.fields, name).value, x, complete)
         <==> Keyword(w, 0, p.fields, name, Get(p.fields, name).value, x, complete)
    {
      MembersInlined(s, w.defs, depth, name);
      var i := IndexOf(s.fields, name);
      KeywordPreserved(w, depth, s, i, x, complete);
    }
  }

  lemma SameKeywords(w: World, depth: nat, s: Json, x: Json, complete: bool)
    requires s.Obj? && Clean(s) && !Has(s.fields, "$ref") && Dereference(s, w.defs, depth).Ok?
    requires Dereference(s, w.defs, depth).value.Obj?
    requires forall name :: Has(Dereference(s, w.defs, depth).value.fields, name) ==> Has(s.fields, name)
    requires var p := Dereference(s, w.defs, depth).value;
             forall name :: Has(p.fields, name) ==>
               (Keyword(w, depth, s.fields, name, Get(s.fields, name).value, x, complete)
                <==> Keyword(w, 0, p.fields, name, Get(p.fields, name).value, x, complete))
    ensures Accepts(w, depth, s, x, complete) <==> Accepts(w, 0, Dereference(s, w.defs, depth).value, x, complete)
  {
    hide Keyword, CleanKeyword, Annotation, Clean, Accepts, Dereference, Carries;
    CleanParts(s);
    var p := Dereference(s, w.defs, depth).value;
    forall name
      ensures Has(p.fields, name) <==> Has(s.fields, name) && name != "$defs"
    {
      MembersInlined(s, w.defs, depth, name);
    }
    DefinitionsAccept(w, depth, s.fields, x, complete);
    SameCarries(s, w.defs, depth, x);
    Unfold(w, depth, s.fields, x, complete);
    Unfold(w, 0, p.fields, x, complete);
  }

  lemma DefinitionsAccept(w: World, depth: nat, schema: seq<Field>, x: Json, complete: bool)
    ensures Has(schema, "$defs") ==> Keyword(w, depth, schema, "$defs", Get(schema, "$defs").value, x, complete)
  {
  }

  lemma Unfold(w: World, depth: nat, fields: seq<Field>, x: Json, complete: bool)
    requires !Has(fields, "$ref")
    ensures Accepts(w, depth, Obj(fields), x, complete)
       <==> (complete ==> Carries(fields, x))
            && forall name :: Has(fields, name) ==> Keyword(w, depth, fields, name, Get(fields, name).value, x, complete)
  {
    hide Keyword;
  }

  lemma CleanParts(s: Json)
    requires s.Obj? && Clean(s)
    ensures Distinct(s.fields) && forall i :: 0 <= i < |s.fields| ==> CleanKeyword(s.fields[i].name, s.fields[i].value)
  {
    hide CleanKeyword;
  }

  /** Beside annotations a reference alone decides. */
  lemma OnlyReference(w: World, depth: nat, s: Json, x: Json, complete: bool)
    requires s.Obj? && Clean(s) && Has(s.fields, "$ref")
    requires depth > 0 && Target(Get(s.fields, "$ref").value, w.defs).Ok?
    ensures Accepts(w, depth, s, x, complete)
       <==> Accepts(w, depth - 1, Obj(Target(Get(s.fields, "$ref").value, w.defs).value), x, complete)
  {
    hide Keyword, CleanKeyword, Annotation;
    forall name | Has(s.fields, name) ensures Keyword(w, depth, s.fields, name, Get(s.fields, name).value, x, complete) {
      var i := IndexOf(s.fields, name);
      AnnotationAccepts(w, depth, s.fields, name, Get(s.fields, name).value, x, complete);
    }
    assert !Has(s.fields, "type") by {
      if i :| 0 <= i < |s.fields| && s.fields[i].name == "type" {
        TypeAsserts();
      }
    }
    assert Carries(s.fields, x);
  }

  lemma TypeAsserts()
    ensures !Annotation("type")
  {
  }

  lemma SameCarries(s: Json, defs: seq<Field>, depth: nat, x: Json)
    requires s.Obj? && Clean(s) && !Has(s.fields, "$ref") && Dereference(s, defs, depth).Ok?
    ensures Dereference(s, defs, depth).value.Obj?
    ensures Carries(s.fields, x) <==> Carries(Dereference(s, defs, depth).value.fields, x)
  {
    hide Dereference, Clean, Declared;
    SameTypeKeyword(s, defs, depth);
    ObjKept(s, defs, depth);
    forall name
      ensures Has(Declared(s.fields), name) <==> Has(Declared(Dereference(s, defs, depth).value.fields), name)
    {
      DeclaredInlined(s, defs, depth, name);
    }
  }

  lemma SameTypeKeyword(s: Json, defs: seq<Field>, depth: nat)
    requires s.Obj? && Clean(s) && !Has(s.fields, "$ref") && Dereference(s, defs, depth).Ok?
    ensures Dereference(s, defs, depth).value.Obj?
    ensures Get(Dereference(s, defs, depth).value.fields, "type") == Get(s.fields, "type")
  {
    hide Dereference, Clean, Data, CleanKeyword;
    CleanParts(s);
    MembersInlined(s, defs, depth, "type");
    if Has(s.fields, "type") {
      var i := IndexOf(s.fields, "type");
      TypeAsserts();
      OtherKeywordClean("type", s.fields[i].value);
      DataUnchanged(s.fields[i].value, defs, depth);
    }
  }

  lemma KeywordPreserved(w: World, depth: nat, s: Json, k: nat, x: Json, complete: bool)
    requires s.Obj? && Clean(s) && CleanDefinitions(w.defs) && !Has(s.fields, "$ref")
    requires Dereference(s, w.defs, depth).Ok? && Dereference(s, w.defs, depth).value.Obj?
    requires k < |s.fields| && Dereference(s.fields[k].value, w.defs, depth).Ok?
    ensures Keyword(w, depth, s.fields, s.fields[k].name, s.fields[k].value, x, complete)
       <==> Keyword(w, 0, Dereference(s, w.defs, depth).value.fields, s.fields[k].name,
                    Dereference(s.fields[k].value, w.defs, depth).value, x, complete)
    decreases depth, s.fields[k].value, 3
  {
    hide Accepts, Annotation, Data, Clean, Keyword, Dereference, CleanKeyword;
    CleanParts(s);
    var name, v := s.fields[k].name, s.fields[k].value;
    var v' := Dereference(v, w.defs, depth).value;
    var p := Dereference(s, w.defs, depth).value;
    if name == "$ref" || Annotation(name) {
      AnnotationAccepts(w, depth, s.fields, name, v, x, complete);
      AnnotationAccepts(w, 0, p.fields, name, v', x, complete);
    } else if name == "properties" {
      PropertiesPreserved(w, depth, v, x, complete);
      PropertiesKeyword(w, depth, s.fields, p.fields, v, v', x, complete);
    } else if name == "additionalProperties" {
      forall q ensures Has(Declared(s.fields), q) <==> Has(Declared(p.fields), q) {
        DeclaredInlined(s, w.defs, depth, q);
      }
      AdditionalPreserved(w, depth, s.fields, p.fields, v, x, complete);
    } else if name == "items" {
      ItemsPreserved(w, depth, s.fields, p.fields, v, x, complete);
    } else if name == "not" {
      NotPreserved(w, depth, s.fields, p.fields, v, x, complete);
    } else if name == "allOf" || name == "anyOf" || name == "oneOf" {
      ListPreserved(w, depth, s.fields, p.fields, name, v, x, complete);
    } else {
      assert Data(v) by { OtherKeywordClean(name, v); }
      DataUnchanged(v, w.defs, depth);
      LeafKeyword(w, depth, s.fields, complete, 0, p.fields, complete, name, v, x);
    }
  }

  lemma OtherKeywordClean(name: string, v: Json)
    requires name !in {"$ref", "properties", "additionalProperties", "items", "not", "allOf", "anyOf", "oneOf"}
    requires CleanKeyword(name, v) && !Annotation(name)
    ensures Data(v)
  {
    hide Clean, Data, Annotation;
  }

  lemma AdditionalPreserved(w: World, depth: nat, a: seq<Field>, b: seq<Field>, v: Json, x: Json, complete: bool)
    requires CleanKeyword("additionalProperties", v) && CleanDefinitions(w.defs) && Dereference(v, w.defs, depth).Ok?
    requires forall q :: Has(Declared(a), q) <==> Has(Declared(b), q)
    ensures Keyword(w, depth, a, "additionalProperties", v, x, complete)
       <==> Keyword(w, 0, b, "additionalProperties", Dereference(v, w.defs, depth).value, x, complete)
    decreases depth, v, 2
  {
    assert Clean(v);
    hide Accepts, Clean, Dereference, Declared;
    if x.Obj? {
      forall q | Has(x.fields, q)
        ensures Accepts(w, depth, v, Get(x.fields, q).value, complete)
           <==> Accepts(w, 0, Dereference(v, w.defs, depth).value, Get(x.fields, q).value, complete)
      {
        Preserves(w, depth, v, Get(x.fields, q).value, complete);
      }
    }
  }

  lemma ItemsPreserved(w: World, depth: nat, a: seq<Field>, b: seq<Field>, v: Json, x: Json, complete: bool)
    requires CleanKeyword("items", v) && CleanDefinitions(w.defs) && Dereference(v, w.defs, depth).Ok?
    ensures Keyword(w, depth, a, "items", v, x, complete)
       <==> Keyword(w, 0, b, "items", Dereference(v, w.defs, depth).value, x, complete)
    decreases depth, v, 2
  {
    assert Clean(v);
    hide Accepts, Clean, Dereference;
    if x.Arr? {
      forall i | 0 <= i < |x.items|
        ensures Accepts(w, depth, v, x.items[i], complete)
           <==> Accepts(w, 0, Dereference(v, w.defs, depth).value, x.items[i], complete)
      {
        Preserves(w, depth, v, x.items[i], complete);
      }
    }
  }

  lemma NotPreserved(w: World, depth: nat, a: seq<Field>, b: seq<Field>, v: Json, x: Json, complete: bool)
    requires CleanKeyword("not", v) && CleanDefinitions(w.defs) && Dereference(v, w.defs, depth).Ok?
    ensures Keyword(w, depth, a, "not", v, x, complete)
       <==> Keyword(w, 0, b, "not", Dereference(v, w.defs, depth).value, x, complete)
    decreases depth, v, 2
  {
    assert Clean(v);
    hide Accepts, Clean, Dereference;
    Preserves(w, depth, v, x, complete);
  }

  lemma ListPreserved(w: World, depth: nat, a: seq<Field>, b: seq<Field>, name: string, v: Json, x: Json, complete: bool)
    requires name == "allOf" || name == "anyOf" || name == "oneOf"
    requires CleanKeyword(name, v) && CleanDefinitions(w.defs) && Dereference(v, w.defs, depth).Ok?
    ensures Keyword(w, depth, a, name, v, x, complete)
       <==> Keyword(w, 0, b, name, Dereference(v, w.defs, depth).value, x, complete)
    decreases depth, v, 2
  {
    var v' := Dereference(v, w.defs, depth).value;
    if v.Arr? {
      assert forall i :: 0 <= i < |v.items| ==> Clean(v.items[i]);
      hide Accepts, Clean, Dereference, Keyword;
      ArrInlined(v, w.defs, depth);
      forall i | 0 <= i < |v.items|
        ensures Accepts(w, depth, v.items[i], x, complete) <==> Accepts(w, 0, v'.items[i], x, complete)
      {
        ItemInlined(v, w.defs, depth, i);
        Preserves(w, depth, v.items[i], x, complete);
      }
      SameItems(w, depth, a, b, name, v.items, v'.items, x, complete);
    } else {
      NotArray(v, w.defs, depth);
      hide Accepts, Clean, Dereference;
    }
  }

  lemma ArrInlined(v: Json, defs: seq<Field>, depth: nat)
    requires v.Arr? && Dereference(v, defs, depth).Ok?
    ensures Dereference(v, defs, depth).value.Arr? && |Dereference(v, defs, depth).value.items| == |v.items|
  {
    ArrSteps(v, defs, depth);
  }

  lemma SameItems(w: World, depth: nat, a: seq<Field>, b: seq<Field>, name: string,
                  vs: seq<Json>, vs': seq<Json>, x: Json, complete: bool)
    requires name == "allOf" || name == "anyOf" || name == "oneOf"
    requires |vs| == |vs'|
    requires forall i :: 0 <= i < |vs| ==> (Accepts(w, depth, vs[i], x, complete) <==> Accepts(w, 0, vs'[i], x, complete))
    ensures Keyword(w, depth, a, name, Arr(vs), x, complete) <==> Keyword(w, 0, b, name, Arr(vs'), x, complete)
  {
    hide Accepts, Combined;
    var v, v' := Arr(vs), Arr(vs');
    assert seq(|vs|, i requires 0 <= i < |vs| => Accepts(w, depth, v.items[i], x, complete))
        == seq(|vs|, i requires 0 <= i < |vs| => Accepts(w, 0, v'.items[i], x, complete));
  }

  lemma PropertiesKeyword(w: World, depth: nat, a: seq<Field>, b: seq<Field>, v: Json, v': Json, x: Json, complete: bool)
    requires v.Obj? <==> v'.Obj?
    requires v.Obj? && x.Obj? ==> forall p ::
              && (Has(v.fields, p) <==> Has(v'.fields, p))
              && (Has(v.fields, p) && Has(x.fields, p) ==>
                    (Accepts(w, depth, Get(v.fields, p).value, Get(x.fields, p).value, complete)
                     <==> Accepts(w, 0, Get(v'.fields, p).value, Get(x.fields, p).value, complete)))
    ensures Keyword(w, depth, a, "properties", v, x, complete) <==> Keyword(w, 0, b, "properties", v', x, complete)
  {
    hide Accepts;
  }

  lemma PropertiesPreserved(w: World, depth: nat, v: Json, x: Json, complete: bool)
    requires CleanKeyword("properties", v) && CleanDefinitions(w.defs) && Dereference(v, w.defs, depth).Ok?
    ensures v.Obj? <==> Dereference(v, w.defs, depth).value.Obj?
    ensures v.Obj? && x.Obj? ==> forall p ::
              && (Has(v.fields, p) <==> Has(Dereference(v, w.defs, depth).value.fields, p))
              && (Has(v.fields, p) && Has(x.fields, p) ==>
                    (Accepts(w, depth, Get(v.fields, p).value, Get(x.fields, p).value, complete)
                     <==> Accepts(w, 0, Get(Dereference(v, w.defs, depth).value.fields, p).value,
                                  Get(x.fields, p).value, complete)))
    decreases depth, v, 0
  {
    if v.Obj? {
      PropertiesClean(v);
      ObjKept(v, w.defs, depth);
      hide Accepts, CleanKeyword, Clean, Dereference;
      if x.Obj? {
        forall p
          ensures Has(v.fields, p) <==> Has(Dereference(v, w.defs, depth).value.fields, p)
          ensures Has(v.fields, p) && Has(x.fields, p) ==>
                    (Accepts(w, depth, Get(v.fields, p).value, Get(x.fields, p).value, complete)
                     <==> Accepts(w, 0, Get(Dereference(v, w.defs, depth).value.fields, p).value,
                                  Get(x.fields, p).value, complete))
        {
          MembersInlined(v, w.defs, depth, p);
          if Has(v.fields, p) && Has(x.fields, p) {
            var i := IndexOf(v.fields, p);
            Preserves(w, depth, v.fields[i].value, Get(x.fields, p).value, complete);
          }
        }
      }
    } else {
      KindKept(v, w.defs, depth);
    }
  }

  lemma PropertiesClean(v: Json)
    requires v.Obj? && CleanKeyword("properties", v)
    ensures Distinct(v.fields) && !Has(v.fields, "$ref") && !Has(v.fields, "$defs")
    ensures forall i :: 0 <= i < |v.fields| ==> Clean(v.fields[i].value)
  {
    hide Clean;
  }

  lemma NotArray(v: Json, defs: seq<Field>, depth: nat)
    requires !v.Arr? && Dereference(v, defs, depth).Ok?
    ensures !Dereference(v, defs, depth).value.Arr?
  {
    if v.Obj? {
      ObjKept(v, defs, depth);
    }
  }

  // ---- Where the condition on siblings is needed ----------------------------------------

  /** A sibling that asserts replaces the definition's own keyword instead of adding to it, so a
      value the rich schema rejects is accepted. */
  lemma SiblingReplaces(w: World, depth: nat, reference: Field, own: Field, sibling: Field, x: Json, complete: bool)
    requires depth > 0 && reference.name == "$ref" && Target(reference.value, w.defs) == Ok([own])
    requires sibling.name == own.name && own.name !in {"$ref", "$defs", "type", "properties"} && Data(sibling.value)
    requires !Keyword(w, depth - 1, [own], own.name, own.value, x, complete)
    requires Keyword(w, 0, [sibling], own.name, sibling.value, x, complete)
    ensures var s := Obj([reference, sibling]);
            && Dereference(s, w.defs, depth) == Ok(Obj([sibling]))
            && !Accepts(w, depth, s, x, complete)
            && Accepts(w, 0, Obj([sibling]), x, complete)
  {
    hide Keyword, Dereference;
    var s := Obj([reference, sibling]);
    MergedIs(reference, own, sibling);
    assert Get(s.fields, "$ref") == Some(reference.value);
    assert Dereference(s, w.defs, depth) == Ok(Obj([sibling])) by {
      UnfoldsOnce(s, w.defs, depth);
      DataUnchanged(Obj([sibling]), w.defs, depth - 1);
    }
    SingleAccepts(w, depth - 1, own, x, complete);
    SingleAccepts(w, 0, sibling, x, complete);
    assert Has(s.fields, "$ref");
    assert !Follows(w, depth, reference.value, x, complete);
  }

  lemma MergedIs(reference: Field, own: Field, sibling: Field)
    requires reference.name == "$ref" && sibling.name == own.name && own.name != "$ref"
    ensures Update([own], Siblings([reference, sibling])) == [sibling]
  {
    assert [reference, sibling][1..] == [sibling] && [sibling][1..] == [];
    assert Siblings([sibling]) == [sibling];
    assert [sibling][..0] == [];
    assert Put([own], sibling) == [sibling];
  }

  lemma SingleAccepts(w: World, depth: nat, f: Field, x: Json, complete: bool)
    requires f.name !in {"$ref", "type", "properties"}
    ensures Accepts(w, depth, Obj([f]), x, complete) <==> Keyword(w, depth, [f], f.name, f.value, x, complete)
  {
    hide Keyword;
    var fields := [f];
    assert fields[1..] == [];
    assert fields[0].name == f.name;
    assert Has(fields, f.name) && Get(fields, f.name) == Some(f.value);
    Unfold(w, depth, fields, x, complete);
  }
}
