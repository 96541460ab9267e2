/** When the reduction accepts exactly what the rich schema accepts, and the whole generation step. */
module ReducerExactness {
  import opened Wrappers
  import opened Json
  import opened SchemaReducer
  import opened SchemaMeaning
  import opened DictLaws
  import opened DereferenceLaws
  import opened DereferenceMeaning
  import opened ReducerLaws
  import opened ReducerFixpoint
  import opened ReducerMeaning

  // ---- Every declared property is required ----------------------------------------------

  ghost predicate Requires(fields: seq<Field>, p: string) {
    match Get(fields, "required")
    case Some(Arr(names)) => exists i :: 0 <= i < |names| && names[i] == Str(p)
    case _ => false
  }

  /** Every object schema inside `s` requires all the properties it declares. */
  ghost predicate RequiresAll(s: Json)
    decreases s, 0
  {
    s.Obj? ==>
      && !Has(s.fields, "$ref") && Distinct(s.fields)
      && (Get(s.fields, "type") == Some(Str("object")) ==>
            forall p :: Has(Declared(s.fields), p) ==> Requires(s.fields, p))
      && forall i :: 0 <= i < |s.fields| ==> RequiresAllUnder(s.fields[i].name, s.fields[i].value)
  }

  ghost predicate RequiresAllUnder(name: string, v: Json)
    decreases v, 1
  {
    if name == "properties" then
      v.Obj? ==> Distinct(v.fields) && forall i :: 0 <= i < |v.fields| ==> RequiresAll(v.fields[i].value)
    else if name == "additionalProperties" || name == "items" then RequiresAll(v)
    else if name == "allOf" || name == "anyOf" then
      v.Arr? && forall i :: 0 <= i < |v.items| ==> RequiresAll(v.items[i])
    else name != "not" && name != "oneOf"
  }

  /** Such a schema accepts only values that carry every declared property. */
  lemma {:induction false} RequiredMeansCarried(w: World, depth: nat, s: Json)
    requires RequiresAll(s)
    ensures Implies(w, depth, s, false, s, true)
    decreases s, 2
  {
    hide RequiresAllUnder, Keyword;
    if s.Obj? {
      forall y | Accepts(w, depth, s, y, false) ensures Accepts(w, depth, s, y, true) {
        RequiredCarries(w, depth, s, y);
        forall name | Has(s.fields, name) ensures Keyword(w, depth, s.fields, name, Get(s.fields, name).value, y, true) {
          var i := IndexOf(s.fields, name);
          RequiredUnder(w, depth, s.fields, name, s.fields[i].value, y);
        }
      }
    }
  }

  lemma RequiredCarries(w: World, depth: nat, s: Json, y: Json)
    requires s.Obj? && RequiresAll(s) && Accepts(w, depth, s, y, false)
    ensures Carries(s.fields, y)
  {
    hide RequiresAllUnder, Annotation, Declared;
    if Get(s.fields, "type") == Some(Str("object")) && y.Obj? {
      forall p | Has(Declared(s.fields), p) ensures Has(y.fields, p) {
        assert Requires(s.fields, p) && Has(s.fields, "required");
        var names := Get(s.fields, "required").value;
        assert Keyword(w, depth, s.fields, "required", names, y, false);
        hide Keyword;
        RequiredIsThere(w, depth, s.fields, names, p, y);
      }
    }
  }

  lemma RequiredIsThere(w: World, depth: nat, schema: seq<Field>, names: Json, p: string, y: Json)
    requires y.Obj? && names.Arr? && Str(p) in names.items
    requires Keyword(w, depth, schema, "required", names, y, false)
    ensures Has(y.fields, p)
  {
  }

  lemma RequiredUnder(w: World, depth: nat, schema: seq<Field>, name: string, v: Json, y: Json)
    requires RequiresAllUnder(name, v) && Keyword(w, depth, schema, name, v, y, false)
    ensures Keyword(w, depth, schema, name, v, y, true)
    decreases v, 3
  {
    hide Keyword, RequiresAll;
    if name == "properties" {
      if v.Obj? {
        forall p | Has(v.fields, p)
          ensures Implies(w, depth, Get(v.fields, p).value, false, Get(v.fields, p).value, true)
        {
          var i := IndexOf(v.fields, p);
          RequiredMeansCarried(w, depth, v.fields[i].value);
        }
      }
      PropertiesImply(w, depth, schema, schema, v, false, v, true, y);
    } else if name == "additionalProperties" {
      RequiredMeansCarried(w, depth, v);
      AdditionalImply(w, depth, schema, schema, v, false, v, true, y);
    } else if name == "items" {
      RequiredMeansCarried(w, depth, v);
      ItemsImply(w, depth, schema, schema, v, false, v, true, y);
    } else if name == "allOf" || name == "anyOf" {
      forall i | 0 <= i < |v.items| ensures Implies(w, depth, v.items[i], false, v.items[i], true) {
        RequiredMeansCarried(w, depth, v.items[i]);
      }
      ListImply(w, depth, schema, schema, name, v, false, v, true, y);
    } else if name == "$ref" {
      ReferenceHolds(w, depth, schema, v, y);
    } else {
      LeafKeyword(w, depth, schema, false, depth, schema, true, name, v, y);
    }
  }

  lemma ReferenceHolds(w: World, depth: nat, schema: seq<Field>, v: Json, y: Json)
    ensures Keyword(w, depth, schema, "$ref", v, y, true)
  {
  }

  // ---- Nothing asserting is dropped -----------------------------------------------------

  /** The members an object schema requires are among those it declares. */
  ghost predicate RequiresDeclared(fields: seq<Field>) {
    match Get(fields, "required")
    case Some(Arr(names)) => forall i :: 0 <= i < |names| && names[i].Str? ==> Has(Declared(fields), names[i].s)
    case _ => true
  }

  /** Besides annotations nothing in `s` is dropped, and no `const` stands beside an `enum`. */
  ghost predicate Lossless(s: Json, shown: Json -> string)
    decreases s, 0
  {
    s.Obj? ==>
      && Distinct(s.fields) && ObjectsAreClosed(s.fields) && !Has(s.fields, "$ref")
      && (Get(s.fields, "type") == Some(Str("object")) ==> RequiresDeclared(s.fields))
      && !(Has(s.fields, "const") && Has(s.fields, "enum"))
      && forall i :: 0 <= i < |s.fields| ==> LosslessKeyword(s.fields[i].name, s.fields[i].value, shown)
  }

  ghost predicate LosslessKeyword(name: string, v: Json, shown: Json -> string)
    decreases v, 1
  {
    if Annotation(name) || name == "const" then true
    else if Foreign(name) || Unsupported(name) then false
    else if name == "properties" then
      v.Obj? ==> Distinct(v.fields) && forall i :: 0 <= i < |v.fields| ==> Lossless(v.fields[i].value, shown)
    else if name == "additionalProperties" || name == "items" then Lossless(v, shown)
    else if name == "allOf" || name == "anyOf" then
      v.Arr? && forall i :: 0 <= i < |v.items| ==> Lossless(v.items[i], shown)
    else Reduce(v, false, shown) == Ok(v)
  }

  lemma LosslessParts(s: Json, shown: Json -> string)
    requires s.Obj? && Lossless(s, shown)
    ensures Distinct(s.fields) && ObjectsAreClosed(s.fields) && !Has(s.fields, "$ref")
    ensures Get(s.fields, "type") == Some(Str("object")) ==> RequiresDeclared(s.fields)
    ensures !(Has(s.fields, "const") && Has(s.fields, "enum"))
    ensures forall i :: 0 <= i < |s.fields| ==> LosslessKeyword(s.fields[i].name, s.fields[i].value, shown)
  {
    hide LosslessKeyword;
  }

  lemma LosslessDeclared(s: Json, shown: Json -> string)
    requires s.Obj? && Lossless(s, shown)
    ensures Distinct(Declared(s.fields))
  {
    LosslessParts(s, shown);
    if Has(s.fields, "properties") {
      var i := IndexOf(s.fields, "properties");
      LosslessProperties(s.fields[i].value, shown);
    }
  }

  lemma LosslessProperties(v: Json, shown: Json -> string)
    requires LosslessKeyword("properties", v, shown)
    ensures v.Obj? ==> Distinct(v.fields) && forall i :: 0 <= i < |v.fields| ==> Lossless(v.fields[i].value, shown)
  {
    hide Lossless;
  }

  /** The reduced schema accepts nothing that the rich one rejects. */
  lemma {:induction false} Tightens(w: World, depth: nat, s: Json, shown: Json -> string)
    requires Lossless(s, shown) && Reduce(s, false, shown).Ok?
    ensures Implies(w, depth, Reduced(s, false, shown), false, s, false)
    decreases s, 3
  {
    ReducedKind(s, false, shown);
    if s.Obj? {
      hide Accepts, Reduce, Lossless;
      forall y | Accepts(w, depth, Reduced(s, false, shown), y, false) ensures Accepts(w, depth, s, y, false) {
        TightensHere(w, depth, s, shown, y);
      }
    }
  }

  lemma TightensHere(w: World, depth: nat, s: Json, shown: Json -> string, y: Json)
    requires s.Obj? && Lossless(s, shown) && Reduce(s, false, shown).Ok? && Reduced(s, false, shown).Obj?
    requires Accepts(w, depth, Reduced(s, false, shown), y, false)
    ensures Accepts(w, depth, s, y, false)
    decreases s, 2
  {
    hide Keyword, Reduce, LosslessKeyword, Lossless, Strict, StrictField, Follows, Unsupported, Carries, RequiresDeclared;
    hide Annotation;
    var r := Reduced(s, false, shown);
    LosslessParts(s, shown);
    ReducesToStrict(s, false, shown);
    StrictParts(r, false);
    LosslessDeclared(s, shown);
    DeclaredReduced(s, shown);
    SameType(s, shown);
    forall name | Has(s.fields, name) ensures Keyword(w, depth, s.fields, name, Get(s.fields, name).value, y, false) {
      var i := IndexOf(s.fields, name);
      if Annotation(name) {
        AnnotationHolds(w, depth, s.fields, s.fields[i], y, false);
      } else if Overwritten(s.fields, false, i) {
        NoConstBesideEnum(s.fields, i);
        OverwrittenHolds(w, depth, s, r.fields, i, y);
      } else {
        Survives(s, false, shown, i);
        ImageThere(s.fields[i], shown);
        var f := ReduceField(s.fields[i], false, shown).value.value;
        var k :| 0 <= k < |r.fields| && r.fields[k] == f;
        GetAt(r.fields, k);
        assert Has(r.fields, f.name);
        KeywordTightened(w, depth, s, i, shown, r.fields, y);
      }
    }
  }

  lemma NoConstBesideEnum(fields: seq<Field>, i: nat)
    requires i < |fields| && !(Has(fields, "const") && Has(fields, "enum")) && Overwritten(fields, false, i)
    ensures Get(fields, "type") == Some(Str("object"))
    ensures fields[i].name == "additionalProperties" || fields[i].name == "required"
  {
  }

  /** Only annotations are dropped. */
  lemma ImageThere(f: Field, shown: Json -> string)
    requires LosslessKeyword(f.name, f.value, shown) && !Annotation(f.name) && ReduceField(f, false, shown).Ok?
    ensures ReduceField(f, false, shown).value.Some?
  {
    TypeIsKept();
    hide Reduce, Lossless, Annotation, Unsupported;
  }

  /** What `Closed` wrote says at least what it replaced. */
  lemma OverwrittenHolds(w: World, depth: nat, s: Json, final: seq<Field>, i: nat, y: Json)
    requires s.Obj? && i < |s.fields| && Distinct(s.fields) && ObjectsAreClosed(s.fields) && RequiresDeclared(s.fields)
    requires Get(s.fields, "type") == Some(Str("object"))
    requires s.fields[i].name == "additionalProperties" || s.fields[i].name == "required"
    requires forall p :: Has(Declared(s.fields), p) <==> Has(Declared(final), p)
    requires ObjectsClosed(final) && Get(final, "type") == Some(Str("object"))
    requires Accepts(w, depth, Obj(final), y, false)
    ensures Keyword(w, depth, s.fields, s.fields[i].name, s.fields[i].value, y, false)
  {
    hide Annotation, Keyword, Unsupported, ReduceField;
    GetAt(s.fields, i);
    if !y.Obj? {
      NotAnObjectAccepted(w, depth, s.fields, s.fields[i], y, false);
    } else if s.fields[i].name == "additionalProperties" {
      assert Has(final, "additionalProperties");
      assert Keyword(w, depth, final, "additionalProperties", Bool(false), y, false);
      hide Declared, Accepts;
      AdditionalImply(w, depth, final, s.fields, Bool(false), false, Bool(false), false, y);
    } else {
      var names := Names(Declared(final));
      assert Has(final, "required");
      assert Keyword(w, depth, final, "required", Arr(Strings(names)), y, false);
      hide Accepts;
      forall p | Has(Declared(final), p) ensures Has(y.fields, p) {
        var k :| 0 <= k < |Declared(final)| && Declared(final)[k].name == p;
        assert Strings(names)[k] == Str(p);
        RequiredIsThere(w, depth, final, Arr(Strings(names)), p, y);
      }
      RequiredHolds(w, depth, s.fields, s.fields[i].value, y);
    }
  }

  lemma RequiredHolds(w: World, depth: nat, schema: seq<Field>, v: Json, y: Json)
    requires y.Obj? && Get(schema, "required") == Some(v) && RequiresDeclared(schema)
    requires forall p :: Has(Declared(schema), p) ==> Has(y.fields, p)
    ensures Keyword(w, depth, schema, "required", v, y, false)
  {
    hide Annotation, Declared;
  }

  lemma KeywordTightened(w: World, depth: nat, s: Json, i: nat, shown: Json -> string, final: seq<Field>, y: Json)
    requires s.Obj? && Lossless(s, shown) && i < |s.fields|
    requires ReduceField(s.fields[i], false, shown).Ok? && ReduceField(s.fields[i], false, shown).value.Some?
    requires forall p :: Has(Declared(s.fields), p) <==> Has(Declared(final), p)
    requires var f := ReduceField(s.fields[i], false, shown).value.value;
             Keyword(w, depth, final, f.name, f.value, y, false)
    ensures Keyword(w, depth, s.fields, s.fields[i].name, s.fields[i].value, y, false)
    decreases s.fields[i].value, 4
  {
    hide Keyword, Reduce, LosslessKeyword, Lossless, Unsupported, Annotation, Foreign;
    LosslessParts(s, shown);
    var name, v := s.fields[i].name, s.fields[i].value;
    var f := ReduceField(s.fields[i], false, shown).value.value;
    ImageName(s.fields[i], shown);
    if name == "const" {
      EnumOfOne(w, depth, s.fields, final, v, y, true);
      LeafKeyword(w, depth, final, true, depth, final, false, "enum", Arr([v]), y);
      LeafKeyword(w, depth, s.fields, true, depth, s.fields, false, "const", v, y);
    } else if Annotation(name) {
      AnnotationHolds(w, depth, s.fields, s.fields[i], y, false);
    } else {
      assert !Unsupported(name) && name != "description" by { DescriptionAnnotates(); }
      if name == "properties" {
        PropertiesTightened(w, depth, v, shown);
        PropertiesImply(w, depth, final, s.fields, f.value, false, v, false, y);
      } else if name == "additionalProperties" {
        LosslessSubschema(name, v, shown);
        Tightens(w, depth, v, shown);
        AdditionalImply(w, depth, final, s.fields, f.value, false, v, false, y);
      } else if name == "items" {
        LosslessSubschema(name, v, shown);
        Tightens(w, depth, v, shown);
        ItemsImply(w, depth, final, s.fields, f.value, false, v, false, y);
      } else if name == "allOf" || name == "anyOf" {
        LosslessSubschema(name, v, shown);
        ReducedKind(v, false, shown);
        forall k | 0 <= k < |v.items| ensures Implies(w, depth, f.value.items[k], false, v.items[k], false) {
          ReducedItem(v, false, shown, k);
          Tightens(w, depth, v.items[k], shown);
        }
        ListImply(w, depth, final, s.fields, name, f.value, false, v, false, y);
      } else {
        LosslessLeaf(name, v, shown);
        LeafKeyword(w, depth, final, false, depth, s.fields, false, name, v, y);
      }
    }
  }

  lemma LosslessSubschema(name: string, v: Json, shown: Json -> string)
    requires name in {"additionalProperties", "items", "allOf", "anyOf"}
    requires LosslessKeyword(name, v, shown) && !Annotation(name)
    ensures name == "additionalProperties" || name == "items" ==> Lossless(v, shown)
    ensures name == "allOf" || name == "anyOf" ==>
              v.Arr? && forall i :: 0 <= i < |v.items| ==> Lossless(v.items[i], shown)
  {
    hide Lossless, Unsupported, Annotation, Foreign;
  }

  lemma LosslessLeaf(name: string, v: Json, shown: Json -> string)
    requires LosslessKeyword(name, v, shown) && !Annotation(name)
    requires name !in {"const", "properties", "additionalProperties", "items", "allOf", "anyOf"}
    ensures Reduce(v, false, shown) == Ok(v)
    ensures name !in {"$ref", "not", "oneOf"}
  {
    hide Lossless, Annotation, Reduce;
  }

  lemma PropertiesTightened(w: World, depth: nat, v: Json, shown: Json -> string)
    requires LosslessKeyword("properties", v, shown) && Reduce(v, true, shown).Ok?
    ensures v.Obj? <==> Reduced(v, true, shown).Obj?
    ensures v.Obj? ==> forall p :: Has(v.fields, p) ==>
              Has(Reduced(v, true, shown).fields, p)
              && Implies(w, depth, Get(Reduced(v, true, shown).fields, p).value, false, Get(v.fields, p).value, false)
    decreases v, 1
  {
    LosslessProperties(v, shown);
    ReducedKind(v, true, shown);
    hide Reduce, Accepts, Lossless, LosslessKeyword;
    if v.Obj? {
      PropertyNamesKept(v, shown);
      var r := Reduced(v, true, shown).fields;
      SameNames(v.fields, r);
      forall p | Has(v.fields, p) ensures Implies(w, depth, Get(r, p).value, false, Get(v.fields, p).value, false) {
        var i := IndexOf(v.fields, p);
        SameIndex(v.fields, r, i);
        Tightens(w, depth, v.fields[i].value, shown);
      }
    }
  }

  // ---- Main results ---------------------------------------------------------------------

  /** When every property is required and only annotations are dropped, reducing changes nothing
      about which values are accepted. */
  lemma ReductionExact(w: World, depth: nat, s: Json, shown: Json -> string, y: Json)
    requires Relaxable(s, shown) && RequiresAll(s) && Lossless(s, shown) && Reduce(s, false, shown).Ok?
    ensures Accepts(w, depth, s, y, false) <==> Accepts(w, depth, Reduced(s, false, shown), y, false)
  {
    hide Accepts, Reduce, Relaxable, RequiresAll, Lossless;
    RequiredMeansCarried(w, depth, s);
    Relaxes(w, depth, s, shown, false);
    Tightens(w, depth, s, shown);
  }

  /** The generated schema accepts every value of the rich schema that carries the declared
      properties, and every value at all when the contract requires them. */
  lemma GeneratedSchemaRelaxes(w: World, rich: seq<Field>, depth: nat, shown: Json -> string, y: Json)
    requires w.defs == Definitions(rich) && Clean(Obj(rich)) && CleanDefinitions(w.defs)
    requires FoundrySchema(rich, depth, shown).Ok?
    requires Relaxable(Dereference(Obj(rich), w.defs, depth).value, shown)
    ensures Accepts(w, depth, Obj(rich), y, true) ==> Accepts(w, 0, FoundrySchema(rich, depth, shown).value, y, false)
    ensures RequiresAll(Dereference(Obj(rich), w.defs, depth).value) ==>
              Accepts(w, depth, Obj(rich), y, false) ==> Accepts(w, 0, FoundrySchema(rich, depth, shown).value, y, false)
  {
    hide Accepts, Reduce, Relaxable, RequiresAll, Dereference, Clean;
    var plain := Dereference(Obj(rich), w.defs, depth).value;
    Preserves(w, depth, Obj(rich), y, true);
    Preserves(w, depth, Obj(rich), y, false);
    Relaxes(w, 0, plain, shown, false);
    if RequiresAll(plain) {
      RequiredMeansCarried(w, 0, plain);
    }
  }
}
