/** The reduction only relaxes: on negation-free schemas with closed objects it accepts every value
    that the rich schema accepts and that carries the declared properties. */
module ReducerMeaning {
  import opened Wrappers
  import opened Json
  import opened SchemaReducer
  import opened SchemaMeaning
  import opened DictLaws
  import opened ReducerLaws
  import opened ReducerFixpoint

  /** Applicators under which accepting more inside does not mean accepting more outside, or whose
      subschemas the reduction would drop. */
  predicate Foreign(keyword: string) {
    keyword in {"not", "oneOf", "if", "then", "else", "contains", "minContains", "maxContains",
                "dependentSchemas", "prefixItems", "patternProperties"}
  }

  ghost predicate ObjectsAreClosed(fields: seq<Field>) {
    Get(fields, "type") == Some(Str("object")) ==> Get(fields, "additionalProperties") == Some(Bool(false))
  }

  /** Negation-free, objects closed, and plain data under every keyword that holds no subschema. */
  ghost predicate Relaxable(s: Json, shown: Json -> string)
    decreases s, 0
  {
    s.Obj? ==>
      && Distinct(s.fields) && ObjectsAreClosed(s.fields)
      && forall i :: 0 <= i < |s.fields| ==> RelaxableKeyword(s.fields[i].name, s.fields[i].value, shown)
  }

  ghost predicate RelaxableKeyword(name: string, v: Json, shown: Json -> string)
    decreases v, 1
  {
    if Foreign(name) then false
    else if Unsupported(name) || Annotation(name) || name == "const" then true
    else if name == "properties" then
      v.Obj? ==> Distinct(v.fields) && forall i :: 0 <= i < |v.fields| ==> Relaxable(v.fields[i].value, shown)
    else if name == "additionalProperties" || name == "items" then Relaxable(v, shown)
    else if name == "allOf" || name == "anyOf" then
      v.Arr? && forall i :: 0 <= i < |v.items| ==> Relaxable(v.items[i], shown)
    else Reduce(v, false, shown) == Ok(v)
  }

  function Reduced(v: Json, propertyMap: bool, shown: Json -> string): Json
    requires Reduce(v, propertyMap, shown).Ok?
  {
    Reduce(v, propertyMap, shown).value
  }

  // ---- What the result holds ------------------------------------------------------------

  /** The declared properties keep their names. */
  lemma DeclaredReduced(s: Json, shown: Json -> string)
    requires s.Obj? && Distinct(s.fields) && Distinct(Declared(s.fields)) && Reduce(s, false, shown).Ok?
    ensures Reduced(s, false, shown).Obj?
    ensures forall p :: Has(Declared(s.fields), p) <==> Has(Declared(Reduced(s, false, shown).fields), p)
  {
    ReducedKind(s, false, shown);
    PropertiesHere(s, shown);
    if Has(s.fields, "properties") {
      var v := Get(s.fields, "properties").value;
      ReducedKind(v, true, shown);
      if v.Obj? {
        PropertyNamesKept(v, shown);
        SameNames(v.fields, Reduced(v, true, shown).fields);
      }
    }
  }

  lemma DeclaredDistinct(s: Json, shown: Json -> string)
    requires s.Obj? && Relaxable(s, shown)
    ensures Distinct(Declared(s.fields))
  {
    RelaxableParts(s, shown);
    if Has(s.fields, "properties") {
      var i := IndexOf(s.fields, "properties");
      PropertiesRelaxable(s.fields[i].value, shown);
    }
  }

  lemma SameNames(a: seq<Field>, b: seq<Field>)
    requires Names(a) == Names(b)
    ensures forall p :: Has(a, p) <==> Has(b, p)
  {
    assert forall i :: 0 <= i < |a| ==> a[i].name == Names(a)[i] && b[i].name == Names(b)[i];
  }

  lemma RelaxableParts(s: Json, shown: Json -> string)
    requires s.Obj? && Relaxable(s, shown)
    ensures Distinct(s.fields) && ObjectsAreClosed(s.fields)
    ensures forall i :: 0 <= i < |s.fields| ==> RelaxableKeyword(s.fields[i].name, s.fields[i].value, shown)
  {
    hide RelaxableKeyword;
  }

  lemma PropertiesRelaxable(v: Json, shown: Json -> string)
    requires RelaxableKeyword("properties", v, shown)
    ensures v.Obj? ==> Distinct(v.fields) && forall i :: 0 <= i < |v.fields| ==> Relaxable(v.fields[i].value, shown)
  {
    hide Relaxable;
  }

  lemma PropertiesHere(s: Json, shown: Json -> string)
    requires s.Obj? && Distinct(s.fields) && Reduce(s, false, shown).Ok? && Reduced(s, false, shown).Obj?
    ensures Has(s.fields, "properties") ==> Reduce(Get(s.fields, "properties").value, true, shown).Ok?
    ensures Has(s.fields, "properties") ==> Get(Reduced(s, false, shown).fields, "properties") == Some(Reduced(Get(s.fields, "properties").value, true, shown))
    ensures !Has(s.fields, "properties") ==> !Has(Reduced(s, false, shown).fields, "properties")
  {
    ReducesToStrict(s, false, shown);
    StrictParts(Reduced(s, false, shown), false);
    hide Reduce, Strict, StrictField;
    var r := Reduced(s, false, shown).fields;
    if Has(s.fields, "properties") {
      var i := IndexOf(s.fields, "properties");
      Survives(s, false, shown, i);
      PropertiesImage(s.fields[i], shown);
      var k :| 0 <= k < |r| && r[k] == ReduceField(s.fields[i], false, shown).value.value;
      GetAt(r, k);
    } else if Has(r, "properties") {
      var k := IndexOf(r, "properties");
      NoPropertiesFrom(s, shown, k);
    }
  }

  lemma PropertiesImage(f: Field, shown: Json -> string)
    requires f.name == "properties"
    ensures ReduceField(f, false, shown) == Named("properties", Reduce(f.value, true, shown))
  {
    hide Reduce;
  }

  lemma NoPropertiesFrom(s: Json, shown: Json -> string, k: nat)
    requires s.Obj? && Distinct(s.fields) && Reduce(s, false, shown).Ok? && Reduced(s, false, shown).Obj?
    requires k < |Reduced(s, false, shown).fields| && Reduced(s, false, shown).fields[k].name == "properties"
    ensures Has(s.fields, "properties")
  {
    ReduceObj(s, false, shown);
    hide Reduce, Unsupported;
    var parts := FieldParts(s, false, shown);
    var fs := AllFields(parts).value;
    assert Has(fs, "properties");
    var i := WrittenBy(parts, "properties");
    ImageName(s.fields[i], shown);
  }

  /** The result is an object schema exactly when the source is. */
  lemma SameType(s: Json, shown: Json -> string)
    requires s.Obj? && Distinct(s.fields) && Reduce(s, false, shown).Ok? && Reduced(s, false, shown).Obj?
    ensures Get(Reduced(s, false, shown).fields, "type") == Some(Str("object"))
       <==> Get(s.fields, "type") == Some(Str("object"))
  {
    ReduceObj(s, false, shown);
    hide Reduce;
    TypeKept(s, shown);
    var fs := AllFields(FieldParts(s, false, shown)).value;
    if Get(fs, "type") == Some(Str("object")) {
      PutGetTwice(fs, Field("additionalProperties", Bool(false)),
                  Field("required", Arr(Strings(Names(Declared(fs))))), "type");
    }
  }

  // ---- The main result ------------------------------------------------------------------

  lemma {:induction false} Relaxes(w: World, depth: nat, s: Json, shown: Json -> string, complete: bool)
    requires Relaxable(s, shown) && Reduce(s, false, shown).Ok?
    ensures Implies(w, depth, s, true, Reduced(s, false, shown), complete)
    decreases s, 3
  {
    ReducedKind(s, false, shown);
    var r := Reduced(s, false, shown);
    if s.Obj? {
      hide Accepts, Keyword, Reduce, RelaxableKeyword, Relaxable, Strict;
      RelaxableParts(s, shown);
      ReducesToStrict(s, false, shown);
      StrictParts(r, false);
      forall y | Accepts(w, depth, s, y, true) ensures Accepts(w, depth, r, y, complete) {
        RelaxesHere(w, depth, s, shown, complete, y);
      }
    }
  }

  lemma RelaxesHere(w: World, depth: nat, s: Json, shown: Json -> string, complete: bool, y: Json)
    requires s.Obj? && Relaxable(s, shown) && Reduce(s, false, shown).Ok? && Reduced(s, false, shown).Obj?
    requires Accepts(w, depth, s, y, true)
    ensures Accepts(w, depth, Reduced(s, false, shown), y, complete)
    decreases s, 2
  {
    hide Keyword, Reduce, RelaxableKeyword, Relaxable, Strict, StrictField, Follows, Unsupported;
    var r := Reduced(s, false, shown);
    RelaxableParts(s, shown);
    ReducesToStrict(s, false, shown);
    StrictParts(r, false);
    DeclaredDistinct(s, shown);
    DeclaredReduced(s, shown);
    SameType(s, shown);
    assert Carries(s.fields, y) ==> Carries(r.fields, y);
    NoReferences(r);
    forall name | Has(r.fields, name) ensures Keyword(w, depth, r.fields, name, Get(r.fields, name).value, y, complete) {
      var k := IndexOf(r.fields, name);
      var i := SourceOf(s, false, shown, k);
      if Override(r.fields[k], s.fields, r.fields) {
        OverrideAccepts(w, depth, s, r.fields, k, y, complete);
      } else {
        GetAt(s.fields, i);
        assert Has(s.fields, s.fields[i].name);
        KeywordRelaxed(w, depth, s, i, shown, complete, r.fields, y);
      }
    }
  }

  lemma NoReferences(r: Json)
    requires r.Obj? && Strict(r, false)
    ensures !Has(r.fields, "$ref")
  {
    assert Unsupported("$ref");
    hide Strict, Unsupported;
    StrictParts(r, false);
    forall i | 0 <= i < |r.fields| ensures r.fields[i].name != "$ref" {
      assert StrictField(r.fields[i], false);
    }
  }

  /** What `Closed` writes holds of every value that carries the declared properties and no others. */
  lemma OverrideAccepts(w: World, depth: nat, s: Json, final: seq<Field>, k: nat, y: Json, complete: bool)
    requires s.Obj? && ObjectsAreClosed(s.fields) && Accepts(w, depth, s, y, true)
    requires forall p :: Has(Declared(s.fields), p) <==> Has(Declared(final), p)
    requires k < |final| && Override(final[k], s.fields, final)
    ensures Keyword(w, depth, final, final[k].name, final[k].value, y, complete)
  {
    if y.Obj? {
      assert Carries(s.fields, y);
      if final[k].name == "required" {
        hide Keyword;
        RequiredAccepts(w, depth, final, Names(Declared(final)), y, complete);
      } else {
        assert Has(s.fields, "additionalProperties");
        assert Keyword(w, depth, s.fields, "additionalProperties", Bool(false), y, true);
        hide Keyword, Declared;
        NothingUndeclared(w, depth, s.fields, final, y, complete);
      }
    } else {
      NotAnObjectAccepted(w, depth, final, final[k], y, complete);
    }
  }

  lemma NotAnObjectAccepted(w: World, depth: nat, final: seq<Field>, f: Field, y: Json, complete: bool)
    requires !y.Obj? && (f.name == "required" || f.name == "additionalProperties")
    ensures Keyword(w, depth, final, f.name, f.value, y, complete)
  {
    hide Annotation;
  }

  lemma RequiredAccepts(w: World, depth: nat, final: seq<Field>, names: seq<string>, y: Json, complete: bool)
    requires y.Obj? && forall i :: 0 <= i < |names| ==> Has(y.fields, names[i])
    ensures Keyword(w, depth, final, "required", Arr(Strings(names)), y, complete)
  {
    hide Annotation;
  }

  lemma NothingUndeclared(w: World, depth: nat, source: seq<Field>, final: seq<Field>, y: Json, complete: bool)
    requires y.Obj? && Keyword(w, depth, source, "additionalProperties", Bool(false), y, true)
    requires forall p :: Has(Declared(source), p) <==> Has(Declared(final), p)
    ensures Keyword(w, depth, final, "additionalProperties", Bool(false), y, complete)
  {
    hide Declared;
    forall p | Has(y.fields, p) ensures Has(Declared(final), p) {
      assert !Accepts(w, depth, Bool(false), Get(y.fields, p).value, true);
    }
  }

  lemma KeywordRelaxed(w: World, depth: nat, s: Json, i: nat, shown: Json -> string, complete: bool,
                       final: seq<Field>, y: Json)
    requires s.Obj? && Relaxable(s, shown) && i < |s.fields|
    requires ReduceField(s.fields[i], false, shown).Ok? && ReduceField(s.fields[i], false, shown).value.Some?
    requires forall p :: Has(Declared(s.fields), p) <==> Has(Declared(final), p)
    requires Keyword(w, depth, s.fields, s.fields[i].name, s.fields[i].value, y, true)
    ensures var f := ReduceField(s.fields[i], false, shown).value.value;
            Keyword(w, depth, final, f.name, f.value, y, complete)
    decreases s.fields[i].value, 4
  {
    hide Keyword, Reduce, RelaxableKeyword, Relaxable, Unsupported, Annotation, Foreign;
    RelaxableParts(s, shown);
    var name, v := s.fields[i].name, s.fields[i].value;
    var f := ReduceField(s.fields[i], false, shown).value.value;
    ImageName(s.fields[i], shown);
    if name == "const" {
      EnumOfOne(w, depth, s.fields, final, v, y, complete);
    } else if Annotation(name) {
      AnnotationHolds(w, depth, final, f, y, complete);
    } else {
      assert !Unsupported(name) && name != "description" by { DescriptionAnnotates(); }
      if name == "properties" {
        PropertiesRelaxed(w, depth, v, shown, complete);
        PropertiesImply(w, depth, s.fields, final, v, true, f.value, complete, y);
      } else if name == "additionalProperties" {
        SubschemaRelaxable(name, v, shown);
        Relaxes(w, depth, v, shown, complete);
        AdditionalImply(w, depth, s.fields, final, v, true, f.value, complete, y);
      } else if name == "items" {
        SubschemaRelaxable(name, v, shown);
        Relaxes(w, depth, v, shown, complete);
        ItemsImply(w, depth, s.fields, final, v, true, f.value, complete, y);
      } else if name == "allOf" || name == "anyOf" {
        ListRelaxable(name, v, shown);
        ReducedKind(v, false, shown);
        forall k | 0 <= k < |v.items| ensures Implies(w, depth, v.items[k], true, f.value.items[k], complete) {
          ReducedItem(v, false, shown, k);
          Relaxes(w, depth, v.items[k], shown, complete);
        }
        ListImply(w, depth, s.fields, final, name, v, true, f.value, complete, y);
      } else {
        LeafUnchanged(name, v, shown);
        LeafKeyword(w, depth, s.fields, true, depth, final, complete, name, v, y);
      }
    }
  }

  lemma DescriptionAnnotates()
    ensures Annotation("description")
  {
  }

  /** `const` and the `enum` of one value accept the same values (JSON Schema Validation, section 6.1.3). */
  lemma EnumOfOne(w: World, depth: nat, a: seq<Field>, b: seq<Field>, v: Json, y: Json, complete: bool)
    ensures Keyword(w, depth, a, "const", v, y, true) <==> Keyword(w, depth, b, "enum", Arr([v]), y, complete)
  {
    assert [v][0] == v;
  }

  lemma AnnotationHolds(w: World, depth: nat, schema: seq<Field>, f: Field, y: Json, complete: bool)
    requires Annotation(f.name)
    ensures Keyword(w, depth, schema, f.name, f.value, y, complete)
  {
    hide Annotation;
  }

  lemma SubschemaRelaxable(name: string, v: Json, shown: Json -> string)
    requires name == "additionalProperties" || name == "items"
    requires RelaxableKeyword(name, v, shown) && !Unsupported(name) && !Annotation(name)
    ensures Relaxable(v, shown)
  {
    hide Relaxable, Unsupported, Annotation, Foreign;
  }

  lemma ListRelaxable(name: string, v: Json, shown: Json -> string)
    requires name == "allOf" || name == "anyOf"
    requires RelaxableKeyword(name, v, shown) && !Unsupported(name) && !Annotation(name)
    ensures v.Arr? && forall i :: 0 <= i < |v.items| ==> Relaxable(v.items[i], shown)
  {
    hide Relaxable, Unsupported, Annotation, Foreign;
  }

  lemma LeafUnchanged(name: string, v: Json, shown: Json -> string)
    requires RelaxableKeyword(name, v, shown) && !Unsupported(name) && !Annotation(name)
    requires name !in {"const", "properties", "additionalProperties", "items", "allOf", "anyOf"}
    ensures Reduce(v, false, shown) == Ok(v)
    ensures name !in {"$ref", "not", "oneOf"}
  {
    hide Relaxable, Annotation, Reduce;
  }

  lemma PropertiesRelaxed(w: World, depth: nat, v: Json, shown: Json -> string, complete: bool)
    requires RelaxableKeyword("properties", v, shown) && Reduce(v, true, shown).Ok?
    ensures v.Obj? <==> Reduced(v, true, shown).Obj?
    ensures v.Obj? ==> forall p :: Has(Reduced(v, true, shown).fields, p) ==>
              Has(v.fields, p)
              && Implies(w, depth, Get(v.fields, p).value, true, Get(Reduced(v, true, shown).fields, p).value, complete)
    decreases v, 1
  {
    PropertiesRelaxable(v, shown);
    ReducedKind(v, true, shown);
    hide Reduce, Accepts, Relaxable, RelaxableKeyword;
    if v.Obj? {
      PropertyNamesKept(v, shown);
      var r := Reduced(v, true, shown).fields;
      SameNames(v.fields, r);
      forall p | Has(r, p) ensures Implies(w, depth, Get(v.fields, p).value, true, Get(r, p).value, complete) {
        var i := IndexOf(v.fields, p);
        assert r[i].name == Names(r)[i] == Names(v.fields)[i] == p;
        SameIndex(v.fields, r, i);
        Relaxes(w, depth, v.fields[i].value, shown, complete);
      }
    }
  }

  lemma SameIndex(a: seq<Field>, b: seq<Field>, i: nat)
    requires Distinct(a) && Names(a) == Names(b) && i < |a|
    ensures i < |b| && Get(b, a[i].name) == Some(b[i].value)
  {
    assert forall j :: 0 <= j < |a| ==> a[j].name == Names(a)[j] && b[j].name == Names(b)[j];
    GetAt(b, i);
  }
}
