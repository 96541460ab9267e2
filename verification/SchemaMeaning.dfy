/** What a JSON Schema accepts (draft 2020-12), for the keywords the contracts are written in. */
module SchemaMeaning {
  import opened Wrappers
  import opened Json
  import opened SchemaReducer

  /** `same` is JSON equality and `leaf` decides every keyword that holds no subschema (pattern,
      maxLength, minimum, ...); nothing is assumed about either. */
  datatype World = World(same: (Json, Json) -> bool, leaf: (string, Json, Json) -> bool, defs: seq<Field>)

  /** Keywords that never reject a value. */
  predicate Annotation(keyword: string) {
    keyword in {"title", "description", "default", "examples", "$schema", "$defs", "$comment",
                "deprecated", "readOnly", "writeOnly"}
  }

  predicate HasType(t: Json, x: Json) {
    match t
    case Str("null") => x.Null?
    case Str("boolean") => x.Bool?
    case Str("string") => x.Str?
    case Str("number") => x.Num?
    case Str("integer") => x.Num? && x.n.Floor as real == x.n
    case Str("array") => x.Arr?
    case Str("object") => x.Obj?
    case _ => false
  }

  function Declared(schema: seq<Field>): seq<Field> {
    match Get(schema, "properties")
    case Some(Obj(properties)) => properties
    case _ => []
  }

  /** With `complete`, a value must also carry every property its object schemas declare. */
  ghost predicate Carries(schema: seq<Field>, x: Json) {
    Get(schema, "type") == Some(Str("object")) && x.Obj? ==>
      forall name :: Has(Declared(schema), name) ==> Has(x.fields, name)
  }

  /** How the verdicts of a list of subschemas decide. */
  ghost predicate Combined(name: string, verdicts: seq<bool>) {
    if name == "allOf" then false !in verdicts
    else if name == "anyOf" then true in verdicts
    else multiset(verdicts)[true] == 1
  }

  /** `depth` bounds how many references may be followed one inside another. */
  ghost predicate Accepts(w: World, depth: nat, s: Json, x: Json, complete: bool)
    decreases depth, s, 0
  {
    match s
    case Bool(b) => b
    case Obj(fields) =>
      && (complete ==> Carries(fields, x))
      && (Has(fields, "$ref") ==> Follows(w, depth, Get(fields, "$ref").value, x, complete))
      && (forall name :: Has(fields, name) ==>
            Keyword(w, depth, fields, name, Get(s.fields, name).value, x, complete))
    case _ => false
  }

  ghost predicate Follows(w: World, depth: nat, reference: Json, x: Json, complete: bool)
    decreases depth, reference, 0
  {
    depth > 0 && Target(reference, w.defs).Ok?
    && Accepts(w, depth - 1, Obj(Target(reference, w.defs).value), x, complete)
  }

  ghost predicate Keyword(w: World, depth: nat, schema: seq<Field>, name: string, v: Json, x: Json, complete: bool)
    decreases depth, v, 1
  {
    if name == "$ref" || Annotation(name) then true
    else if name == "type" then
      if v.Arr? then exists i :: 0 <= i < |v.items| && HasType(v.items[i], x) else HasType(v, x)
    else if name == "enum" then v.Arr? && exists i :: 0 <= i < |v.items| && w.same(v.items[i], x)
    else if name == "const" then w.same(v, x)
    else if name == "required" then
      x.Obj? && v.Arr? ==> forall i :: 0 <= i < |v.items| && v.items[i].Str? ==> Has(x.fields, v.items[i].s)
    else if name == "properties" then
      x.Obj? && v.Obj? ==> forall p :: Has(v.fields, p) && Has(x.fields, p) ==>
        Accepts(w, depth, Get(v.fields, p).value, Get(x.fields, p).value, complete)
    else if name == "additionalProperties" then
      x.Obj? ==> forall p :: Has(x.fields, p) && !Has(Declared(schema), p) ==>
        Accepts(w, depth, v, Get(x.fields, p).value, complete)
    else if name == "items" then
      x.Arr? ==> forall i :: 0 <= i < |x.items| ==> Accepts(w, depth, v, x.items[i], complete)
    else if name == "allOf" || name == "anyOf" || name == "oneOf" then
      v.Arr? && Combined(name, seq(|v.items|, i requires 0 <= i < |v.items| =>
                                   Accepts(w, depth, v.items[i], x, complete)))
    else if name == "not" then !Accepts(w, depth, v, x, complete)
    else w.leaf(name, v, x)
  }

  // ---- How one keyword's verdict follows from another's ---------------------------------

  /** Keywords without subschemas look at neither siblings, references nor completeness. */
  lemma LeafKeyword(w: World, d1: nat, a: seq<Field>, c1: bool, d2: nat, b: seq<Field>, c2: bool,
                    name: string, v: Json, x: Json)
    requires name !in {"$ref", "properties", "additionalProperties", "items", "not", "allOf", "anyOf", "oneOf"}
    ensures Keyword(w, d1, a, name, v, x, c1) <==> Keyword(w, d2, b, name, v, x, c2)
  {
    hide Accepts, Annotation, HasType;
  }

  /** Every value accepted under `v` is accepted under `v'`. */
  ghost predicate Implies(w: World, depth: nat, v: Json, c: bool, v': Json, c': bool) {
    forall y :: Accepts(w, depth, v, y, c) ==> Accepts(w, depth, v', y, c')
  }

  lemma PropertiesImply(w: World, depth: nat, a: seq<Field>, b: seq<Field>, v: Json, c: bool, v': Json, c': bool, x: Json)
    requires v'.Obj? ==> v.Obj?
    requires v'.Obj? ==> forall p :: Has(v'.fields, p) ==>
               Has(v.fields, p) && Implies(w, depth, Get(v.fields, p).value, c, Get(v'.fields, p).value, c')
    requires Keyword(w, depth, a, "properties", v, x, c)
    ensures Keyword(w, depth, b, "properties", v', x, c')
  {
    hide Accepts, Annotation;
  }

  lemma AdditionalImply(w: World, depth: nat, a: seq<Field>, b: seq<Field>, v: Json, c: bool, v': Json, c': bool, x: Json)
    requires forall p :: Has(Declared(a), p) ==> Has(Declared(b), p)
    requires Implies(w, depth, v, c, v', c')
    requires Keyword(w, depth, a, "additionalProperties", v, x, c)
    ensures Keyword(w, depth, b, "additionalProperties", v', x, c')
  {
    hide Accepts, Annotation, Declared;
  }

  lemma ItemsImply(w: World, depth: nat, a: seq<Field>, b: seq<Field>, v: Json, c: bool, v': Json, c': bool, x: Json)
    requires Implies(w, depth, v, c, v', c')
    requires Keyword(w, depth, a, "items", v, x, c)
    ensures Keyword(w, depth, b, "items", v', x, c')
  {
    hide Accepts, Annotation;
  }

  lemma ListImply(w: World, depth: nat, a: seq<Field>, b: seq<Field>, name: string, v: Json, c: bool, v': Json, c': bool, x: Json)
    requires name == "allOf" || name == "anyOf"
    requires v.Arr? && v'.Arr? && |v'.items| == |v.items|
    requires forall i :: 0 <= i < |v.items| ==> Implies(w, depth, v.items[i], c, v'.items[i], c')
    requires Keyword(w, depth, a, name, v, x, c)
    ensures Keyword(w, depth, b, name, v', x, c')
  {
    hide Accepts, Annotation;
    var before := seq(|v.items|, i requires 0 <= i < |v.items| => Accepts(w, depth, v.items[i], x, c));
    var after := seq(|v'.items|, i requires 0 <= i < |v'.items| => Accepts(w, depth, v'.items[i], x, c'));
    assert forall i :: 0 <= i < |after| ==> Implies(w, depth, v.items[i], c, v'.items[i], c');
    assert forall i :: 0 <= i < |after| ==> before[i] ==> after[i];
    assert Annotation(name) || Combined(name, before);
    if true in before {
      var i :| 0 <= i < |before| && before[i];
      assert after[i];
    }
  }
}
