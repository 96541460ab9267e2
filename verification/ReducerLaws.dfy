/** The reduction: the shape of its output, when it is a fixed point, and that it only relaxes. */
module ReducerLaws {
  import opened Wrappers
  import opened Json
  import opened SchemaReducer
  import opened SchemaMeaning
  import opened DictLaws

  function ItemParts(v: Json, shown: Json -> string): seq<Result<Json, Error>>
    requires v.Arr?
  {
    seq(|v.items|, i requires 0 <= i < |v.items| => Reduce(v.items[i], false, shown))
  }

  function FieldParts(v: Json, propertyMap: bool, shown: Json -> string): Parts
    requires v.Obj?
  {
    seq(|v.fields|, i requires 0 <= i < |v.fields| => ReduceField(v.fields[i], propertyMap, shown))
  }

  lemma ReduceArr(v: Json, propertyMap: bool, shown: Json -> string)
    requires v.Arr?
    ensures Reduce(v, propertyMap, shown) == match AllItems(ItemParts(v, shown))
                                             case Ok(js) => Ok(Arr(js))
                                             case Err(e) => Err(e)
  {
    assert ItemParts(v, shown) == seq(|v.items|, i requires 0 <= i < |v.items| => Reduce(v.items[i], false, shown));
  }

  lemma ReduceObj(v: Json, propertyMap: bool, shown: Json -> string)
    requires v.Obj?
    ensures Reduce(v, propertyMap, shown) == match AllFields(FieldParts(v, propertyMap, shown))
                                             case Err(e) => Err(e)
                                             case Ok(fs) => if propertyMap then Ok(Obj(fs)) else Closed(fs)
  {
    assert FieldParts(v, propertyMap, shown)
        == seq(|v.fields|, i requires 0 <= i < |v.fields| => ReduceField(v.fields[i], propertyMap, shown));
  }

  lemma ReducedItem(v: Json, propertyMap: bool, shown: Json -> string, i: nat)
    requires v.Arr? && i < |v.items| && Reduce(v, propertyMap, shown).Ok?
    ensures var r := Reduce(v, propertyMap, shown).value;
            r.Arr? && |r.items| == |v.items| && Reduce(v.items[i], false, shown) == Ok(r.items[i])
  {
    ReduceArr(v, propertyMap, shown);
    assert ItemParts(v, shown)[i] == Reduce(v.items[i], false, shown);
  }

  lemma ReducedKind(v: Json, propertyMap: bool, shown: Json -> string)
    requires Reduce(v, propertyMap, shown).Ok?
    ensures var r := Reduce(v, propertyMap, shown).value;
            (r.Obj? <==> v.Obj?) && (r.Arr? <==> v.Arr?) && (!v.Obj? && !v.Arr? ==> r == v)
            && (v.Arr? ==> |r.items| == |v.items|)
  {
    if v.Arr? {
      ReduceArr(v, propertyMap, shown);
    } else if v.Obj? {
      ReduceObj(v, propertyMap, shown);
    }
  }

  // ---- Property names -------------------------------------------------------------------

  /** Under `properties` every name is kept, in order, however it is spelled, and each property's
      schema is reduced on its own. */
  lemma PropertyNamesKept(v: Json, shown: Json -> string)
    requires v.Obj? && Distinct(v.fields) && Reduce(v, true, shown).Ok?
    ensures var r := Reduce(v, true, shown).value;
            && r.Obj? && Names(r.fields) == Names(v.fields)
            && forall i :: 0 <= i < |v.fields| ==> Reduce(v.fields[i].value, false, shown) == Ok(r.fields[i].value)
  {
    ReduceObj(v, true, shown);
    var parts := FieldParts(v, true, shown);
    FilledInOrder(parts);
  }

  // ---- The shape of the output ----------------------------------------------------------

  /** Strict structured output: no unsupported keyword and no `const` where a schema stands (the
      values of an `enum` are data), and every object schema closed with all properties required. */
  ghost predicate Strict(v: Json, propertyMap: bool)
    decreases v, 0
  {
    match v
    case Arr(items) => forall i :: 0 <= i < |items| ==> Strict(items[i], false)
    case Obj(fields) =>
      && Distinct(fields)
      && (forall i :: 0 <= i < |fields| ==> StrictField(fields[i], propertyMap))
      && (propertyMap || ObjectsClosed(fields))
    case _ => true
  }

  ghost predicate ObjectsClosed(fields: seq<Field>) {
    Get(fields, "type") == Some(Str("object")) ==>
      && Get(fields, "properties").Some? && Get(fields, "properties").value.Obj?
      && Get(fields, "additionalProperties") == Some(Bool(false))
      && Get(fields, "required") == Some(Arr(Strings(Names(Get(fields, "properties").value.fields))))
  }

  ghost predicate StrictField(f: Field, propertyMap: bool)
    decreases f.value, 1
  {
    if propertyMap then Strict(f.value, false) else
    && !Unsupported(f.name) && f.name != "const"
    && (f.name == "description" ==> f.value.Str? && |f.value.s| <= MAX_DESCRIPTION)
    && (f.name != "enum" ==> Strict(f.value, f.name == "properties"))
  }

  lemma {:induction false} ReducesToStrict(v: Json, propertyMap: bool, shown: Json -> string)
    requires Reduce(v, propertyMap, shown).Ok?
    ensures Strict(Reduce(v, propertyMap, shown).value, propertyMap)
    decreases v
  {
    match v
    case Arr(items) =>
      ReduceArr(v, propertyMap, shown);
      forall i | 0 <= i < |items| ensures Strict(ItemParts(v, shown)[i].value, false) {
        ReducesToStrict(items[i], false, shown);
      }
    case Obj(fields) =>
      ReducedKind(v, propertyMap, shown);
      forall i | 0 <= i < |fields| && Reduce(fields[i].value, !propertyMap && fields[i].name == "properties", shown).Ok?
        ensures Strict(Reduce(fields[i].value, !propertyMap && fields[i].name == "properties", shown).value,
                       !propertyMap && fields[i].name == "properties")
      {
        ReducesToStrict(fields[i].value, !propertyMap && fields[i].name == "properties", shown);
      }
      DictStrict(v, propertyMap, shown);
    case _ =>
  }

  lemma DictStrict(v: Json, propertyMap: bool, shown: Json -> string)
    requires v.Obj? && Reduce(v, propertyMap, shown).Ok?
    requires forall i :: 0 <= i < |v.fields| ==>
               var r := Reduce(v.fields[i].value, !propertyMap && v.fields[i].name == "properties", shown);
               r.Ok? ==> Strict(r.value, !propertyMap && v.fields[i].name == "properties")
    ensures Strict(Reduce(v, propertyMap, shown).value, propertyMap)
  {
    ReduceObj(v, propertyMap, shown);
    hide Reduce, StrictField, ReduceField;
    var parts := FieldParts(v, propertyMap, shown);
    var fs := AllFields(parts).value;
    FilledDistinct(parts);
    forall k | 0 <= k < |fs| ensures StrictField(fs[k], propertyMap) {
      var i := WrittenBy(parts, fs[k].name);
      GetAt(fs, k);
      assert parts[i] == ReduceField(v.fields[i], propertyMap, shown);
      StrictPart(v.fields[i], propertyMap, shown);
    }
    if !propertyMap {
      ClosedStrict(fs);
    }
  }

  lemma StrictPart(f: Field, propertyMap: bool, shown: Json -> string)
    requires ReduceField(f, propertyMap, shown).Ok? && ReduceField(f, propertyMap, shown).value.Some?
    requires var r := Reduce(f.value, !propertyMap && f.name == "properties", shown);
             r.Ok? ==> Strict(r.value, !propertyMap && f.name == "properties")
    ensures StrictField(ReduceField(f, propertyMap, shown).value.value, propertyMap)
  {
    hide Reduce;
    if !propertyMap && f.name == "const" {
      EnumIsSupported();
    }
  }

  lemma EnumIsSupported()
    ensures !Unsupported("enum") && !Unsupported("additionalProperties") && !Unsupported("required")
  {
  }

  lemma ClosedStrict(fs: seq<Field>)
    requires Distinct(fs) && Closed(fs).Ok? && forall k :: 0 <= k < |fs| ==> StrictField(fs[k], false)
    ensures Strict(Closed(fs).value, false)
  {
    hide StrictField;
    if Get(fs, "type") == Some(Str("object")) {
      var properties := Get(fs, "properties").value.fields;
      var additional := Field("additionalProperties", Bool(false));
      var required := Field("required", Arr(Strings(Names(properties))));
      var once := Put(fs, additional);
      var twice := Put(once, required);
      PutDistinct(fs, additional);
      PutDistinct(once, required);
      assert StrictField(additional, false) && StrictField(required, false) by {
        EnumIsSupported();
        OverridesStrict(additional, required, Names(properties));
      }
      forall k | 0 <= k < |twice| ensures StrictField(twice[k], false) {
        if twice[k] in fs {
          var i :| 0 <= i < |fs| && fs[i] == twice[k];
        }
      }
      PutGetTwice(fs, additional, required, "type");
      PutGetTwice(fs, additional, required, "properties");
      PutGetTwice(fs, additional, required, "additionalProperties");
      PutGetTwice(fs, additional, required, "required");
    }
  }

  lemma OverridesStrict(additional: Field, required: Field, names: seq<string>)
    requires additional == Field("additionalProperties", Bool(false))
    requires required == Field("required", Arr(Strings(names)))
    ensures StrictField(additional, false) && StrictField(required, false)
  {
    EnumIsSupported();
    hide Unsupported;
    assert forall i :: 0 <= i < |names| ==> Strict(Strings(names)[i], false);
  }

  lemma PutGetTwice(fs: seq<Field>, f: Field, g: Field, name: string)
    ensures Get(Put(Put(fs, f), g), name)
         == if name == g.name then Some(g.value) else if name == f.name then Some(f.value) else Get(fs, name)
  {
    PutGet(fs, f, name);
    PutGet(Put(fs, f), g, name);
  }

  // ---- When reducing again changes nothing ----------------------------------------------

  /** A strict dict is a fixed point exactly when each of its members is. */
  lemma FixedExactly(r: Json, propertyMap: bool, shown: Json -> string)
    requires r.Obj? && Strict(r, propertyMap)
    ensures Reduce(r, propertyMap, shown) == Ok(r)
       <==> forall k :: 0 <= k < |r.fields| ==> Fixed(r.fields[k], propertyMap, shown)
  {
    hide Reduce, Strict;
    StrictParts(r, propertyMap);
    ReduceObj(r, propertyMap, shown);
    var parts := FieldParts(r, propertyMap, shown);
    forall k | 0 <= k < |parts| ensures Fixed(r.fields[k], propertyMap, shown) <==> parts[k] == Ok(Some(r.fields[k])) {
      FixedPart(r.fields[k], propertyMap, shown);
    }
    if forall k :: 0 <= k < |r.fields| ==> Fixed(r.fields[k], propertyMap, shown) {
      FilledInOrder(parts);
      assert AllFields(parts).value == r.fields;
      if !propertyMap {
        ClosedAgain(r.fields);
      }
    }
    if Reduce(r, propertyMap, shown) == Ok(r) {
      forall k | 0 <= k < |parts| ensures Fixed(r.fields[k], propertyMap, shown) {
        WrittenBack(r, propertyMap, shown, k);
      }
    }
  }

  /** What a second reduction makes of one member. */
  ghost predicate Fixed(f: Field, propertyMap: bool, shown: Json -> string) {
    (!propertyMap && f.name == "description") || Reduce(f.value, !propertyMap && f.name == "properties", shown) == Ok(f.value)
  }

  lemma StrictParts(r: Json, propertyMap: bool)
    requires r.Obj? && Strict(r, propertyMap)
    ensures Distinct(r.fields) && (propertyMap || ObjectsClosed(r.fields))
    ensures forall k :: 0 <= k < |r.fields| ==> StrictField(r.fields[k], propertyMap)
  {
    hide StrictField;
  }

  lemma FixedPart(f: Field, propertyMap: bool, shown: Json -> string)
    requires StrictField(f, propertyMap)
    ensures Fixed(f, propertyMap, shown) <==> ReduceField(f, propertyMap, shown) == Ok(Some(f))
    ensures ReduceField(f, propertyMap, shown).Ok? ==>
              ReduceField(f, propertyMap, shown).value.Some? && ReduceField(f, propertyMap, shown).value.value.name == f.name
  {
    hide Reduce, Strict;
  }

  lemma ClosedAgain(fields: seq<Field>)
    requires ObjectsClosed(fields)
    ensures Closed(fields) == Ok(Obj(fields))
  {
    if Get(fields, "type") == Some(Str("object")) {
      var additional := Field("additionalProperties", Bool(false));
      var required := Field("required", Arr(Strings(Names(Get(fields, "properties").value.fields))));
      PutSame(fields, additional);
      PutSame(fields, required);
    }
  }

  lemma WrittenBack(r: Json, propertyMap: bool, shown: Json -> string, k: nat)
    requires r.Obj? && Strict(r, propertyMap) && k < |r.fields| && Reduce(r, propertyMap, shown) == Ok(r)
    ensures Fixed(r.fields[k], propertyMap, shown)
  {
    hide Reduce, Strict;
    StrictParts(r, propertyMap);
    ReduceObj(r, propertyMap, shown);
    var parts := FieldParts(r, propertyMap, shown);
    var fs := AllFields(parts).value;
    forall i | 0 <= i < |parts| ensures Yields(parts[i], r.fields[i].name) {
      FixedPart(r.fields[i], propertyMap, shown);
    }
    var name := r.fields[k].name;
    LastWriteWins(parts, name, k);
    GetAt(r.fields, k);
    FixedPart(r.fields[k], propertyMap, shown);
    if !propertyMap && Get(fs, "type") == Some(Str("object")) {
      PutGetTwice(fs, Field("additionalProperties", Bool(false)),
                  Field("required", Arr(Strings(Names(Get(fs, "properties").value.fields)))), name);
      if name == "additionalProperties" || name == "required" {
        OverrideFixed(r.fields[k], Names(Get(fs, "properties").value.fields), shown);
      }
    }
  }

  lemma OverrideFixed(f: Field, names: seq<string>, shown: Json -> string)
    requires f == Field("additionalProperties", Bool(false)) || f == Field("required", Arr(Strings(names)))
    ensures Fixed(f, false, shown)
  {
    if f.name == "required" {
      ReduceArr(f.value, false, shown);
      assert forall i :: 0 <= i < |names| ==> ItemParts(f.value, shown)[i] == Ok(Strings(names)[i]);
      assert AllItems(ItemParts(f.value, shown)).value == Strings(names);
    }
  }
}
