/** Reducing a reduced schema: a fixed point exactly when every `const` that survives is plain. */
module ReducerFixpoint {
  import opened Wrappers
  import opened Json
  import opened SchemaReducer
  import opened SchemaMeaning
  import opened DictLaws
  import opened ReducerLaws

  /** Member `i` leaves no trace in the result: a later `const` or `enum` takes its place, or an
      object schema's own `additionalProperties` or `required` does. */
  ghost predicate Overwritten(fields: seq<Field>, propertyMap: bool, i: nat)
    requires i < |fields|
  {
    !propertyMap &&
    (|| (fields[i].name == "const" && exists j :: i < j < |fields| && fields[j].name == "enum")
     || (fields[i].name == "enum" && exists j :: i < j < |fields| && fields[j].name == "const")
     || (Get(fields, "type") == Some(Str("object"))
         && (fields[i].name == "additionalProperties" || fields[i].name == "required")))
  }

  // ---- Data the reduction leaves alone --------------------------------------------------

  /** Read as a schema, every object in this value has no unsupported keyword and no `const`, any
      description is a string within the limit, and an object typed "object" lists its properties,
      allows no others and requires all of them. */
  ghost predicate Untouched(v: Json, propertyMap: bool)
    decreases v, 0
  {
    match v
    case Arr(items) => forall i :: 0 <= i < |items| ==> Untouched(items[i], false)
    case Obj(fields) =>
      && (propertyMap || ObjectsClosed(fields))
      && forall i :: 0 <= i < |fields| ==> UntouchedField(fields[i], propertyMap)
    case _ => true
  }

  ghost predicate UntouchedField(f: Field, propertyMap: bool)
    decreases f.value, 1
  {
    if propertyMap then Untouched(f.value, false) else
    && !Unsupported(f.name) && f.name != "const"
    && if f.name == "description" then f.value.Str? && |f.value.s| <= MAX_DESCRIPTION
       else Untouched(f.value, f.name == "properties")
  }

  /** Such a value is strict. */
  lemma {:induction false} UntouchedIsStrict(v: Json, propertyMap: bool)
    requires WellFormed(v) && Untouched(v, propertyMap)
    ensures Strict(v, propertyMap)
    decreases v
  {
    match v
    case Arr(items) =>
      forall i | 0 <= i < |items| ensures Strict(items[i], false) {
        UntouchedIsStrict(items[i], false);
      }
    case Obj(fields) =>
      hide Unsupported;
      forall i | 0 <= i < |fields| ensures StrictField(fields[i], propertyMap) {
        assert UntouchedField(fields[i], propertyMap) && WellFormed(fields[i].value);
        if propertyMap || fields[i].name != "description" {
          UntouchedIsStrict(fields[i].value, !propertyMap && fields[i].name == "properties");
        }
      }
    case _ =>
  }

  /** The reduction leaves a value alone if and only if it has that shape. */
  lemma {:induction false} UntouchedExactly(v: Json, propertyMap: bool, shown: Json -> string)
    requires WellFormed(v)
    ensures Reduce(v, propertyMap, shown) == Ok(v) <==> Untouched(v, propertyMap)
    decreases v
  {
    match v
    case Arr(items) =>
      ArrFixed(v, propertyMap, shown);
      forall i | 0 <= i < |items| ensures Reduce(items[i], false, shown) == Ok(items[i]) <==> Untouched(items[i], false) {
        UntouchedExactly(items[i], false, shown);
      }
    case Obj(fields) =>
      if Reduce(v, propertyMap, shown) == Ok(v) {
        ReducesToStrict(v, propertyMap, shown);
      }
      if Untouched(v, propertyMap) {
        UntouchedIsStrict(v, propertyMap);
      }
      assert forall i :: 0 <= i < |fields| ==> WellFormed(fields[i].value);
      hide Reduce, WellFormed, Strict, StrictField, Unsupported;
      if Strict(v, propertyMap) {
        FixedExactly(v, propertyMap, shown);
        StrictParts(v, propertyMap);
        forall i | 0 <= i < |fields| ensures Fixed(fields[i], propertyMap, shown) <==> UntouchedField(fields[i], propertyMap) {
          UntouchedExactly(fields[i].value, !propertyMap && fields[i].name == "properties", shown);
          FixedField(fields[i], propertyMap, shown);
        }
        UntouchedParts(v, propertyMap);
      }
    case _ =>
  }

  lemma UntouchedParts(v: Json, propertyMap: bool)
    requires v.Obj? && (propertyMap || ObjectsClosed(v.fields))
    ensures Untouched(v, propertyMap) <==> forall i :: 0 <= i < |v.fields| ==> UntouchedField(v.fields[i], propertyMap)
  {
    hide UntouchedField;
  }

  lemma FixedField(f: Field, propertyMap: bool, shown: Json -> string)
    requires StrictField(f, propertyMap)
    requires var flag := !propertyMap && f.name == "properties";
             Reduce(f.value, flag, shown) == Ok(f.value) <==> Untouched(f.value, flag)
    ensures Fixed(f, propertyMap, shown) <==> UntouchedField(f, propertyMap)
  {
    hide Reduce, Untouched, Strict, Unsupported;
  }

  // ---- The condition --------------------------------------------------------------------

  /** Every `const` that reaches the result holds a value of that shape. */
  ghost predicate ConstsStable(v: Json, propertyMap: bool)
    decreases v, 0
  {
    match v
    case Arr(items) => forall i :: 0 <= i < |items| ==> ConstsStable(items[i], false)
    case Obj(fields) => forall i :: 0 <= i < |fields| && !Overwritten(fields, propertyMap, i) ==>
        StableField(v.fields[i], propertyMap)
    case _ => true
  }

  ghost predicate StableField(f: Field, propertyMap: bool)
    decreases f.value, 1
  {
    if propertyMap then ConstsStable(f.value, false)
    else if Unsupported(f.name) || f.name == "description" then true
    else if f.name == "const" then Untouched(f.value, false)
    else ConstsStable(f.value, f.name == "properties")
  }

  lemma ArrFixed(r: Json, propertyMap: bool, shown: Json -> string)
    requires r.Arr?
    ensures Reduce(r, propertyMap, shown) == Ok(r)
       <==> forall i :: 0 <= i < |r.items| ==> Reduce(r.items[i], false, shown) == Ok(r.items[i])
  {
    hide Reduce;
    ReduceArr(r, propertyMap, shown);
    var parts := ItemParts(r, shown);
    assert forall i :: 0 <= i < |parts| ==> parts[i] == Reduce(r.items[i], false, shown);
    if AllItems(parts).Ok? {
      assert AllItems(parts).value == r.items <==> forall i :: 0 <= i < |parts| ==> AllItems(parts).value[i] == r.items[i];
    }
  }

  lemma ConstFixed(c: Json, shown: Json -> string)
    ensures Fixed(Field("enum", Arr([c])), false, shown) <==> Reduce(c, false, shown) == Ok(c)
  {
    ArrFixed(Arr([c]), false, shown);
    assert Arr([c]).items[0] == c;
  }

  /** The result's `type` is "object" exactly when the source's is. */
  lemma TypeKept(v: Json, shown: Json -> string)
    requires v.Obj? && Distinct(v.fields) && AllFields(FieldParts(v, false, shown)).Ok?
    ensures Get(AllFields(FieldParts(v, false, shown)).value, "type") == Some(Str("object"))
       <==> Get(v.fields, "type") == Some(Str("object"))
  {
    var parts := FieldParts(v, false, shown);
    TypeIsKept();
    if Has(v.fields, "type") {
      var i := IndexOf(v.fields, "type");
      assert parts[i] == ReduceField(v.fields[i], false, shown);
      assert parts[i] == Named("type", Reduce(v.fields[i].value, false, shown));
      hide Unsupported;
      LastWriteWins(parts, "type", i);
      ReducedKind(v.fields[i].value, false, shown);
    } else {
      hide Unsupported, Reduce;
      NeverWritten(parts, "type");
    }
  }

  lemma TypeIsKept()
    ensures !Unsupported("type") && !Unsupported("enum") && !Unsupported("const")
  {
  }

  /** What a member becomes, when it is neither dropped nor overwritten, is in the result. */
  lemma Survives(v: Json, propertyMap: bool, shown: Json -> string, i: nat)
    requires v.Obj? && Distinct(v.fields) && Reduce(v, propertyMap, shown).Ok? && i < |v.fields|
    requires !Overwritten(v.fields, propertyMap, i)
    ensures ReduceField(v.fields[i], propertyMap, shown).Ok?
    ensures Reduce(v, propertyMap, shown).value.Obj?
    ensures var image := ReduceField(v.fields[i], propertyMap, shown).value;
            image.Some? ==> image.value in Reduce(v, propertyMap, shown).value.fields
  {
    ReduceObj(v, propertyMap, shown);
    hide Reduce, Unsupported;
    var parts := FieldParts(v, propertyMap, shown);
    var fs := AllFields(parts).value;
    assert parts[i] == ReduceField(v.fields[i], propertyMap, shown);
    if parts[i].value.Some? {
      var image := parts[i].value.value;
      NotRewritten(v, propertyMap, shown, i);
      LastWriteWins(parts, image.name, i);
      assert Get(fs, image.name) == Some(image.value);
      if !propertyMap && Get(fs, "type") == Some(Str("object")) {
        TypeKept(v, shown);
        ImageName(v.fields[i], shown);
        PutGetTwice(fs, Field("additionalProperties", Bool(false)),
                    Field("required", Arr(Strings(Names(Get(fs, "properties").value.fields)))), image.name);
      }
    }
  }

  /** Only `const` changes its name. */
  lemma ImageName(f: Field, shown: Json -> string)
    requires ReduceField(f, false, shown).Ok? && ReduceField(f, false, shown).value.Some?
    ensures var image := ReduceField(f, false, shown).value.value;
            (f.name == "const" && image == Field("enum", Arr([f.value]))) || (f.name != "const" && image.name == f.name)
  {
    TypeIsKept();
    hide Reduce, Unsupported;
  }

  lemma NotRewritten(v: Json, propertyMap: bool, shown: Json -> string, i: nat)
    requires v.Obj? && Distinct(v.fields) && AllFields(FieldParts(v, propertyMap, shown)).Ok? && i < |v.fields|
    requires !Overwritten(v.fields, propertyMap, i) && FieldParts(v, propertyMap, shown)[i].value.Some?
    ensures forall j :: i < j < |v.fields| ==>
              !Yields(FieldParts(v, propertyMap, shown)[j], FieldParts(v, propertyMap, shown)[i].value.value.name)
  {
    hide Reduce, Unsupported;
    var parts := FieldParts(v, propertyMap, shown);
    if !propertyMap {
      ImageName(v.fields[i], shown);
      forall j | i < j < |v.fields| ensures !Yields(parts[j], parts[i].value.value.name) {
        if parts[j].value.Some? {
          ImageName(v.fields[j], shown);
        }
      }
    }
  }

  /** Written by `Closed` into an object schema. */
  ghost predicate Override(f: Field, source: seq<Field>, final: seq<Field>) {
    Get(source, "type") == Some(Str("object")) &&
    (f == Field("additionalProperties", Bool(false)) || f == Field("required", Arr(Strings(Names(Declared(final))))))
  }

  /** Every member of the result is an override of `Closed` or the image of a member that was not overwritten. */
  lemma SourceOf(v: Json, propertyMap: bool, shown: Json -> string, k: nat) returns (i: nat)
    requires v.Obj? && Distinct(v.fields) && Reduce(v, propertyMap, shown).Ok?
    requires Reduce(v, propertyMap, shown).value.Obj? && k < |Reduce(v, propertyMap, shown).value.fields|
    requires Distinct(Reduce(v, propertyMap, shown).value.fields)
    ensures var f := Reduce(v, propertyMap, shown).value.fields[k];
            || (!propertyMap && Override(f, v.fields, Reduce(v, propertyMap, shown).value.fields))
            || (i < |v.fields| && !Overwritten(v.fields, propertyMap, i)
                && ReduceField(v.fields[i], propertyMap, shown) == Ok(Some(f)))
  {
    ReduceObj(v, propertyMap, shown);
    hide Reduce, Unsupported;
    var parts := FieldParts(v, propertyMap, shown);
    var fs := AllFields(parts).value;
    var final := Reduce(v, propertyMap, shown).value.fields;
    var f := final[k];
    GetAt(final, k);
    i := 0;
    if !propertyMap {
      TypeKept(v, shown);
      if Get(fs, "type") == Some(Str("object")) {
        var names := Names(Get(fs, "properties").value.fields);
        PutGetTwice(fs, Field("additionalProperties", Bool(false)), Field("required", Arr(Strings(names))), f.name);
        PutGetTwice(fs, Field("additionalProperties", Bool(false)), Field("required", Arr(Strings(names))), "properties");
        if f.name == "additionalProperties" || f.name == "required" {
          return;
        }
      }
    }
    assert Get(fs, f.name) == Some(f.value);
    i := WrittenBy(parts, f.name);
    assert parts[i] == ReduceField(v.fields[i], propertyMap, shown);
    NotOverwritten(v, propertyMap, shown, i);
  }

  lemma NotOverwritten(v: Json, propertyMap: bool, shown: Json -> string, i: nat)
    requires v.Obj? && AllFields(FieldParts(v, propertyMap, shown)).Ok? && i < |v.fields|
    requires FieldParts(v, propertyMap, shown)[i].value.Some?
    requires var name := FieldParts(v, propertyMap, shown)[i].value.value.name;
             && (forall j :: i < j < |v.fields| ==> !Yields(FieldParts(v, propertyMap, shown)[j], name))
             && (!propertyMap && Get(v.fields, "type") == Some(Str("object")) ==>
                   name != "additionalProperties" && name != "required")
    ensures !Overwritten(v.fields, propertyMap, i)
  {
    hide Reduce, Unsupported;
    TypeIsKept();
    var parts := FieldParts(v, propertyMap, shown);
    if !propertyMap {
      ImageName(v.fields[i], shown);
      forall j | i < j < |v.fields| ensures v.fields[j].name == "const" || v.fields[j].name == "enum" ==> Yields(parts[j], "enum") {
        assert parts[j] == ReduceField(v.fields[j], false, shown);
        assert parts[j].Ok?;
        if parts[j].value.Some? {
          ImageName(v.fields[j], shown);
        }
      }
    }
  }

  /** Reducing twice is reducing once exactly when every surviving `const` holds an untouched value. */
  lemma {:induction false} ReducedAgain(v: Json, propertyMap: bool, shown: Json -> string)
    requires WellFormed(v) && Reduce(v, propertyMap, shown).Ok?
    ensures Reduce(Reduce(v, propertyMap, shown).value, propertyMap, shown) == Ok(Reduce(v, propertyMap, shown).value)
       <==> ConstsStable(v, propertyMap)
    decreases v, 0
  {
    var r := Reduce(v, propertyMap, shown).value;
    ReducedKind(v, propertyMap, shown);
    match v
    case Arr(items) =>
      ArrFixed(r, propertyMap, shown);
      forall i | 0 <= i < |items|
        ensures Reduce(r.items[i], false, shown) == Ok(r.items[i]) <==> ConstsStable(items[i], false)
      {
        ReducedItem(v, propertyMap, shown, i);
        ReducedAgain(items[i], false, shown);
      }
    case Obj(fields) =>
      ReducesToStrict(v, propertyMap, shown);
      FixedExactly(r, propertyMap, shown);
      assert Distinct(r.fields);
      assert forall i :: 0 <= i < |fields| ==> WellFormed(fields[i].value);
      hide Reduce, Strict, Fixed, StableField, Overwritten, WellFormed, Unsupported;
      forall k | 0 <= k < |r.fields| && ConstsStable(v, propertyMap) ensures Fixed(r.fields[k], propertyMap, shown) {
        var i := SourceOf(v, propertyMap, shown, k);
        if !propertyMap && Override(r.fields[k], fields, r.fields) {
          OverrideFixed(r.fields[k], Names(Declared(r.fields)), shown);
        } else {
          FieldAgain(v.fields[i], propertyMap, shown);
        }
      }
      forall i | 0 <= i < |fields| && !Overwritten(fields, propertyMap, i)
        && (forall k :: 0 <= k < |r.fields| ==> Fixed(r.fields[k], propertyMap, shown))
        ensures StableField(v.fields[i], propertyMap)
      {
        Survives(v, propertyMap, shown, i);
        FieldAgain(v.fields[i], propertyMap, shown);
      }
    case _ =>
  }

  lemma FieldAgain(f: Field, propertyMap: bool, shown: Json -> string)
    requires WellFormed(f.value) && ReduceField(f, propertyMap, shown).Ok?
    ensures ReduceField(f, propertyMap, shown).value.None? ==> StableField(f, propertyMap)
    ensures ReduceField(f, propertyMap, shown).value.Some? ==>
              (Fixed(ReduceField(f, propertyMap, shown).value.value, propertyMap, shown)
               <==> StableField(f, propertyMap))
    decreases f.value, 1
  {
    TypeIsKept();
    hide Reduce, WellFormed, Unsupported, ConstsStable;
    if propertyMap {
      ReducedAgain(f.value, false, shown);
    } else if Unsupported(f.name) || f.name == "description" {
    } else if f.name == "const" {
      ConstFixed(f.value, shown);
      UntouchedExactly(f.value, false, shown);
    } else {
      ReducedAgain(f.value, f.name == "properties", shown);
    }
  }

  // ---- Two samples ----------------------------------------------------------------------

  ghost predicate ObjectFree(v: Json) {
    !v.Obj? && (v.Arr? ==> forall i :: 0 <= i < |v.items| ==> ObjectFree(v.items[i]))
  }

  lemma {:induction false} ObjectFreeUnchanged(v: Json, propertyMap: bool, shown: Json -> string)
    requires ObjectFree(v)
    ensures Reduce(v, propertyMap, shown) == Ok(v)
  {
    if v.Arr? {
      forall i | 0 <= i < |v.items| ensures Reduce(v.items[i], false, shown) == Ok(v.items[i]) {
        ObjectFreeUnchanged(v.items[i], false, shown);
      }
      ArrFixed(v, propertyMap, shown);
    }
  }

  /** A `const` that holds an object with a member spelled like a keyword: the second reduction
      drops the member from the `enum`, so the result changes. */
  lemma ObjectConstIsTouched(shown: Json -> string)
    ensures var v := Obj([Field("const", Obj([Field("title", Str("x"))]))]);
            Reduce(v, false, shown) == Ok(Obj([Field("enum", Arr([Obj([Field("title", Str("x"))])]))]))
            && Reduce(Reduce(v, false, shown).value, false, shown) != Reduce(v, false, shown)
  {
    var inner := Obj([Field("title", Str("x"))]);
    var v := Obj([Field("const", inner)]);
    TitleDropped(inner, shown);
    TypeIsKept();
    ReduceObj(v, false, shown);
    var parts := FieldParts(v, false, shown);
    assert parts == [Ok(Some(Field("enum", Arr([inner]))))];
    assert parts[..0] == [];
    ReducedAgain(v, false, shown);
    assert !Overwritten(v.fields, false, 0);
    assert !StableField(v.fields[0], false);
  }

  lemma TitleDropped(inner: Json, shown: Json -> string)
    requires inner == Obj([Field("title", Str("x"))])
    ensures Reduce(inner, false, shown) == Ok(Obj([]))
  {
    ReduceObj(inner, false, shown);
    var parts := FieldParts(inner, false, shown);
    assert parts == [Ok(None)];
    assert parts[..0] == [];
  }
}
