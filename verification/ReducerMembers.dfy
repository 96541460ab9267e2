/** What the reduction makes of one object, member by member, and when it fails. */
module ReducerMembers {
  import opened Wrappers
  import opened Json
  import opened SchemaReducer
  import opened DictLaws
  import opened ReducerLaws
  import opened ReducerFixpoint

  /** The keywords that structured output does not know. */
  predicate Dropped(name: string) {
    name in {"$defs", "$ref", "$schema", "default", "format", "maxItems", "maxLength", "maxProperties", "maximum",
             "minContains", "minItems", "minLength", "minProperties", "minimum", "multipleOf", "pattern",
             "patternProperties", "propertyNames", "title", "unevaluatedItems", "unevaluatedProperties", "uniqueItems"}
  }

  lemma DroppedMeaning(name: string)
    ensures Unsupported(name) <==> Dropped(name)
  {
  }

  /** A description as text, cut after 1024 characters. */
  function Shortened(item: Json, shown: Json -> string): string {
    var s := if item.Str? then item.s else shown(item);
    s[..if |s| < 1024 then |s| else 1024]
  }

  /** What one member contributes under its own name. */
  ghost predicate Becomes(f: Field, shown: Json -> string, value: Json) {
    if f.name == "description" then value == Str(Shortened(f.value, shown))
    else Reduce(f.value, f.name == "properties", shown) == Ok(value)
  }

  lemma PartIs(f: Field, shown: Json -> string)
    ensures Dropped(f.name) ==> ReduceField(f, false, shown) == Ok(None)
    ensures f.name == "const" ==> ReduceField(f, false, shown) == Ok(Some(Field("enum", Arr([f.value]))))
    ensures !Dropped(f.name) && f.name != "const" && ReduceField(f, false, shown).Ok? ==>
              var part := ReduceField(f, false, shown).value;
              part.Some? && part.value.name == f.name && Becomes(f, shown, part.value.value)
    ensures f.name == "description" || (!Dropped(f.name) && f.name != "const") ==>
              (ReduceField(f, false, shown).Ok? <==>
                 f.name == "description" || Reduce(f.value, f.name == "properties", shown).Ok?)
  {
    hide Reduce, Unsupported, Dropped;
    DroppedMeaning(f.name);
    ConstIsKnown();
  }

  lemma ConstIsKnown()
    ensures !Dropped("const") && !Dropped("description") && !Dropped("type") && !Dropped("properties") && !Dropped("enum")
    ensures "const" != "enum" && "const" != "description"
  {
    assert "const"[0] == 'c' && "enum"[0] == 'e' && "description"[0] == 'd' && "properties"[0] == 'p' && "type"[0] == 't';
  }

  /** What the loop over the members has written before the object is closed. */
  lemma Filled(v: Json, shown: Json -> string, i: nat)
    requires v.Obj? && Distinct(v.fields) && AllFields(FieldParts(v, false, shown)).Ok? && i < |v.fields|
    ensures var f, fs := v.fields[i], AllFields(FieldParts(v, false, shown)).value;
            && ((Dropped(f.name) || f.name == "const") && f.name != "enum" ==> Get(fs, f.name) == None)
            && (!Dropped(f.name) && f.name != "const" && f.name != "enum" ==>
                  Get(fs, f.name).Some? && Becomes(f, shown, Get(fs, f.name).value))
  {
    hide Reduce, ReduceField, Dropped, Becomes, AllFields;
    var parts := FieldParts(v, false, shown);
    var f := v.fields[i];
    ConstIsKnown();
    forall j | 0 <= j < |parts| ensures parts[j] == ReduceField(v.fields[j], false, shown) && parts[j].Ok?
      ensures Yields(parts[j], f.name) && f.name != "enum" ==> j == i && !Dropped(f.name) && f.name != "const"
    {
      PartIs(v.fields[j], shown);
    }
    PartIs(f, shown);
    if f.name != "enum" {
      if Dropped(f.name) || f.name == "const" {
        NeverWritten(parts, f.name);
      } else {
        LastWriteWins(parts, f.name, i);
      }
    }
  }

  lemma Unfilled(v: Json, shown: Json -> string, name: string)
    requires v.Obj? && AllFields(FieldParts(v, false, shown)).Ok? && !Has(v.fields, name) && name != "enum"
    ensures Get(AllFields(FieldParts(v, false, shown)).value, name) == None
  {
    hide Reduce, ReduceField, Dropped, Becomes, AllFields;
    var parts := FieldParts(v, false, shown);
    forall j | 0 <= j < |parts| ensures !Yields(parts[j], name) {
      assert v.fields[j].name != name;
      assert parts[j] == ReduceField(v.fields[j], false, shown);
      PartIs(v.fields[j], shown);
    }
    NeverWritten(parts, name);
  }

  /** Of `enum` and `const` the later one decides. */
  lemma FilledEnum(v: Json, shown: Json -> string, i: nat)
    requires v.Obj? && AllFields(FieldParts(v, false, shown)).Ok? && i < |v.fields|
    requires v.fields[i].name == "enum" || v.fields[i].name == "const"
    requires forall j :: i < j < |v.fields| ==> v.fields[j].name != "enum" && v.fields[j].name != "const"
    ensures var fs := AllFields(FieldParts(v, false, shown)).value;
            && (v.fields[i].name == "const" ==> Get(fs, "enum") == Some(Arr([v.fields[i].value])))
            && (v.fields[i].name == "enum" ==> Get(fs, "enum").Some? && Becomes(v.fields[i], shown, Get(fs, "enum").value))
  {
    hide Reduce, ReduceField, Dropped, Becomes, AllFields;
    var parts := FieldParts(v, false, shown);
    ConstIsKnown();
    forall j | i <= j < |parts| ensures parts[j] == ReduceField(v.fields[j], false, shown) && parts[j].Ok?
      ensures Yields(parts[j], "enum") <==> j == i
    {
      PartIs(v.fields[j], shown);
    }
    PartIs(v.fields[i], shown);
    LastWriteWins(parts, "enum", i);
  }

  ghost predicate IsObjectSchema(fields: seq<Field>) {
    Get(fields, "type") == Some(Str("object"))
  }

  lemma TypeIsNoEnum()
    ensures "type" != "enum" && "type" != "const" && "type" != "description" && "type" != "properties"
    ensures "properties" != "enum" && "properties" != "const" && "properties" != "description"
    ensures "additionalProperties" != "required" && "additionalProperties" != "type" && "required" != "type"
    ensures "additionalProperties" != "properties" && "required" != "properties"
  {
    assert "type"[0] == 't' && "enum"[0] == 'e' && "const"[0] == 'c' && "description"[0] == 'd' && "properties"[0] == 'p';
    assert "additionalProperties"[0] == 'a' && "required"[0] == 'r';
  }

  lemma Overridden(fs: seq<Field>, name: string)
    requires Closed(fs).Ok?
    ensures Closed(fs).value.Obj?
    ensures IsObjectSchema(fs) ==> Get(fs, "properties").Some? && Get(fs, "properties").value.Obj?
    ensures Get(Closed(fs).value.fields, name) ==
              if IsObjectSchema(fs) && name == "additionalProperties" then Some(Bool(false))
              else if IsObjectSchema(fs) && name == "required"
              then Some(Arr(Strings(Names(Get(fs, "properties").value.fields))))
              else Get(fs, name)
  {
    if IsObjectSchema(fs) {
      var additional := Field("additionalProperties", Bool(false));
      var required := Field("required", Arr(Strings(Names(Get(fs, "properties").value.fields))));
      TypeIsNoEnum();
      PutGetTwice(fs, additional, required, name);
    }
  }

  /** What one name of the result holds, apart from the two members that closing writes. */
  ghost predicate Holds(fields: seq<Field>, name: string, r: Option<Json>, shown: Json -> string) {
    if !Has(fields, name) || Dropped(name) || name == "const" then r == None
    else r.Some? && Becomes(Field(name, Get(fields, name).value), shown, r.value)
  }

  lemma FilledName(v: Json, shown: Json -> string, name: string)
    requires v.Obj? && Distinct(v.fields) && AllFields(FieldParts(v, false, shown)).Ok? && name != "enum"
    ensures Holds(v.fields, name, Get(AllFields(FieldParts(v, false, shown)).value, name), shown)
  {
    hide Dropped, Becomes, FieldParts, AllFields, Reduce;
    if Has(v.fields, name) {
      var i := IndexOf(v.fields, name);
      Filled(v, shown, i);
    } else {
      Unfilled(v, shown, name);
    }
  }

  /** The list of names that `required` becomes. */
  ghost predicate NamesInOrder(r: Option<Json>, properties: seq<Field>) {
    r.Some? && r.value.Arr? && |r.value.items| == |properties|
    && forall i :: 0 <= i < |properties| ==> r.value.items[i] == Str(properties[i].name)
  }

  /**
   Every member of a reduced schema object: an object schema is closed and requires its properties in
   their order; dropped keywords and `const` are gone; a description is shortened; everything else is
   there exactly if it was, reduced on its own, `properties` as a map of names.
   */
  lemma MemberReduced(v: Json, shown: Json -> string, name: string)
    requires v.Obj? && WellFormed(v) && Reduce(v, false, shown).Ok? && name != "enum"
    ensures Reduce(v, false, shown).value.Obj?
    ensures IsObjectSchema(v.fields) ==> Get(v.fields, "properties").Some? && Get(v.fields, "properties").value.Obj?
    ensures var r := Get(Reduce(v, false, shown).value.fields, name);
            if IsObjectSchema(v.fields) && name == "additionalProperties" then r == Some(Bool(false))
            else if IsObjectSchema(v.fields) && name == "required"
            then NamesInOrder(r, Get(v.fields, "properties").value.fields)
            else Holds(v.fields, name, r, shown)
  {
    hide Holds, FieldParts, AllFields, Reduce, Closed, WellFormed, NamesInOrder;
    assert Distinct(v.fields) by { WellFormedParts(v, 0); }
    ReduceObj(v, false, shown);
    var fs := AllFields(FieldParts(v, false, shown)).value;
    TypeKept(v, shown);
    Overridden(fs, name);
    FilledName(v, shown, name);
    if IsObjectSchema(v.fields) {
      PropertyList(v, shown);
      NamesListed(Get(fs, "properties").value.fields, Get(v.fields, "properties").value.fields);
    }
  }

  lemma NamesListed(a: seq<Field>, b: seq<Field>)
    requires Names(a) == Names(b)
    ensures NamesInOrder(Some(Arr(Strings(Names(a)))), b)
  {
    forall i | 0 <= i < |b| ensures Strings(Names(a))[i] == Str(b[i].name) {
      assert Names(a)[i] == Names(b)[i];
    }
  }

  lemma WellFormedParts(v: Json, i: nat)
    requires v.Obj? && WellFormed(v)
    ensures Distinct(v.fields) && (i < |v.fields| ==> WellFormed(v.fields[i].value))
  {
  }

  /** Of `enum` and `const` the later one decides what `enum` holds; without either there is none. */
  lemma EnumReduced(v: Json, shown: Json -> string)
    requires v.Obj? && WellFormed(v) && Reduce(v, false, shown).Ok?
    ensures Reduce(v, false, shown).value.Obj?
    ensures var r := Get(Reduce(v, false, shown).value.fields, "enum");
            && (!Has(v.fields, "enum") && !Has(v.fields, "const") ==> r == None)
            && forall i :: 0 <= i < |v.fields| && (forall j :: i < j < |v.fields| ==> v.fields[j].name !in {"enum", "const"}) ==>
                 && (v.fields[i].name == "const" ==> r == Some(Arr([v.fields[i].value])))
                 && (v.fields[i].name == "enum" ==> r.Some? && Reduce(v.fields[i].value, false, shown) == Ok(r.value))
  {
    hide FieldParts, AllFields, Reduce, Closed, WellFormed;
    ReduceObj(v, false, shown);
    var fs := AllFields(FieldParts(v, false, shown)).value;
    Overridden(fs, "enum");
    EnumIsNotClosing();
    if !Has(v.fields, "enum") && !Has(v.fields, "const") {
      NoEnum(v, shown);
    }
    forall i | 0 <= i < |v.fields| && (forall j :: i < j < |v.fields| ==> v.fields[j].name !in {"enum", "const"})
      ensures v.fields[i].name == "const" ==> Get(fs, "enum") == Some(Arr([v.fields[i].value]))
      ensures v.fields[i].name == "enum" ==>
                Get(fs, "enum").Some? && Reduce(v.fields[i].value, false, shown) == Ok(Get(fs, "enum").value)
    {
      if v.fields[i].name == "enum" || v.fields[i].name == "const" { FilledEnum(v, shown, i); }
    }
  }

  lemma EnumIsNotClosing()
    ensures "enum" != "additionalProperties" && "enum" != "required" && "enum" != "description" && "enum" != "properties"
  {
    assert "enum"[0] == 'e' && "additionalProperties"[0] == 'a' && "required"[0] == 'r' && "description"[0] == 'd' && "properties"[0] == 'p';
  }

  lemma NoEnum(v: Json, shown: Json -> string)
    requires v.Obj? && AllFields(FieldParts(v, false, shown)).Ok? && !Has(v.fields, "enum") && !Has(v.fields, "const")
    ensures Get(AllFields(FieldParts(v, false, shown)).value, "enum") == None
  {
    hide Reduce, ReduceField, Dropped, Becomes, AllFields;
    var parts := FieldParts(v, false, shown);
    forall j | 0 <= j < |parts| ensures !Yields(parts[j], "enum") {
      assert v.fields[j].name != "enum" && v.fields[j].name != "const";
      assert parts[j] == ReduceField(v.fields[j], false, shown);
      PartIs(v.fields[j], shown);
    }
    NeverWritten(parts, "enum");
  }

  /** A schema object is reduced exactly if each member that is kept can be, and if it has its properties
      listed when it is an object schema; the only failure is that they are not. */
  lemma ReducesExactly(v: Json, shown: Json -> string)
    requires v.Obj? && WellFormed(v)
    ensures Reduce(v, false, shown).Ok? <==>
              && (forall i :: 0 <= i < |v.fields| && !Dropped(v.fields[i].name) && v.fields[i].name !in {"const", "description"} ==>
                    Reduce(v.fields[i].value, v.fields[i].name == "properties", shown).Ok?)
              && (IsObjectSchema(v.fields) ==> Get(v.fields, "properties").Some? && Get(v.fields, "properties").value.Obj?)
  {
    hide FieldParts, AllFields, Reduce, WellFormed, ReduceField, Dropped;
    ReduceObj(v, false, shown);
    WellFormedParts(v, 0);
    PartsSucceed(v, shown);
    if AllFields(FieldParts(v, false, shown)).Ok? {
      TypeKept(v, shown);
      ClosesExactly(v, shown);
    }
  }

  lemma PartsSucceed(v: Json, shown: Json -> string)
    requires v.Obj?
    ensures AllFields(FieldParts(v, false, shown)).Ok? <==>
              forall i :: 0 <= i < |v.fields| && !Dropped(v.fields[i].name) && v.fields[i].name !in {"const", "description"} ==>
                Reduce(v.fields[i].value, v.fields[i].name == "properties", shown).Ok?
  {
    hide AllFields, Reduce, ReduceField, Dropped;
    forall i | 0 <= i < |v.fields|
      ensures FieldParts(v, false, shown)[i].Ok? <==>
                (!Dropped(v.fields[i].name) && v.fields[i].name !in {"const", "description"} ==>
                   Reduce(v.fields[i].value, v.fields[i].name == "properties", shown).Ok?)
    {
      assert FieldParts(v, false, shown)[i] == ReduceField(v.fields[i], false, shown);
      ConstIsKnown();
      PartIs(v.fields[i], shown);
    }
  }

  lemma ClosesExactly(v: Json, shown: Json -> string)
    requires v.Obj? && Distinct(v.fields) && AllFields(FieldParts(v, false, shown)).Ok?
    ensures var fs := AllFields(FieldParts(v, false, shown)).value;
            Get(fs, "properties").Some? && Get(fs, "properties").value.Obj?
            <==> Get(v.fields, "properties").Some? && Get(v.fields, "properties").value.Obj?
  {
    hide FieldParts, AllFields, Reduce, Dropped;
    TypeIsNoEnum();
    ConstIsKnown();
    if Has(v.fields, "properties") {
      var i := IndexOf(v.fields, "properties");
      Filled(v, shown, i);
      ReducedKind(v.fields[i].value, true, shown);
    } else {
      Unfilled(v, shown, "properties");
    }
  }

  lemma {:induction false} OnlyFailure(v: Json, propertyMap: bool, shown: Json -> string)
    ensures Reduce(v, propertyMap, shown).Err? ==> Reduce(v, propertyMap, shown).error == ExplicitPropertiesRequired
    decreases v
  {
    if v.Arr? {
      ReduceArr(v, propertyMap, shown);
      if AllItems(ItemParts(v, shown)).Err? {
        var i := ItemError(ItemParts(v, shown));
        OnlyFailure(v.items[i], false, shown);
      }
    } else if v.Obj? {
      ReduceObj(v, propertyMap, shown);
      if AllFields(FieldParts(v, propertyMap, shown)).Err? {
        var i := FieldError(FieldParts(v, propertyMap, shown));
        OnlyFailure(v.fields[i].value, !propertyMap && v.fields[i].name == "properties", shown);
        FailedPart(v.fields[i], propertyMap, shown);
      }
    }
  }

  lemma FailedPart(f: Field, propertyMap: bool, shown: Json -> string)
    requires ReduceField(f, propertyMap, shown).Err?
    ensures Reduce(f.value, !propertyMap && f.name == "properties", shown) == Err(ReduceField(f, propertyMap, shown).error)
  {
    hide Reduce, Unsupported;
  }

  /** The properties of a filled object schema are those of the original, in order. */
  lemma PropertyList(v: Json, shown: Json -> string)
    requires v.Obj? && WellFormed(v) && AllFields(FieldParts(v, false, shown)).Ok?
    requires Get(AllFields(FieldParts(v, false, shown)).value, "properties").Some?
    requires Get(AllFields(FieldParts(v, false, shown)).value, "properties").value.Obj?
    ensures Get(v.fields, "properties").Some? && Get(v.fields, "properties").value.Obj?
    ensures Names(Get(AllFields(FieldParts(v, false, shown)).value, "properties").value.fields)
              == Names(Get(v.fields, "properties").value.fields)
  {
    hide Dropped, FieldParts, AllFields, Reduce, WellFormed;
    WellFormedParts(v, 0);
    TypeIsNoEnum();
    ConstIsKnown();
    if !Has(v.fields, "properties") {
      Unfilled(v, shown, "properties");
    }
    var i := IndexOf(v.fields, "properties");
    Filled(v, shown, i);
    ReducedKind(v.fields[i].value, true, shown);
    WellFormedParts(v, i);
    WellFormedParts(v.fields[i].value, 0);
    PropertyNamesKept(v.fields[i].value, shown);
  }
}
