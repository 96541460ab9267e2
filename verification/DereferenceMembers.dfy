/** What inlining makes of one reference and of one object, member by member. */
module DereferenceMembers {
  import opened Wrappers
  import opened Text
  import opened Json
  import opened SchemaReducer
  import opened DictLaws
  import opened DereferenceLaws
  import opened TextMeaning

  /** A reference is text that begins with `#/$defs/`; the rest names a definition, which must be an object. */
  lemma ReferenceMeaning(reference: Json, defs: seq<Field>, name: string)
    ensures !(reference.Str? && exists rest :: reference.s == "#/$defs/" + rest) ==> Target(reference, defs) == Err(UnsupportedReference)
    ensures reference == Str("#/$defs/" + name) ==>
              Target(reference, defs) == match Get(defs, name)
                                         case None => Err(UnknownDefinition)
                                         case Some(Obj(fields)) => Ok(fields)
                                         case Some(_) => Err(NotAnObject)
  {
    if reference.Str? { StartsWithMeaning(reference.s, "#/$defs/"); }
    if reference == Str("#/$defs/" + name) {
      assert ("#/$defs/" + name)[..8] == "#/$defs/";
      assert ("#/$defs/" + name)[8..] == name;
    }
  }

  lemma {:induction false} SiblingNames(fields: seq<Field>)
    requires Distinct(fields)
    ensures Distinct(Siblings(fields))
  {
    if fields != [] {
      SiblingNames(fields[1..]);
      SiblingsIn(fields[1..]);
      var rest := Siblings(fields[1..]);
      forall i | 0 <= i < |rest| ensures rest[i].name != fields[0].name {
        assert rest[i] in fields[1..];
      }
    }
  }

  /** Looking a name up from the last member backwards. */
  lemma LastGet(more: seq<Field>, name: string)
    requires Distinct(more) && more != []
    ensures var last := |more| - 1;
            && Distinct(more[..last])
            && (Has(more, name) <==> more[last].name == name || Has(more[..last], name))
            && Get(more, name) == (if more[last].name == name then Some(more[last].value) else Get(more[..last], name))
  {
    hide Get;
    var last := |more| - 1;
    if more[last].name == name {
      GetAt(more, last);
    } else if Has(more[..last], name) {
      var i := IndexOf(more[..last], name);
      assert more[i] == more[..last][i];
      GetAt(more, i);
    }
  }

  lemma {:induction false} UpdateGet(fields: seq<Field>, more: seq<Field>, name: string)
    requires Distinct(more)
    ensures Get(Update(fields, more), name) == if Has(more, name) then Get(more, name) else Get(fields, name)
  {
    hide Get, Distinct, Put;
    if more != [] {
      var last := |more| - 1;
      LastGet(more, name);
      UpdateGet(fields, more[..last], name);
      PutGet(Update(fields, more[..last]), more[last], name);
    }
  }

  /** What a reference unfolds to: every sibling as it stands beside the reference, and the definition's
      own members wherever there is no sibling of that name. */
  lemma UnfoldedMember(v: Json, defs: seq<Field>, name: string)
    requires v.Obj? && Distinct(v.fields) && Has(v.fields, "$ref") && Target(Get(v.fields, "$ref").value, defs).Ok?
    ensures Merged(v, defs).Obj?
    ensures Get(Merged(v, defs).fields, name)
         == if name != "$ref" && Has(v.fields, name) then Get(v.fields, name)
            else Get(Target(Get(v.fields, "$ref").value, defs).value, name)
  {
    hide Target, Get;
    var siblings := Siblings(v.fields);
    SiblingNames(v.fields);
    SiblingsIn(v.fields);
    UpdateGet(Target(Get(v.fields, "$ref").value, defs).value, siblings, name);
    if Has(siblings, name) {
      var i := IndexOf(siblings, name);
      assert siblings[i] in v.fields;
      var j :| 0 <= j < |v.fields| && v.fields[j] == siblings[i];
      GetAt(v.fields, j);
      GetAt(siblings, i);
    } else if Has(v.fields, name) && name != "$ref" {
      var j := IndexOf(v.fields, name);
    }
  }

  /** An object with a reference is what it unfolds to, one level deeper; a bad reference fails as such. */
  lemma ReferenceInlined(v: Json, defs: seq<Field>, depth: nat)
    requires v.Obj? && Has(v.fields, "$ref")
    ensures Dereference(v, defs, depth) ==
              match Target(Get(v.fields, "$ref").value, defs)
              case Err(e) => Err(e)
              case Ok(_) => if depth == 0 then Err(TooDeep) else Dereference(Merged(v, defs), defs, depth - 1)
  {
    if Target(Get(v.fields, "$ref").value, defs).Ok? && depth > 0 {
      UnfoldsOnce(v, defs, depth);
    }
  }

  /** An object without one is inlined exactly if every member other than `$defs` is. */
  lemma MembersSucceed(v: Json, defs: seq<Field>, depth: nat)
    requires v.Obj? && !Has(v.fields, "$ref")
    ensures Dereference(v, defs, depth).Ok? <==>
              forall i :: 0 <= i < |v.fields| && v.fields[i].name != "$defs" ==> Dereference(v.fields[i].value, defs, depth).Ok?
  {
    ObjSteps(v, defs, depth);
    hide Dereference, AllFields;
    var parts := Members(v, defs, depth);
    forall i | 0 <= i < |v.fields|
      ensures parts[i].Ok? <==> (v.fields[i].name != "$defs" ==> Dereference(v.fields[i].value, defs, depth).Ok?)
    {
      assert parts[i] == DereferenceField(v.fields[i], defs, depth);
    }
  }
}
