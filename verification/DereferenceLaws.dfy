/** Inlining references: it ends on acyclic definitions, leaves no reference and keeps the meaning. */
module DereferenceLaws {
  import opened Wrappers
  import opened Json
  import opened SchemaReducer
  import opened SchemaMeaning
  import opened DictLaws

  function Items(v: Json, defs: seq<Field>, depth: nat): seq<Result<Json, Error>>
    requires v.Arr?
  {
    seq(|v.items|, i requires 0 <= i < |v.items| => Dereference(v.items[i], defs, depth))
  }

  function Members(v: Json, defs: seq<Field>, depth: nat): Parts
    requires v.Obj?
  {
    seq(|v.fields|, i requires 0 <= i < |v.fields| => DereferenceField(v.fields[i], defs, depth))
  }

  lemma ArrSteps(v: Json, defs: seq<Field>, depth: nat)
    requires v.Arr?
    ensures Dereference(v, defs, depth) == match AllItems(Items(v, defs, depth))
                                           case Ok(js) => Ok(Arr(js))
                                           case Err(e) => Err(e)
  {
    assert Items(v, defs, depth)
        == seq(|v.items|, i requires 0 <= i < |v.items| => Dereference(v.items[i], defs, depth));
  }

  lemma ObjSteps(v: Json, defs: seq<Field>, depth: nat)
    requires v.Obj? && !Has(v.fields, "$ref")
    ensures Dereference(v, defs, depth) == match AllFields(Members(v, defs, depth))
                                           case Ok(fs) => Ok(Obj(fs))
                                           case Err(e) => Err(e)
  {
    assert Members(v, defs, depth)
        == seq(|v.fields|, i requires 0 <= i < |v.fields| => DereferenceField(v.fields[i], defs, depth));
  }

  function Merged(v: Json, defs: seq<Field>): Json
    requires v.Obj? && Has(v.fields, "$ref") && Target(Get(v.fields, "$ref").value, defs).Ok?
  {
    Obj(Update(Target(Get(v.fields, "$ref").value, defs).value, Siblings(v.fields)))
  }

  lemma UnfoldsOnce(v: Json, defs: seq<Field>, depth: nat)
    requires v.Obj? && Has(v.fields, "$ref") && Target(Get(v.fields, "$ref").value, defs).Ok? && depth > 0
    ensures Dereference(v, defs, depth) == Dereference(Merged(v, defs), defs, depth - 1)
  {
  }

  // ---- No reference is left -------------------------------------------------------------

  ghost predicate ReferenceFree(v: Json) {
    match v
    case Arr(items) => forall i :: 0 <= i < |items| ==> ReferenceFree(items[i])
    case Obj(fields) => forall i :: 0 <= i < |fields| ==>
        fields[i].name != "$ref" && fields[i].name != "$defs" && ReferenceFree(fields[i].value)
    case _ => true
  }

  lemma {:induction false} NoReferenceLeft(v: Json, defs: seq<Field>, depth: nat)
    requires Dereference(v, defs, depth).Ok?
    ensures ReferenceFree(Dereference(v, defs, depth).value)
    decreases depth, v
  {
    match v
    case Arr(items) =>
      ArrSteps(v, defs, depth);
      forall i | 0 <= i < |items| ensures ReferenceFree(Items(v, defs, depth)[i].value) {
        NoReferenceLeft(items[i], defs, depth);
      }
    case Obj(fields) =>
      if Has(fields, "$ref") {
        NoReferenceLeft(Merged(v, defs), defs, depth - 1);
      } else {
        ObjSteps(v, defs, depth);
        var parts := Members(v, defs, depth);
        forall i | 0 <= i < |fields| && fields[i].name != "$defs" ensures ReferenceFree(parts[i].value.value.value) {
          NoReferenceLeft(fields[i].value, defs, depth);
        }
        FilledFree(v, defs, depth);
      }
    case _ =>
  }

  lemma FilledFree(v: Json, defs: seq<Field>, depth: nat)
    requires v.Obj? && !Has(v.fields, "$ref") && AllFields(Members(v, defs, depth)).Ok?
    requires forall i :: 0 <= i < |v.fields| && v.fields[i].name != "$defs" ==>
               ReferenceFree(Members(v, defs, depth)[i].value.value.value)
    ensures ReferenceFree(Obj(AllFields(Members(v, defs, depth)).value))
  {
    hide Dereference;
    var parts := Members(v, defs, depth);
    var fs := AllFields(parts).value;
    FilledDistinct(parts);
    forall k | 0 <= k < |fs|
      ensures fs[k].name != "$ref" && fs[k].name != "$defs" && ReferenceFree(fs[k].value)
    {
      var i := WrittenBy(parts, fs[k].name);
      GetAt(fs, k);
      assert parts[i] == DereferenceField(v.fields[i], defs, depth);
    }
  }

  // ---- Termination ----------------------------------------------------------------------

  /** How many references unfolding `v` takes, when definitions only refer to definitions of lower rank. */
  ghost function Need(v: Json, defs: seq<Field>, rank: string -> nat, bound: nat): nat
    decreases bound, v, 1
  {
    match v
    case Arr(items) => Most(seq(|items|, i requires 0 <= i < |items| => Need(v.items[i], defs, rank, bound)))
    case Obj(fields) =>
      Most(seq(|fields|, i requires 0 <= i < |fields| => Need(v.fields[i].value, defs, rank, bound)))
      + NeedHere(fields, defs, rank, bound)
    case _ => 0
  }

  ghost function NeedHere(fields: seq<Field>, defs: seq<Field>, rank: string -> nat, bound: nat): nat
    decreases bound, Obj(fields), 0
  {
    match Get(fields, "$ref")
    case None => 0
    case Some(reference) =>
      if Target(reference, defs).Ok? && rank(Name(reference)) < bound
      then 1 + Need(Obj(Target(reference, defs).value), defs, rank, rank(Name(reference)))
      else 0
  }

  ghost function Needs(fields: seq<Field>, defs: seq<Field>, rank: string -> nat, bound: nat): seq<nat> {
    seq(|fields|, i requires 0 <= i < |fields| => Need(fields[i].value, defs, rank, bound))
  }

  function Name(reference: Json): string {
    if reference.Str? && |reference.s| >= |DEFS_PREFIX| then reference.s[|DEFS_PREFIX|..] else ""
  }

  function Most(ns: seq<nat>): nat {
    if ns == [] then 0 else
    var front := Most(ns[..|ns| - 1]);
    if ns[|ns| - 1] > front then ns[|ns| - 1] else front
  }

  /** Every reference in `v` that names a definition names one of rank below `bound`. */
  ghost predicate Below(v: Json, defs: seq<Field>, rank: string -> nat, bound: nat) {
    match v
    case Arr(items) => forall i :: 0 <= i < |items| ==> Below(items[i], defs, rank, bound)
    case Obj(fields) =>
      && (forall i :: 0 <= i < |fields| ==> Below(fields[i].value, defs, rank, bound))
      && (Has(fields, "$ref") && Target(Get(fields, "$ref").value, defs).Ok?
          ==> rank(Name(Get(fields, "$ref").value)) < bound)
    case _ => true
  }

  /** The definitions are acyclic. */
  ghost predicate Ranked(defs: seq<Field>, rank: string -> nat) {
    forall i :: 0 <= i < |defs| ==> Below(defs[i].value, defs, rank, rank(defs[i].name))
  }

  lemma {:induction false} MostBounds(ns: seq<nat>, m: nat)
    ensures forall i :: 0 <= i < |ns| ==> ns[i] <= Most(ns)
    ensures (forall i :: 0 <= i < |ns| ==> ns[i] <= m) ==> Most(ns) <= m
  {
    if ns != [] {
      MostBounds(ns[..|ns| - 1], m);
    }
  }

  lemma NeedObj(fields: seq<Field>, defs: seq<Field>, rank: string -> nat, bound: nat)
    ensures Need(Obj(fields), defs, rank, bound) == Most(Needs(fields, defs, rank, bound)) + NeedHere(fields, defs, rank, bound)
  {
    var v := Obj(fields);
    assert Needs(fields, defs, rank, bound)
        == seq(|fields|, i requires 0 <= i < |fields| => Need(v.fields[i].value, defs, rank, bound));
  }

  lemma {:induction false} NeedStable(v: Json, defs: seq<Field>, rank: string -> nat, bound: nat, more: nat)
    requires Below(v, defs, rank, bound) && bound <= more
    ensures Below(v, defs, rank, more) && Need(v, defs, rank, bound) == Need(v, defs, rank, more)
    decreases v
  {
    match v
    case Arr(items) =>
      forall i | 0 <= i < |items|
        ensures Below(items[i], defs, rank, more)
             && Need(items[i], defs, rank, bound) == Need(items[i], defs, rank, more)
      {
        NeedStable(items[i], defs, rank, bound, more);
      }
      assert seq(|items|, i requires 0 <= i < |items| => Need(v.items[i], defs, rank, bound))
          == seq(|items|, i requires 0 <= i < |items| => Need(v.items[i], defs, rank, more));
    case Obj(fields) =>
      forall i | 0 <= i < |fields|
        ensures Below(fields[i].value, defs, rank, more)
             && Need(fields[i].value, defs, rank, bound) == Need(fields[i].value, defs, rank, more)
      {
        NeedStable(fields[i].value, defs, rank, bound, more);
      }
      NeedObj(fields, defs, rank, bound);
      NeedObj(fields, defs, rank, more);
      assert Needs(fields, defs, rank, bound) == Needs(fields, defs, rank, more);
    case _ =>
  }

  lemma NeedMember(fields: seq<Field>, f: Field, defs: seq<Field>, rank: string -> nat, bound: nat)
    requires f in fields
    ensures Need(f.value, defs, rank, bound) <= Most(Needs(fields, defs, rank, bound))
  {
    hide Need;
    var i :| 0 <= i < |fields| && fields[i] == f;
    MostBounds(Needs(fields, defs, rank, bound), 0);
    assert Needs(fields, defs, rank, bound)[i] == Need(f.value, defs, rank, bound);
  }

  lemma RankedTarget(defs: seq<Field>, rank: string -> nat, reference: Json)
    requires Ranked(defs, rank) && Target(reference, defs).Ok?
    ensures Below(Obj(Target(reference, defs).value), defs, rank, rank(Name(reference)))
  {
    hide Below;
    var i :| 0 <= i < |defs| && defs[i] == Field(Name(reference), Obj(Target(reference, defs).value));
  }

  lemma MergedBelow(v: Json, defs: seq<Field>, rank: string -> nat, bound: nat)
    requires v.Obj? && Has(v.fields, "$ref") && Target(Get(v.fields, "$ref").value, defs).Ok?
    requires Ranked(defs, rank) && Below(v, defs, rank, bound)
    ensures Below(Merged(v, defs), defs, rank, bound)
    ensures Get(Merged(v, defs).fields, "$ref") == Get(Target(Get(v.fields, "$ref").value, defs).value, "$ref")
    ensures forall f :: f in Merged(v, defs).fields ==>
              f in Target(Get(v.fields, "$ref").value, defs).value || f in v.fields
  {
    var reference := Get(v.fields, "$ref").value;
    var target := Target(reference, defs).value;
    RankedTarget(defs, rank, reference);
    NeedStable(Obj(target), defs, rank, rank(Name(reference)), bound);
    SiblingsIn(v.fields);
    UpdateIn(target, Siblings(v.fields));
    UpdateKeeps(target, Siblings(v.fields), "$ref");
  }

  lemma MergedNeedsLess(v: Json, defs: seq<Field>, rank: string -> nat, bound: nat)
    requires v.Obj? && Has(v.fields, "$ref") && Target(Get(v.fields, "$ref").value, defs).Ok?
    requires Ranked(defs, rank) && Below(v, defs, rank, bound)
    ensures Need(Merged(v, defs), defs, rank, bound) < Need(v, defs, rank, bound)
  {
    hide Need, Below;
    var reference := Get(v.fields, "$ref").value;
    var target := Target(reference, defs).value;
    var name := Name(reference);
    var merged := Merged(v, defs).fields;
    MergedBelow(v, defs, rank, bound);
    RankedTarget(defs, rank, reference);
    assert rank(name) < bound by { BelowHere(v, defs, rank, bound); }
    NeedStable(Obj(target), defs, rank, rank(name), bound);
    NeedObj(v.fields, defs, rank, bound);
    NeedObj(target, defs, rank, bound);
    NeedObj(merged, defs, rank, bound);
    var most := Most(Needs(target, defs, rank, bound)) + Most(Needs(v.fields, defs, rank, bound));
    forall i | 0 <= i < |merged| ensures Needs(merged, defs, rank, bound)[i] <= most {
      if merged[i] in target {
        NeedMember(target, merged[i], defs, rank, bound);
      } else {
        NeedMember(v.fields, merged[i], defs, rank, bound);
      }
    }
    MostBounds(Needs(merged, defs, rank, bound), most);
  }

  lemma BelowHere(v: Json, defs: seq<Field>, rank: string -> nat, bound: nat)
    requires v.Obj? && Has(v.fields, "$ref") && Target(Get(v.fields, "$ref").value, defs).Ok?
    requires Below(v, defs, rank, bound)
    ensures rank(Name(Get(v.fields, "$ref").value)) < bound
  {
  }

  /** On acyclic definitions the recursion ends: `Need` unfoldings always suffice. */
  lemma {:induction false} Terminates(v: Json, defs: seq<Field>, rank: string -> nat, bound: nat, depth: nat)
    requires Ranked(defs, rank) && Below(v, defs, rank, bound)
    requires depth >= Need(v, defs, rank, bound)
    ensures Dereference(v, defs, depth) != Err(TooDeep)
    decreases depth, v
  {
    hide Dereference, Need, Below, Ranked, Target, Get, Merged;
    if v.Arr? {
      ItemsTerminate(v, defs, rank, bound, depth);
    } else if v.Obj? && !Has(v.fields, "$ref") {
      MembersTerminate(v, defs, rank, bound, depth);
    } else if v.Obj? && Target(Get(v.fields, "$ref").value, defs).Ok? {
      MergedNeedsLess(v, defs, rank, bound);
      MergedBelow(v, defs, rank, bound);
      UnfoldsOnce(v, defs, depth);
      Terminates(Merged(v, defs), defs, rank, bound, depth - 1);
    } else {
      OtherwiseEnds(v, defs, depth);
    }
  }

  lemma OtherwiseEnds(v: Json, defs: seq<Field>, depth: nat)
    requires !v.Arr? && (v.Obj? ==> Has(v.fields, "$ref") && Target(Get(v.fields, "$ref").value, defs).Err?)
    ensures Dereference(v, defs, depth) != Err(TooDeep)
  {
  }

  lemma ItemsTerminate(v: Json, defs: seq<Field>, rank: string -> nat, bound: nat, depth: nat)
    requires v.Arr?
    requires Ranked(defs, rank) && Below(v, defs, rank, bound)
    requires depth >= Need(v, defs, rank, bound)
    ensures Dereference(v, defs, depth) != Err(TooDeep)
    decreases depth, v, 0
  {
    hide Dereference, Need, Ranked;
    ArrSteps(v, defs, depth);
    var parts := Items(v, defs, depth);
    if AllItems(parts).Err? {
      var i := ItemError(parts);
      NeedItem(v, i, defs, rank, bound);
      Terminates(v.items[i], defs, rank, bound, depth);
    }
  }

  lemma MembersTerminate(v: Json, defs: seq<Field>, rank: string -> nat, bound: nat, depth: nat)
    requires v.Obj? && !Has(v.fields, "$ref")
    requires Ranked(defs, rank) && Below(v, defs, rank, bound)
    requires depth >= Need(v, defs, rank, bound)
    ensures Dereference(v, defs, depth) != Err(TooDeep)
    decreases depth, v, 0
  {
    hide Dereference, Need;
    ObjSteps(v, defs, depth);
    var parts := Members(v, defs, depth);
    if AllFields(parts).Err? {
      var i := FieldError(parts);
      NeedObj(v.fields, defs, rank, bound);
      NeedMember(v.fields, v.fields[i], defs, rank, bound);
      Terminates(v.fields[i].value, defs, rank, bound, depth);
    }
  }

  lemma NeedItem(v: Json, i: nat, defs: seq<Field>, rank: string -> nat, bound: nat)
    requires v.Arr? && i < |v.items|
    ensures Need(v.items[i], defs, rank, bound) <= Need(v, defs, rank, bound)
  {
    var ns := seq(|v.items|, k requires 0 <= k < |v.items| => Need(v.items[k], defs, rank, bound));
    MostBounds(ns, 0);
    assert ns[i] == Need(v.items[i], defs, rank, bound);
  }

  /** More depth never changes an answer. */
  lemma {:induction false} DepthIrrelevant(v: Json, defs: seq<Field>, depth: nat, more: nat)
    requires Dereference(v, defs, depth) != Err(TooDeep) && depth <= more
    ensures Dereference(v, defs, more) == Dereference(v, defs, depth)
    decreases depth, v
  {
    match v
    case Arr(items) =>
      ArrSteps(v, defs, depth);
      ArrSteps(v, defs, more);
      var a, b := Items(v, defs, depth), Items(v, defs, more);
      forall i | 0 <= i < |a| && a[i] != Err(TooDeep) ensures b[i] == a[i] {
        DepthIrrelevant(items[i], defs, depth, more);
      }
      ItemsAlike(a, b);
    case Obj(fields) =>
      if Has(fields, "$ref") {
        if Target(Get(fields, "$ref").value, defs).Ok? {
          DepthIrrelevant(Merged(v, defs), defs, depth - 1, more - 1);
        }
      } else {
        ObjSteps(v, defs, depth);
        ObjSteps(v, defs, more);
        var a, b := Members(v, defs, depth), Members(v, defs, more);
        forall i | 0 <= i < |a| && a[i] != Err(TooDeep) ensures b[i] == a[i] {
          if fields[i].name != "$defs" {
            DepthIrrelevant(fields[i].value, defs, depth, more);
          }
        }
        FieldsAlike(a, b);
      }
    case _ =>
  }
}
