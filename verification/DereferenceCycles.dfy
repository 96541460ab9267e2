/** Inlining ends if and only if no cycle of references can be reached. */
module DereferenceCycles {
  import opened Wrappers
  import opened Text
  import opened Json
  import opened SchemaReducer
  import opened SchemaMeaning
  import opened DictLaws
  import opened DereferenceLaws

  /** The value refers to definition `name` at a position that is dereferenced: anywhere but below `$defs`. */
  ghost predicate Mentions(v: Json, name: string)
    decreases v
  {
    match v
    case Arr(items) => exists i :: 0 <= i < |items| && Mentions(items[i], name)
    case Obj(fields) =>
      if Has(fields, "$ref") then Name(Get(fields, "$ref").value) == name
      else exists i :: 0 <= i < |fields| && fields[i].name != "$defs" && Mentions(fields[i].value, name)
    case _ => false
  }

  /** Every reference resolves, only annotations stand beside one, and annotations hold no references. */
  ghost predicate Tidy(v: Json, defs: seq<Field>)
    decreases v
  {
    match v
    case Arr(items) => forall i :: 0 <= i < |items| ==> Tidy(items[i], defs)
    case Obj(fields) =>
      && Distinct(fields)
      && (Has(fields, "$ref") ==>
            && Target(Get(fields, "$ref").value, defs).Ok?
            && forall i :: 0 <= i < |fields| ==> fields[i].name == "$ref" || Annotation(fields[i].name))
      && forall i :: 0 <= i < |fields| && fields[i].name != "$defs" && fields[i].name != "$ref" ==>
           Tidy(fields[i].value, defs) && (Annotation(fields[i].name) ==> ReferenceFree(fields[i].value))
    case _ => true
  }

  ghost predicate TidyDefinitions(defs: seq<Field>) {
    forall i :: 0 <= i < |defs| ==> Tidy(defs[i].value, defs)
  }

  /** A walk along references: from `v` to the first name, and from each definition to the next. */
  ghost predicate Walk(v: Json, defs: seq<Field>, names: seq<string>)
    decreases |names|
  {
    names != [] ==>
      && Mentions(v, names[0])
      && Get(defs, names[0]).Some?
      && Walk(Get(defs, names[0]).value, defs, names[1..])
  }

  /** Some walk visits a definition twice. */
  ghost predicate ReachesCycle(v: Json, defs: seq<Field>) {
    exists names: seq<string>, i: int, j: int :: Revisits(v, defs, names, i, j)
  }

  ghost predicate Revisits(v: Json, defs: seq<Field>, names: seq<string>, i: int, j: int) {
    Walk(v, defs, names) && 0 <= i < j < |names| && names[i] == names[j]
  }

  // ---- References and merging -----------------------------------------------------------

  lemma {:induction false} FreeMentionsNothing(v: Json, name: string)
    requires ReferenceFree(v)
    ensures !Mentions(v, name)
  {
    match v
    case Arr(items) =>
      forall i | 0 <= i < |items| ensures !Mentions(items[i], name) {
        FreeMentionsNothing(items[i], name);
      }
    case Obj(fields) =>
      forall i | 0 <= i < |fields| ensures !Mentions(fields[i].value, name) {
        FreeMentionsNothing(fields[i].value, name);
      }
    case _ =>
  }

  lemma TargetIsDefinition(reference: Json, defs: seq<Field>)
    requires Target(reference, defs).Ok?
    ensures Get(defs, Name(reference)) == Some(Obj(Target(reference, defs).value))
  {
  }

  lemma TidyTarget(reference: Json, defs: seq<Field>)
    requires Target(reference, defs).Ok? && TidyDefinitions(defs)
    ensures Tidy(Obj(Target(reference, defs).value), defs)
  {
    hide Tidy;
    TargetIsDefinition(reference, defs);
    var i :| 0 <= i < |defs| && defs[i] == Field(Name(reference), Obj(Target(reference, defs).value));
  }

  /** A field of a tidy dict, as the dict's owner may use it. */
  lemma TidyField(fields: seq<Field>, defs: seq<Field>, f: Field)
    requires Tidy(Obj(fields), defs) && f in fields
    ensures f.name != "$defs" && f.name != "$ref" ==>
              Tidy(f.value, defs) && (Annotation(f.name) ==> ReferenceFree(f.value))
    ensures Has(fields, "$ref") ==> f.name == "$ref" || Annotation(f.name)
  {
    hide Annotation;
    var i :| 0 <= i < |fields| && fields[i] == f;
  }

  lemma TidyReference(fields: seq<Field>, defs: seq<Field>)
    requires Tidy(Obj(fields), defs) && Has(fields, "$ref")
    ensures Target(Get(fields, "$ref").value, defs).Ok?
  {
    hide Annotation;
  }

  /** Unfolding a reference leads to the definition's own references, and nowhere else. */
  lemma MergedMentions(v: Json, defs: seq<Field>, name: string)
    requires v.Obj? && Tidy(v, defs) && TidyDefinitions(defs) && Has(v.fields, "$ref")
    requires Target(Get(v.fields, "$ref").value, defs).Ok?
    ensures Tidy(Merged(v, defs), defs)
    ensures Mentions(Merged(v, defs), name) <==> Mentions(Obj(Target(Get(v.fields, "$ref").value, defs).value), name)
  {
    hide Tidy, Mentions, Annotation;
    var reference := Get(v.fields, "$ref").value;
    var target, siblings := Target(reference, defs).value, Siblings(v.fields);
    TidyTarget(reference, defs);
    SiblingsIn(v.fields);
    UpdateIn(target, siblings);
    UpdateKeeps(target, siblings, "$ref");
    TidyDistinct(target, defs);
    UpdateDistinct(target, siblings);
    forall f | f in siblings ensures Annotation(f.name) && (f.name != "$defs" ==> Tidy(f.value, defs) && ReferenceFree(f.value)) {
      TidyField(v.fields, defs, f);
    }
    MergedTidy(target, siblings, defs);
    MentionsMerged(target, siblings, defs, name);
  }

  lemma TidyDistinct(fields: seq<Field>, defs: seq<Field>)
    requires Tidy(Obj(fields), defs)
    ensures Distinct(fields)
  {
    hide Annotation;
  }

  ghost predicate PlainAnnotations(siblings: seq<Field>, defs: seq<Field>) {
    forall f <- siblings :: f.name != "$ref" && Annotation(f.name)
      && (f.name != "$defs" ==> Tidy(f.value, defs) && ReferenceFree(f.value))
  }

  lemma MergedTidy(target: seq<Field>, siblings: seq<Field>, defs: seq<Field>)
    requires Tidy(Obj(target), defs) && PlainAnnotations(siblings, defs)
    requires Distinct(Update(target, siblings)) && Get(Update(target, siblings), "$ref") == Get(target, "$ref")
    ensures Tidy(Obj(Update(target, siblings)), defs)
  {
    UpdateIn(target, siblings);
    var merged := Update(target, siblings);
    if Has(target, "$ref") {
      TidyReference(target, defs);
    }
    hide Annotation, Update, ReferenceFree;
    forall i | 0 <= i < |merged|
      ensures merged[i].name != "$defs" && merged[i].name != "$ref" ==>
                Tidy(merged[i].value, defs) && (Annotation(merged[i].name) ==> ReferenceFree(merged[i].value))
      ensures Has(target, "$ref") ==> merged[i].name == "$ref" || Annotation(merged[i].name)
    {
      assert merged[i] in merged;
      if merged[i] in target {
        TidyField(target, defs, merged[i]);
      }
    }
  }

  lemma MentionsMerged(target: seq<Field>, siblings: seq<Field>, defs: seq<Field>, name: string)
    requires Tidy(Obj(target), defs) && PlainAnnotations(siblings, defs)
    requires Distinct(Update(target, siblings)) && Get(Update(target, siblings), "$ref") == Get(target, "$ref")
    ensures Mentions(Obj(Update(target, siblings)), name) <==> Mentions(Obj(target), name)
  {
    hide Annotation, ReferenceFree, Tidy;
    UpdateIn(target, siblings);
    var merged := Update(target, siblings);
    if !Has(target, "$ref") {
      if i :| 0 <= i < |merged| && merged[i].name != "$defs" && Mentions(merged[i].value, name) {
        assert merged[i] in merged;
        if merged[i] in siblings {
          FreeMentionsNothing(merged[i].value, name);
        } else {
          var k :| 0 <= k < |target| && target[k] == merged[i];
        }
      }
      if k :| 0 <= k < |target| && target[k].name != "$defs" && Mentions(target[k].value, name) {
        TidyField(target, defs, target[k]);
        if Annotation(target[k].name) {
          FreeMentionsNothing(target[k].value, name);
        } else {
          TidyDistinct(target, defs);
          GetAt(target, k);
          UpdateKeeps(target, siblings, target[k].name);
          var i :| 0 <= i < |merged| && merged[i] == target[k];
        }
      }
    }
  }

  // ---- Running out of depth means a long walk -------------------------------------------

  lemma WalkStep(v: Json, defs: seq<Field>, name: string, rest: seq<string>)
    requires Mentions(v, name) && Get(defs, name).Some? && Walk(Get(defs, name).value, defs, rest)
    ensures Walk(v, defs, [name] + rest)
  {
    assert ([name] + rest)[1..] == rest;
  }

  /** A walk only looks at where it starts through the first name. */
  lemma WalkFrom(v: Json, u: Json, defs: seq<Field>, names: seq<string>)
    requires Walk(v, defs, names) && (names != [] && Mentions(v, names[0]) ==> Mentions(u, names[0]))
    ensures Walk(u, defs, names)
  {
    hide Mentions;
  }

  lemma {:induction false} TooDeepWalk(v: Json, defs: seq<Field>, depth: nat) returns (names: seq<string>)
    requires Tidy(v, defs) && TidyDefinitions(defs) && Dereference(v, defs, depth).Err?
    ensures Walk(v, defs, names) && |names| == depth + 1
    decreases depth, v
  {
    match v {
      case Arr(items) =>
        ArrSteps(v, defs, depth);
        var i := ItemError(Items(v, defs, depth));
        names := TooDeepWalk(items[i], defs, depth);
        WalkFrom(items[i], v, defs, names);
      case Obj(fields) =>
        if Has(fields, "$ref") {
          names := ReferenceWalk(v, defs, depth);
        } else {
          names := FieldWalk(v, defs, depth);
        }
      case _ =>
        assert false;
    }
  }

  lemma ReferenceWalk(v: Json, defs: seq<Field>, depth: nat) returns (names: seq<string>)
    requires v.Obj? && Has(v.fields, "$ref")
    requires Tidy(v, defs) && TidyDefinitions(defs) && Dereference(v, defs, depth).Err?
    ensures Walk(v, defs, names) && |names| == depth + 1
    decreases depth, v, 0
  {
    hide Dereference, Mentions, Tidy, Target, Get, Walk;
    var reference := Get(v.fields, "$ref").value;
    TidyReference(v.fields, defs);
    TargetIsDefinition(reference, defs);
    MentionsTarget(v, defs);
    var body := Obj(Target(reference, defs).value);
    if depth == 0 {
      names := [Name(reference)] + [];
      NoWalk(body, defs);
      WalkStep(v, defs, Name(reference), []);
    } else {
      UnfoldsOnce(v, defs, depth);
      MergedMentions(v, defs, "");
      var rest := TooDeepWalk(Merged(v, defs), defs, depth - 1);
      MergedMentions(v, defs, rest[0]);
      WalkFrom(Merged(v, defs), body, defs, rest);
      names := [Name(reference)] + rest;
      WalkStep(v, defs, Name(reference), rest);
    }
  }

  lemma NoWalk(v: Json, defs: seq<Field>)
    ensures Walk(v, defs, [])
  {
  }

  lemma MentionsTarget(v: Json, defs: seq<Field>)
    requires v.Obj? && Has(v.fields, "$ref")
    ensures Mentions(v, Name(Get(v.fields, "$ref").value))
  {
  }

  lemma FieldWalk(v: Json, defs: seq<Field>, depth: nat) returns (names: seq<string>)
    requires v.Obj? && !Has(v.fields, "$ref")
    requires Tidy(v, defs) && TidyDefinitions(defs) && Dereference(v, defs, depth).Err?
    ensures Walk(v, defs, names) && |names| == depth + 1
    decreases depth, v, 0
  {
    ObjSteps(v, defs, depth);
    var i := FieldError(Members(v, defs, depth));
    TidyField(v.fields, defs, v.fields[i]);
    NoReferenceAt(v.fields, i);
    names := TooDeepWalk(v.fields[i].value, defs, depth);
    hide Dereference, Tidy;
    WalkFrom(v.fields[i].value, v, defs, names);
  }

  lemma NoReferenceAt(fields: seq<Field>, i: nat)
    requires i < |fields| && !Has(fields, "$ref")
    ensures fields[i].name != "$ref"
  {
  }

  // ---- And a long walk means running out of depth ---------------------------------------

  lemma {:induction false} LongWalkFails(v: Json, defs: seq<Field>, names: seq<string>, depth: nat)
    requires Tidy(v, defs) && TidyDefinitions(defs) && Walk(v, defs, names) && |names| > depth
    ensures Dereference(v, defs, depth).Err?
    decreases depth, v, 1
  {
    hide Tidy, Dereference, Walk;
    assert Mentions(v, names[0]) by { WalkStarts(v, defs, names); }
    if v.Arr? {
      var i :| 0 <= i < |v.items| && Mentions(v.items[i], names[0]);
      assert Tidy(v.items[i], defs) by { TidyItem(v, defs, i); }
      WalkFrom(v, v.items[i], defs, names);
      LongWalkFails(v.items[i], defs, names, depth);
      ArrSteps(v, defs, depth);
      assert Items(v, defs, depth)[i].Err?;
    } else if Has(v.fields, "$ref") {
      ReferenceWalkFails(v, defs, names, depth);
    } else {
      var i :| 0 <= i < |v.fields| && v.fields[i].name != "$defs" && Mentions(v.fields[i].value, names[0]);
      NoReferenceAt(v.fields, i);
      TidyField(v.fields, defs, v.fields[i]);
      WalkFrom(v, v.fields[i].value, defs, names);
      LongWalkFails(v.fields[i].value, defs, names, depth);
      ObjSteps(v, defs, depth);
      assert Members(v, defs, depth)[i].Err?;
    }
  }

  lemma WalkStarts(v: Json, defs: seq<Field>, names: seq<string>)
    requires Walk(v, defs, names) && names != []
    ensures Mentions(v, names[0]) && Get(defs, names[0]).Some? && Walk(Get(defs, names[0]).value, defs, names[1..])
  {
    hide Mentions;
  }

  lemma TidyItem(v: Json, defs: seq<Field>, i: nat)
    requires v.Arr? && Tidy(v, defs) && i < |v.items|
    ensures Tidy(v.items[i], defs)
  {
  }

  lemma ReferenceWalkFails(v: Json, defs: seq<Field>, names: seq<string>, depth: nat)
    requires v.Obj? && Has(v.fields, "$ref")
    requires Tidy(v, defs) && TidyDefinitions(defs) && Walk(v, defs, names) && |names| > depth
    ensures Dereference(v, defs, depth).Err?
    decreases depth, v, 0
  {
    hide Tidy, Walk, TidyDefinitions;
    TidyReference(v.fields, defs);
    if depth > 0 {
      var reference := Get(v.fields, "$ref").value;
      TargetIsDefinition(reference, defs);
      WalkStarts(v, defs, names);
      MergedMentions(v, defs, names[1]);
      hide Dereference;
      WalkFrom(Obj(Target(reference, defs).value), Merged(v, defs), defs, names[1..]);
      LongWalkFails(Merged(v, defs), defs, names[1..], depth - 1);
      UnfoldsOnce(v, defs, depth);
    }
  }

  // ---- Cycles and long walks ------------------------------------------------------------

  lemma {:induction false} WalkSuffix(v: Json, defs: seq<Field>, names: seq<string>, k: nat)
    requires Walk(v, defs, names) && k < |names|
    ensures Get(defs, names[k]).Some? && Walk(Get(defs, names[k]).value, defs, names[k + 1..])
    decreases k
  {
    hide Mentions;
    if k > 0 {
      WalkSuffix(Get(defs, names[0]).value, defs, names[1..], k - 1);
      assert names[1..][k - 1] == names[k] && names[1..][k..] == names[k + 1..];
    }
  }

  /** Replacing what follows a visited definition by another walk from it. */
  lemma {:induction false} WalkSplice(v: Json, defs: seq<Field>, names: seq<string>, k: nat, rest: seq<string>)
    requires Walk(v, defs, names) && k < |names| && Get(defs, names[k]).Some? && Walk(Get(defs, names[k]).value, defs, rest)
    ensures Walk(v, defs, names[..k + 1] + rest)
    decreases k
  {
    WalkStarts(v, defs, names);
    hide Mentions, Walk, Get;
    SpliceText(names, k, rest);
    if k == 0 {
      WalkStep(v, defs, names[0], rest);
    } else {
      WalkSplice(Get(defs, names[0]).value, defs, names[1..], k - 1, rest);
      WalkStep(v, defs, names[0], names[1..][..k] + rest);
    }
  }

  lemma SpliceText<T>(names: seq<T>, k: nat, rest: seq<T>)
    requires k < |names|
    ensures names[..k + 1] + rest == [names[0]] + (if k == 0 then rest else names[1..][..k] + rest)
    ensures k > 0 ==> names[1..][k - 1] == names[k]
  {
  }

  /** Going round once more: a longer walk that still visits a definition twice. */
  lemma GoRound(v: Json, defs: seq<Field>, names: seq<string>, i: int, j: int) returns (longer: seq<string>)
    requires Revisits(v, defs, names, i, j)
    ensures Revisits(v, defs, longer, i, j) && |longer| > |names|
  {
    WalkSuffix(v, defs, names, i);
    longer := names[..j + 1] + names[i + 1..];
    WalkSplice(v, defs, names, j, names[i + 1..]);
  }

  lemma {:induction false} CycleGivesLongWalk(v: Json, defs: seq<Field>, names: seq<string>, i: int, j: int, n: nat)
    returns (long: seq<string>)
    requires Revisits(v, defs, names, i, j)
    ensures Walk(v, defs, long) && |long| > n
    decreases n - |names|
  {
    if |names| > n {
      long := names;
    } else {
      var longer := GoRound(v, defs, names, i, j);
      long := CycleGivesLongWalk(v, defs, longer, i, j, n);
    }
  }

  ghost function NameSet(names: seq<string>): set<string> {
    set x | x in names
  }

  lemma {:induction false} DistinctCount(names: seq<string>)
    requires forall i, j :: 0 <= i < j < |names| ==> names[i] != names[j]
    ensures |NameSet(names)| == |names|
  {
    if names != [] {
      var k := |names| - 1;
      DistinctCount(names[..k]);
      assert NameSet(names) == NameSet(names[..k]) + {names[k]};
      assert names[k] !in NameSet(names[..k]);
    }
  }

  lemma SetBound(a: set<string>, b: set<string>)
    requires a <= b
    ensures |a| <= |b|
  {
    assert b == a + (b - a);
  }

  lemma {:induction false} NameCount(names: seq<string>)
    ensures |NameSet(names)| <= |names|
  {
    if names != [] {
      var k := |names| - 1;
      NameCount(names[..k]);
      assert NameSet(names) == NameSet(names[..k]) + {names[k]};
    }
  }

  /** A walk longer than the list of definitions visits one of them twice. */
  lemma LongWalkRevisits(v: Json, defs: seq<Field>, names: seq<string>)
    requires Walk(v, defs, names) && |names| > |defs|
    ensures ReachesCycle(v, defs)
  {
    hide Walk;
    if forall i, j :: 0 <= i < j < |names| ==> names[i] != names[j] {
      DistinctCount(names);
      forall x | x in NameSet(names) ensures x in NameSet(Names(defs)) {
        var k :| 0 <= k < |names| && names[k] == x;
        WalkSuffix(v, defs, names, k);
        var i :| 0 <= i < |defs| && defs[i] == Field(x, Get(defs, x).value);
        assert Names(defs)[i] == x;
      }
      SetBound(NameSet(names), NameSet(Names(defs)));
      NameCount(Names(defs));
      assert false;
    } else {
      var i, j :| 0 <= i < j < |names| && names[i] == names[j];
      assert Revisits(v, defs, names, i, j);
    }
  }

  // ---- Main results ---------------------------------------------------------------------

  /** A reachable cycle exceeds every recursion limit. */
  lemma CyclicNeverEnds(v: Json, defs: seq<Field>, depth: nat)
    requires Tidy(v, defs) && TidyDefinitions(defs) && ReachesCycle(v, defs)
    ensures Dereference(v, defs, depth).Err?
  {
    hide Tidy, Revisits, Walk, Dereference;
    var names: seq<string>, i: int, j: int :| Revisits(v, defs, names, i, j);
    var long := CycleGivesLongWalk(v, defs, names, i, j, depth);
    LongWalkFails(v, defs, long, depth);
  }

  /** Without one, as many nested unfoldings as there are definitions always suffice. */
  lemma AcyclicEnds(v: Json, defs: seq<Field>)
    requires Tidy(v, defs) && TidyDefinitions(defs) && !ReachesCycle(v, defs)
    ensures Dereference(v, defs, |defs|).Ok?
  {
    hide Tidy, ReachesCycle, Dereference;
    if Dereference(v, defs, |defs|).Err? {
      var names := TooDeepWalk(v, defs, |defs|);
      LongWalkRevisits(v, defs, names);
    }
  }

  /** For a schema whose references resolve and stand beside annotations only, inlining ends at some
      depth if and only if no cycle of references can be reached from it. */
  lemma EndsExactly(v: Json, defs: seq<Field>)
    requires Tidy(v, defs) && TidyDefinitions(defs)
    ensures (exists depth: nat :: Dereference(v, defs, depth).Ok?) <==> !ReachesCycle(v, defs)
  {
    hide Tidy, ReachesCycle, Dereference, TidyDefinitions;
    if ReachesCycle(v, defs) {
      forall depth: nat ensures Dereference(v, defs, depth).Err? {
        CyclicNeverEnds(v, defs, depth);
      }
    } else {
      AcyclicEnds(v, defs);
    }
  }
}
