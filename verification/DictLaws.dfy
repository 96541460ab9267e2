/** What a dict filled member by member ends up holding. */
module DictLaws {
  import opened Wrappers
  import opened Json
  import opened SchemaReducer

  type Parts = seq<Result<Option<Field>, Error>>

  ghost predicate Yields(part: Result<Option<Field>, Error>, name: string) {
    part.Ok? && part.value.Some? && part.value.value.name == name
  }

  /** The last part written under a name decides its value. */
  lemma {:induction false} LastWriteWins(parts: Parts, name: string, i: nat)
    requires AllFields(parts).Ok? && i < |parts| && Yields(parts[i], name)
    requires forall j :: i < j < |parts| ==> !Yields(parts[j], name)
    ensures Get(AllFields(parts).value, name) == Some(parts[i].value.value.value)
    decreases |parts|
  {
    var front := parts[..|parts| - 1];
    var last := parts[|parts| - 1];
    if last.value.Some? {
      PutGet(AllFields(front).value, last.value.value, name);
    }
    if i < |parts| - 1 {
      LastWriteWins(front, name, i);
    }
  }

  lemma {:induction false} NeverWritten(parts: Parts, name: string)
    requires AllFields(parts).Ok?
    requires forall j :: 0 <= j < |parts| ==> !Yields(parts[j], name)
    ensures Get(AllFields(parts).value, name) == None
    decreases |parts|
  {
    if parts != [] {
      var front := parts[..|parts| - 1];
      var last := parts[|parts| - 1];
      if last.value.Some? {
        PutGet(AllFields(front).value, last.value.value, name);
      }
      NeverWritten(front, name);
    }
  }

  /** Every member was written by some part, after which no other wrote the same name. */
  lemma {:induction false} WrittenBy(parts: Parts, name: string) returns (i: nat)
    requires AllFields(parts).Ok? && Has(AllFields(parts).value, name)
    ensures i < |parts| && Yields(parts[i], name)
    ensures forall j :: i < j < |parts| ==> !Yields(parts[j], name)
    ensures Get(AllFields(parts).value, name) == Some(parts[i].value.value.value)
    decreases |parts|
  {
    hide Put;
    if Yields(parts[|parts| - 1], name) {
      i := |parts| - 1;
      LastWriteWins(parts, name, i);
    } else {
      var front := parts[..|parts| - 1];
      var last := parts[|parts| - 1];
      if last.value.Some? {
        PutGet(AllFields(front).value, last.value.value, name);
      }
      i := WrittenBy(front, name);
      LastWriteWins(parts, name, i);
    }
  }

  lemma {:induction false} FilledDistinct(parts: Parts)
    requires AllFields(parts).Ok?
    ensures Distinct(AllFields(parts).value)
  {
    if parts != [] && parts[|parts| - 1].value.Some? {
      FilledDistinct(parts[..|parts| - 1]);
      PutDistinct(AllFields(parts[..|parts| - 1]).value, parts[|parts| - 1].value.value);
    } else if parts != [] {
      FilledDistinct(parts[..|parts| - 1]);
    }
  }

  /** Distinct names, none left out: the dict is the parts themselves, in order. */
  lemma {:induction false} FilledInOrder(parts: Parts)
    requires AllFields(parts).Ok?
    requires forall i :: 0 <= i < |parts| ==> parts[i].value.Some?
    requires forall i, j :: 0 <= i < j < |parts| ==> parts[i].value.value.name != parts[j].value.value.name
    ensures |AllFields(parts).value| == |parts|
    ensures forall i :: 0 <= i < |parts| ==> AllFields(parts).value[i] == parts[i].value.value
  {
    if parts != [] {
      var front := parts[..|parts| - 1];
      var last := parts[|parts| - 1].value.value;
      FilledInOrder(front);
      PutNew(AllFields(front).value, last);
    }
  }

  lemma IndexOf(fields: seq<Field>, name: string) returns (i: nat)
    requires Distinct(fields) && Has(fields, name)
    ensures i < |fields| && fields[i] == Field(name, Get(fields, name).value)
    ensures forall j :: 0 <= j < |fields| && j != i ==> fields[j].name != name
  {
    i :| 0 <= i < |fields| && fields[i].name == name;
    GetAt(fields, i);
  }

  /** A failed comprehension failed at one of its parts. */
  lemma {:induction false} ItemError(parts: seq<Result<Json, Error>>) returns (i: nat)
    requires AllItems(parts).Err?
    ensures i < |parts| && parts[i].Err? && parts[i].error == AllItems(parts).error
  {
    var front := parts[..|parts| - 1];
    if AllItems(front).Err? {
      i := ItemError(front);
    } else {
      i := |parts| - 1;
    }
  }

  lemma {:induction false} FieldError(parts: Parts) returns (i: nat)
    requires AllFields(parts).Err?
    ensures i < |parts| && parts[i].Err? && parts[i].error == AllFields(parts).error
  {
    var front := parts[..|parts| - 1];
    if AllFields(front).Err? {
      i := FieldError(front);
    } else {
      i := |parts| - 1;
    }
  }

  lemma {:induction false} SiblingsIn(fields: seq<Field>)
    ensures forall f :: f in Siblings(fields) <==> f in fields && f.name != "$ref"
  {
    if fields != [] {
      SiblingsIn(fields[1..]);
    }
  }

  lemma {:induction false} UpdateIn(fields: seq<Field>, more: seq<Field>)
    ensures forall f :: f in Update(fields, more) ==> f in fields || f in more
  {
    if more != [] {
      UpdateIn(fields, more[..|more| - 1]);
    }
  }

  lemma {:induction false} UpdateKeeps(fields: seq<Field>, more: seq<Field>, name: string)
    requires forall f :: f in more ==> f.name != name
    ensures Get(Update(fields, more), name) == Get(fields, name)
  {
    if more != [] {
      UpdateKeeps(fields, more[..|more| - 1], name);
      PutGet(Update(fields, more[..|more| - 1]), more[|more| - 1], name);
    }
  }

  lemma {:induction false} UpdateDistinct(fields: seq<Field>, more: seq<Field>)
    requires Distinct(fields)
    ensures Distinct(Update(fields, more))
  {
    if more != [] {
      UpdateDistinct(fields, more[..|more| - 1]);
      PutDistinct(Update(fields, more[..|more| - 1]), more[|more| - 1]);
    }
  }

  /** Parts that only differ where the first list was too deep give the same list. */
  lemma {:induction false} ItemsAlike(a: seq<Result<Json, Error>>, b: seq<Result<Json, Error>>)
    requires |a| == |b| && AllItems(a) != Err(TooDeep)
    requires forall i :: 0 <= i < |a| && a[i] != Err(TooDeep) ==> b[i] == a[i]
    ensures AllItems(b) == AllItems(a)
  {
    if a != [] {
      ItemsAlike(a[..|a| - 1], b[..|b| - 1]);
    }
  }

  lemma {:induction false} FieldsAlike(a: Parts, b: Parts)
    requires |a| == |b| && AllFields(a) != Err(TooDeep)
    requires forall i :: 0 <= i < |a| && a[i] != Err(TooDeep) ==> b[i] == a[i]
    ensures AllFields(b) == AllFields(a)
  {
    if a != [] {
      FieldsAlike(a[..|a| - 1], b[..|b| - 1]);
    }
  }
}
