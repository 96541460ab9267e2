/** Decoded JSON values; an object keeps its members in order, as a Python dict does. */
module Json {
  import opened Wrappers

  datatype Json =
    | Null
    | Bool(b: bool)
    | Num(n: real)
    | Str(s: string)
    | Arr(items: seq<Json>)
    | Obj(fields: seq<Field>)

  datatype Field = Field(name: string, value: Json)

  function Names(fields: seq<Field>): (r: seq<string>)
    ensures |r| == |fields|
    ensures forall i :: 0 <= i < |fields| ==> r[i] == fields[i].name
  {
    seq(|fields|, i requires 0 <= i < |fields| => fields[i].name)
  }

  predicate Has(fields: seq<Field>, name: string) {
    exists i :: 0 <= i < |fields| && fields[i].name == name
  }

  ghost predicate Distinct(fields: seq<Field>) {
    forall i, j :: 0 <= i < j < |fields| ==> fields[i].name != fields[j].name
  }

  /** A decoded value: no object in it has two members of the same name. */
  ghost predicate WellFormed(j: Json) {
    match j
    case Arr(items) => forall i :: 0 <= i < |items| ==> WellFormed(items[i])
    case Obj(fields) => Distinct(fields) && forall i :: 0 <= i < |fields| ==> WellFormed(fields[i].value)
    case _ => true
  }

  /** `d.get(name)`. */
  function Get(fields: seq<Field>, name: string): (r: Option<Json>)
    ensures r.None? <==> !Has(fields, name)
    ensures r.Some? ==> Field(name, r.value) in fields
    ensures r.Some? ==> exists i :: 0 <= i < |fields| && fields[i] == Field(name, r.value)
  {
    if fields == [] then None
    else if fields[0].name == name then
      assert fields[0] == Field(name, fields[0].value);
      Some(fields[0].value)
    else
      var rest := Get(fields[1..], name);
      assert Has(fields, name) ==> Has(fields[1..], name) by {
        if Has(fields, name) {
          var i :| 0 <= i < |fields| && fields[i].name == name;
          assert fields[1..][i - 1] == fields[i];
        }
      }
      rest
  }

  /** `d[name] = value`: a new member goes last, an existing one keeps its place. */
  function Put(fields: seq<Field>, f: Field): (r: seq<Field>)
    ensures forall g :: g in r ==> g in fields || g == f
    ensures f in r
  {
    if fields == [] then [f]
    else if fields[0].name == f.name then [f] + fields[1..]
    else [fields[0]] + Put(fields[1..], f)
  }

  lemma {:induction false} PutNames(fields: seq<Field>, f: Field)
    ensures Names(Put(fields, f)) == if Has(fields, f.name) then Names(fields) else Names(fields) + [f.name]
  {
    if fields == [] {
    } else if fields[0].name == f.name {
      assert Has(fields, f.name);
    } else {
      PutNames(fields[1..], f);
      HasRest(fields, f.name);
      assert Names(fields) == [fields[0].name] + Names(fields[1..]);
    }
  }

  lemma HasRest(fields: seq<Field>, name: string)
    requires fields != []
    ensures Has(fields, name) <==> fields[0].name == name || Has(fields[1..], name)
  {
    if i :| 0 < i < |fields| && fields[i].name == name {
      assert fields[1..][i - 1] == fields[i];
    }
    if i :| 0 <= i < |fields[1..]| && fields[1..][i].name == name {
      assert fields[i + 1] == fields[1..][i];
    }
  }

  lemma {:induction false} PutGet(fields: seq<Field>, f: Field, name: string)
    ensures Get(Put(fields, f), name) == if name == f.name then Some(f.value) else Get(fields, name)
  {
    if fields == [] {
      assert Put(fields, f) == [f];
    } else if fields[0].name == f.name {
      assert ([f] + fields[1..])[1..] == fields[1..];
    } else {
      PutGet(fields[1..], f, name);
      assert ([fields[0]] + Put(fields[1..], f))[1..] == Put(fields[1..], f);
    }
  }

  lemma PutDistinct(fields: seq<Field>, f: Field)
    requires Distinct(fields)
    ensures Distinct(Put(fields, f))
  {
    PutNames(fields, f);
    var r := Put(fields, f);
    assert forall i :: 0 <= i < |r| ==> r[i].name == Names(r)[i];
    assert forall i :: 0 <= i < |fields| ==> fields[i].name == Names(fields)[i];
  }

  /** Writing a name that is not there yet. */
  lemma {:induction false} PutNew(fields: seq<Field>, f: Field)
    requires !Has(fields, f.name)
    ensures Put(fields, f) == fields + [f]
  {
    if fields != [] {
      HasRest(fields, f.name);
      PutNew(fields[1..], f);
    }
  }

  /** Rewriting what is already there changes nothing. */
  lemma {:induction false} PutSame(fields: seq<Field>, f: Field)
    requires Get(fields, f.name) == Some(f.value)
    ensures Put(fields, f) == fields
  {
    if fields[0].name != f.name {
      PutSame(fields[1..], f);
    } else {
      assert fields[0] == f;
    }
  }

  lemma {:induction false} GetAt(fields: seq<Field>, i: nat)
    requires Distinct(fields) && i < |fields|
    ensures Get(fields, fields[i].name) == Some(fields[i].value)
  {
    if i > 0 {
      assert fields[0].name != fields[i].name;
      GetAt(fields[1..], i - 1);
    }
  }

  /** `d.update(more)`. */
  function Update(fields: seq<Field>, more: seq<Field>): seq<Field> {
    if more == [] then fields
    else Put(Update(fields, more[..|more| - 1]), more[|more| - 1])
  }
}
