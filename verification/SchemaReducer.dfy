/** scripts/generate_ai_schemas.py: inlining `$ref` and reducing a schema to the structured-output subset. */
module SchemaReducer {
  import opened Wrappers
  import opened Text
  import opened Json

  datatype Error =
    | UnsupportedReference
    | UnknownDefinition
    | NotAnObject        // a definition that is not a dict cannot be merged
    | TooDeep            // the interpreter's recursion limit
    | ExplicitPropertiesRequired

  const UNSUPPORTED: set<string> := {
    "$schema", "$defs", "$ref", "default", "format", "maxItems", "maxLength", "maxProperties", "maximum",
    "minContains", "minItems", "minLength", "minProperties", "minimum", "multipleOf", "pattern",
    "patternProperties", "propertyNames", "title", "unevaluatedItems", "unevaluatedProperties", "uniqueItems"
  }

  predicate Unsupported(keyword: string) {
    keyword in UNSUPPORTED
  }

  const DEFS_PREFIX := "#/$defs/"
  const MAX_DESCRIPTION := 1024

  /** The results of a comprehension over a list: the first error wins. */
  function AllItems(parts: seq<Result<Json, Error>>): (r: Result<seq<Json>, Error>)
    ensures r.Ok? <==> forall i :: 0 <= i < |parts| ==> parts[i].Ok?
    ensures r.Ok? ==> |r.value| == |parts|
    ensures r.Ok? ==> forall i :: 0 <= i < |parts| ==> r.value[i] == parts[i].value
  {
    if parts == [] then Ok([]) else
    match AllItems(parts[..|parts| - 1])
    case Err(e) => Err(e)
    case Ok(before) =>
      match parts[|parts| - 1]
      case Err(e) => Err(e)
      case Ok(j) => Ok(before + [j])
  }

  /** A dict filled member by member; `None` is a member left out. */
  function AllFields(parts: seq<Result<Option<Field>, Error>>): (r: Result<seq<Field>, Error>)
    ensures r.Ok? <==> forall i :: 0 <= i < |parts| ==> parts[i].Ok?
  {
    if parts == [] then Ok([]) else
    match AllFields(parts[..|parts| - 1])
    case Err(e) => Err(e)
    case Ok(before) =>
      match parts[|parts| - 1]
      case Err(e) => Err(e)
      case Ok(None) => Ok(before)
      case Ok(Some(f)) => Ok(Put(before, f))
  }

  function Named(name: string, value: Result<Json, Error>): Result<Option<Field>, Error> {
    match value
    case Ok(j) => Ok(Some(Field(name, j)))
    case Err(e) => Err(e)
  }

  // ---- _dereference ---------------------------------------------------------------------

  /** The definition a `$ref` value names. */
  function Target(reference: Json, defs: seq<Field>): Result<seq<Field>, Error> {
    if !reference.Str? || !StartsWith(reference.s, DEFS_PREFIX) then Err(UnsupportedReference) else
    match Get(defs, reference.s[|DEFS_PREFIX|..])
    case None => Err(UnknownDefinition)
    case Some(Obj(fields)) => Ok(fields)
    case Some(_) => Err(NotAnObject)
  }

  function Siblings(fields: seq<Field>): seq<Field> {
    if fields == [] then [] else
    (if fields[0].name == "$ref" then [] else [fields[0]]) + Siblings(fields[1..])
  }

  /** `depth` bounds how many references may be unfolded one inside another. */
  function Dereference(v: Json, defs: seq<Field>, depth: nat): Result<Json, Error>
    decreases depth, v, 0
  {
    match v
    case Arr(items) =>
      (match AllItems(seq(|items|, i requires 0 <= i < |items| => Dereference(v.items[i], defs, depth)))
       case Ok(js) => Ok(Arr(js))
       case Err(e) => Err(e))
    case Obj(fields) =>
      (match Get(fields, "$ref")
       case Some(reference) =>
         (match Target(reference, defs)
          case Err(e) => Err(e)
          case Ok(target) =>
            if depth == 0 then Err(TooDeep)
            else Dereference(Obj(Update(target, Siblings(fields))), defs, depth - 1))
       case None =>
         (match AllFields(seq(|fields|, i requires 0 <= i < |fields| => DereferenceField(v.fields[i], defs, depth)))
          case Ok(fs) => Ok(Obj(fs))
          case Err(e) => Err(e)))
    case _ => Ok(v)
  }

  function DereferenceField(f: Field, defs: seq<Field>, depth: nat): Result<Option<Field>, Error>
    decreases depth, f.value, 1
  {
    if f.name == "$defs" then Ok(None) else Named(f.name, Dereference(f.value, defs, depth))
  }

  // ---- _foundry_subset ------------------------------------------------------------------

  /** `str(item)`: a string is itself; `shown` renders every other value. */
  function Shown(item: Json, shown: Json -> string): string {
    if item.Str? then item.s else shown(item)
  }

  function Clip(s: string): string {
    if |s| <= MAX_DESCRIPTION then s else s[..MAX_DESCRIPTION]
  }

  function Reduce(v: Json, propertyMap: bool, shown: Json -> string): Result<Json, Error>
    decreases v, 0
  {
    match v
    case Arr(items) =>
      (match AllItems(seq(|items|, i requires 0 <= i < |items| => Reduce(v.items[i], false, shown)))
       case Ok(js) => Ok(Arr(js))
       case Err(e) => Err(e))
    case Obj(fields) =>
      (match AllFields(seq(|fields|, i requires 0 <= i < |fields| => ReduceField(v.fields[i], propertyMap, shown)))
       case Err(e) => Err(e)
       case Ok(fs) => if propertyMap then Ok(Obj(fs)) else Closed(fs))
    case _ => Ok(v)
  }

  function ReduceField(f: Field, propertyMap: bool, shown: Json -> string): Result<Option<Field>, Error>
    decreases f.value, 1
  {
    if propertyMap then Named(f.name, Reduce(f.value, false, shown))
    else if Unsupported(f.name) then Ok(None)
    else if f.name == "const" then Ok(Some(Field("enum", Arr([f.value]))))
    else if f.name == "description" then Ok(Some(Field(f.name, Str(Clip(Shown(f.value, shown))))))
    else Named(f.name, Reduce(f.value, f.name == "properties", shown))
  }

  function Strings(names: seq<string>): seq<Json> {
    seq(|names|, i requires 0 <= i < |names| => Str(names[i]))
  }

  /** An object schema must list its properties; it then allows no others and requires all of them. */
  function Closed(fields: seq<Field>): Result<Json, Error> {
    if Get(fields, "type") != Some(Str("object")) then Ok(Obj(fields)) else
    match Get(fields, "properties")
    case Some(Obj(properties)) =>
      Ok(Obj(Put(Put(fields, Field("additionalProperties", Bool(false))),
                 Field("required", Arr(Strings(Names(properties)))))))
    case _ => Err(ExplicitPropertiesRequired)
  }

  /** The recursive function as the program writes it: one loop per list and per dict. */
  method FoundrySubset(v: Json, propertyMap: bool, shown: Json -> string) returns (r: Result<Json, Error>)
    ensures r == Reduce(v, propertyMap, shown)
    decreases v, 1
  {
    if v.Arr? {
      r := ReduceList(v, propertyMap, shown);
    } else if v.Obj? {
      r := ReduceDict(v, propertyMap, shown);
    } else {
      r := Ok(v);
    }
  }

  method ReduceList(v: Json, propertyMap: bool, shown: Json -> string) returns (r: Result<Json, Error>)
    requires v.Arr?
    ensures r == Reduce(v, propertyMap, shown)
    decreases v, 0
  {
    var items: seq<Json> := [];
    ghost var parts := seq(|v.items|, i requires 0 <= i < |v.items| => Reduce(v.items[i], false, shown));
    for i := 0 to |v.items|
      invariant AllItems(parts[..i]) == Ok(items)
    {
      var item := FoundrySubset(v.items[i], false, shown);
      assert parts[..i + 1][..i] == parts[..i] && parts[i] == item;
      if item.Err? {
        FirstItemError(parts, i);
        return Err(item.error);
      }
      items := items + [item.value];
    }
    assert parts[..|v.items|] == parts;
    return Ok(Arr(items));
  }

  method ReduceDict(v: Json, propertyMap: bool, shown: Json -> string) returns (r: Result<Json, Error>)
    requires v.Obj?
    ensures r == Reduce(v, propertyMap, shown)
    decreases v, 0
  {
    var result: seq<Field> := [];
    ghost var parts := seq(|v.fields|, i requires 0 <= i < |v.fields| => ReduceField(v.fields[i], propertyMap, shown));
    for i := 0 to |v.fields|
      invariant AllFields(parts[..i]) == Ok(result)
    {
      assert parts[..i + 1][..i] == parts[..i] && parts[i] == ReduceField(v.fields[i], propertyMap, shown);
      var member := ReduceMember(v.fields[i], propertyMap, shown);
      if member.Err? {
        FirstFieldError(parts, i);
        return Err(member.error);
      }
      if member.value.Some? {
        result := Put(result, member.value.value);
      }
    }
    assert parts[..|v.fields|] == parts;
    return if propertyMap then Ok(Obj(result)) else Closed(result);
  }

  /** One turn of the loop over a dict: skipped, rewritten, or reduced. */
  method ReduceMember(f: Field, propertyMap: bool, shown: Json -> string) returns (r: Result<Option<Field>, Error>)
    ensures r == ReduceField(f, propertyMap, shown)
    decreases f.value, 2
  {
    if !propertyMap {
      if Unsupported(f.name) {
        return Ok(None);
      }
      if f.name == "const" {
        return Ok(Some(Field("enum", Arr([f.value]))));
      }
      if f.name == "description" {
        return Ok(Some(Field(f.name, Str(Clip(Shown(f.value, shown))))));
      }
    }
    var value := FoundrySubset(f.value, !propertyMap && f.name == "properties", shown);
    return Named(f.name, value);
  }

  lemma {:induction false} FirstItemError(parts: seq<Result<Json, Error>>, i: nat)
    requires i < |parts| && AllItems(parts[..i]).Ok? && parts[i].Err?
    ensures AllItems(parts) == Err(parts[i].error)
    decreases |parts|
  {
    var front := parts[..|parts| - 1];
    if i < |parts| - 1 {
      assert front[..i] == parts[..i];
      FirstItemError(front, i);
    }
  }

  lemma {:induction false} FirstFieldError(parts: seq<Result<Option<Field>, Error>>, i: nat)
    requires i < |parts| && AllFields(parts[..i]).Ok? && parts[i].Err?
    ensures AllFields(parts) == Err(parts[i].error)
    decreases |parts|
  {
    var front := parts[..|parts| - 1];
    if i < |parts| - 1 {
      assert front[..i] == parts[..i];
      FirstFieldError(front, i);
    }
  }

  // ---- foundry_schema -------------------------------------------------------------------

  function Definitions(rich: seq<Field>): seq<Field> {
    match Get(rich, "$defs")
    case Some(Obj(defs)) => defs
    case _ => []
  }

  function FoundrySchema(rich: seq<Field>, depth: nat, shown: Json -> string): Result<Json, Error> {
    match Dereference(Obj(rich), Definitions(rich), depth)
    case Err(e) => Err(e)
    case Ok(plain) => Reduce(plain, false, shown)
  }
}
