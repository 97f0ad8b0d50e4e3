/** singer_to_pyarrow_schema: the translation of a Singer stream schema into
    an ordered list of pyarrow fields, each annotated with a field id. */
module Iceberg {
  import opened Wrappers
  import opened SingerSchema
  import opened Arrow

  /** The exceptions the Python code raises on some inputs. */
  datatype Failure =
    | MissingProperties  // an object without "properties": `None.items()`
    | ItemsUntyped       // array items with neither "type" nor a non-empty "anyOf": `"string" in None`
    | ItemsMissing       // an array nested in array items without "items": `None.get("type")`
    | FormatUnbound      // an untyped string property read `format` before any assignment

  /** Which element `list(set(formats))[0]` yields depends on Python's string
      hashing. A FormatPick stands for that choice: given the truthy formats of
      an anyOf in the order met, it names one of them (by index modulo the
      length). */
  type FormatPick = seq<string> -> nat

  //----------------------------------------------------------------------
  // process_anyof_schema
  //----------------------------------------------------------------------

  /** What one anyOf branch adds to `types`: its "type" string, or the names
      of its "type" list. A branch without "type" adds None, which no name
      test ever matches, so it is left out. */
  function BranchTypes(b: Node): seq<string>
  {
    match b.typ
    case None => []
    case Some(Name(s)) => [s]
    case Some(Names(ns)) => ns
  }

  /** `types` after the loop: the branch types, flattened in order. */
  function FlatTypes(bs: seq<Node>): seq<string>
  {
    if bs == [] then [] else FlatTypes(bs[..|bs| - 1]) + BranchTypes(bs[|bs| - 1])
  }

  /** A name is collected exactly when some branch declares it. */
  lemma {:induction false} FlatTypesMembers(bs: seq<Node>)
    ensures forall s :: s in FlatTypes(bs) <==> exists j :: 0 <= j < |bs| && s in BranchTypes(bs[j])
  {
    if bs != [] {
      FlatTypesMembers(bs[..|bs| - 1]);
      assert forall j :: 0 <= j < |bs| - 1 ==> bs[..|bs| - 1][j] == bs[j];
    }
  }

  /** `formats` after the loop: the truthy "format" values, in order. */
  function BranchFormats(bs: seq<Node>): seq<string>
  {
    if bs == [] then []
    else
      var last := bs[|bs| - 1];
      BranchFormats(bs[..|bs| - 1]) + (if HasFormat(last.format) then [last.format.value] else [])
  }

  /** A format is collected exactly when some branch has it, truthy. */
  lemma {:induction false} BranchFormatsMembers(bs: seq<Node>)
    ensures forall f :: f in BranchFormats(bs) <==> exists j :: 0 <= j < |bs| && HasFormat(bs[j].format) && bs[j].format.value == f
  {
    if bs != [] {
      BranchFormatsMembers(bs[..|bs| - 1]);
      assert forall j :: 0 <= j < |bs| - 1 ==> bs[..|bs| - 1][j] == bs[j];
    }
  }

  /** The reduced type list. */
  function AnyOfTypes(bs: seq<Node>): seq<string>
  {
    var types := FlatTypes(bs);
    (if "string" in types then ["string"] else []) + (if "null" in types then ["null"] else [])
  }

  /** The reduced type list is at most "string" then "null", and holds each
      exactly when some branch declares it. */
  lemma AnyOfTypesSpec(bs: seq<Node>)
    ensures var r := AnyOfTypes(bs);
            && (r == [] || r == ["string"] || r == ["null"] || r == ["string", "null"])
            && ("string" in r <==> exists j :: 0 <= j < |bs| && "string" in BranchTypes(bs[j]))
            && ("null" in r <==> exists j :: 0 <= j < |bs| && "null" in BranchTypes(bs[j]))
  {
    FlatTypesMembers(bs);
  }

  /** The returned format: the element `pick` chooses among the collected
      formats, or None when there are none. */
  function AnyOfFormat(bs: seq<Node>, pick: FormatPick): Option<string>
  {
    var formats := BranchFormats(bs);
    if formats == [] then None else Some(formats[pick(formats) % |formats|])
  }

  /** The returned format is None exactly when no branch has a truthy
      format, and one of the branch formats otherwise. */
  lemma AnyOfFormatSpec(bs: seq<Node>, pick: FormatPick)
    ensures var r := AnyOfFormat(bs, pick);
            && (r.None? <==> forall j :: 0 <= j < |bs| ==> !HasFormat(bs[j].format))
            && (r.Some? ==> exists j :: 0 <= j < |bs| && HasFormat(bs[j].format) && bs[j].format.value == r.value)
  {
    BranchFormatsMembers(bs);
    var formats := BranchFormats(bs);
    if formats == [] {
      assert forall j :: 0 <= j < |bs| && HasFormat(bs[j].format) ==> bs[j].format.value in formats;
    } else {
      assert formats[0] in formats;
      assert formats[pick(formats) % |formats|] in formats;
    }
  }

  /** What one more branch adds to the types and formats collected so far. */
  lemma BranchesStep(bs: seq<Node>, i: nat)
    requires i < |bs|
    ensures FlatTypes(bs[..i + 1]) == FlatTypes(bs[..i]) + BranchTypes(bs[i])
    ensures BranchFormats(bs[..i + 1])
            == BranchFormats(bs[..i]) + (if HasFormat(bs[i].format) then [bs[i].format.value] else [])
  {
    assert bs[..i + 1][..i] == bs[..i];
  }

  /** process_anyof_schema, with its loop over the branches. */
  method ProcessAnyOf(anyOf: seq<Node>, pick: FormatPick) returns (types: seq<string>, format: Option<string>)
    ensures types == AnyOfTypes(anyOf)
    ensures format == AnyOfFormat(anyOf, pick)
  {
    var seen: seq<string> := [];
    var formats: seq<string> := [];
    var i := 0;
    while i < |anyOf|
      invariant 0 <= i <= |anyOf|
      invariant seen == FlatTypes(anyOf[..i])
      invariant formats == BranchFormats(anyOf[..i])
    {
      var val := anyOf[i];
      if HasFormat(val.format) {
        formats := formats + [val.format.value];
      }
      match val.typ {
        case None =>
        case Some(Name(s)) => seen := seen + [s];
        case Some(Names(ns)) => seen := seen + ns;
      }
      BranchesStep(anyOf, i);
      i := i + 1;
    }
    assert anyOf[..i] == anyOf;
    // Testing `set(types)` for a name is testing `types`.
    types := [];
    if "string" in seen {
      types := types + ["string"];
    }
    if "null" in seen {
      types := types + ["null"];
    }
    format := if formats == [] then None else Some(formats[pick(formats) % |formats|]);
  }

  //----------------------------------------------------------------------
  // get_pyarrow_schema_from_array and get_pyarrow_schema_from_object
  //----------------------------------------------------------------------

  /** The order in which the object path tests type names. */
  const ObjectPriority: seq<TypeName> := [Integer, Number, Boolean, String, Array, Object]

  /** The order in which the array path tests type names: "string" first. */
  const ArrayPriority: seq<TypeName> := [String, Integer, Number, Boolean, Array, Object]

  /** The value of the loop variable `format` of get_pyarrow_schema_from_object:
      unbound until some property assigns it, then the last value assigned. */
  datatype FormatSlot = Unbound | Bound(value: Option<string>)

  /** The type declaration the object path reads from a property: its
      "type", else its reduced "anyOf", else ["string", "null"]. */
  function ObjectPathDecl(n: Node): TypeDecl
  {
    if n.typ.Some? then n.typ.value
    else if n.anyOf.Some? then Names(AnyOfTypes(n.anyOf.value))
    else Names(["string", "null"])
  }

  /** `format` after a property has been read: assigned from "format" or from
      the anyOf reduction, and left as it was for an untyped property. */
  function FormatAfter(n: Node, slot: FormatSlot, pick: FormatPick): FormatSlot
  {
    if n.typ.Some? then Bound(n.format)
    else if n.anyOf.Some? then Bound(AnyOfFormat(n.anyOf.value, pick))
    else slot
  }

  /** The temporal type a truthy format selects at the top level. */
  function TemporalType(f: string): (t: ColumnType)
    ensures Temporal(t)
    ensures t == Date64 <==> f == "date"
    ensures t == Time64 <==> f == "time"
  {
    if f == "date" then Date64
    else if f == "time" then Time64
    else TimestampUtc
  }

  /** The outcome of one iteration of the object loop: the column appended
      (None when no branch matched), the counter and `format` afterwards. */
  datatype Step = Step(column: Option<ColumnType>, nextId: int, format: FormatSlot)

  /** The head of an iteration of the object loop: `type` and `format` from
      "type" and "format", else from the anyOf reduction, else the default
      ["string", "null"] with `format` left as it was. */
  method ReadDeclaration(val: Node, format: FormatSlot, pick: FormatPick) returns (typ: TypeDecl, format': FormatSlot)
    ensures typ == ObjectPathDecl(val)
    ensures format' == FormatAfter(val, format, pick)
  {
    format' := format;
    if val.typ.Some? {
      typ := val.typ.value;
      format' := Bound(val.format);
    } else if val.anyOf.Some? {
      var types, f := ProcessAnyOf(val.anyOf.value, pick);
      typ := Names(types);
      format' := Bound(f);
    } else {
      typ := Names(["string", "null"]);
    }
  }

  /** One iteration of the loop of get_pyarrow_schema_from_object, for
      property `p` with the counter at `id`: the property's field id is `id`,
      and the counter is incremented before its type is resolved, so a nested
      object numbers its fields from id + 1. */
  function ObjectStep(p: Property, level: nat, id: int, slot: FormatSlot, pick: FormatPick): Result<Step, Failure>
    decreases p
  {
    var n := p.schema;
    Resolve(n, Dispatch(ObjectPriority, ObjectPathDecl(n)), level, id + 1, FormatAfter(n, slot, pick), pick)
  }

  /** The if/elif chain of the object loop, for a property of schema `n` whose
      type dispatches to `kind`, with the counter at `after` and the loop
      variable `format` as the property left it. */
  function Resolve(n: Node, kind: Option<TypeName>, level: nat, after: int, format: FormatSlot, pick: FormatPick): Result<Step, Failure>
    decreases n
  {
    match kind
    case Some(Integer) => Ok(Step(Some(Int64), after, format))
    case Some(Number) => Ok(Step(Some(Float64), after, format))
    case Some(Boolean) => Ok(Step(Some(Bool), after, format))
    case Some(String) =>
      if format.Unbound? then Err(FormatUnbound)
      else if HasFormat(format.value) && level == 0 then Ok(Step(Some(TemporalType(format.value.value)), after, format))
      else Ok(Step(Some(Utf8), after, format))
    case Some(Array) =>
      if n.items.Some? && Truthy(n.items.value) then
        (match ArrayItemType(n.items.value, level, pick)
         case Err(e) => Err(e)
         case Ok(t) => Ok(Step(Some(ListOf(t)), after, format)))
      else Ok(Step(Some(ListOf(Null)), after, format))
    case Some(Object) =>
      (match n.properties
       case Missing => Err(MissingProperties)
       case Given(entries) =>
         match ObjectLoop(entries, level + 1, after, Unbound, pick)
         case Err(e) => Err(e)
         case Ok((fields, next)) => Ok(Step(Some(StructOf(fields)), next, format)))
    case None => Ok(Step(None, after, format))
  }

  /** The loop of get_pyarrow_schema_from_object over `props`, from counter
      `id` and loop variable `slot`: the fields appended and the final counter. */
  function ObjectLoop(props: seq<Property>, level: nat, id: int, slot: FormatSlot, pick: FormatPick): (r: Result<(seq<Field>, int), Failure>)
    decreases props
  {
    if props == [] then Ok(([], id))
    else
      match ObjectStep(props[0], level, id, slot, pick)
      case Err(e) => Err(e)
      case Ok(step) =>
        match ObjectLoop(props[1..], level, step.nextId, step.format, pick)
        case Err(e) => Err(e)
        case Ok((rest, next)) =>
          var own := if step.column.Some? then [Field(props[0].name, step.column.value, id)] else [];
          Ok((own + rest, next))
  }

  /** The declaration the array path reads from its items: the reduction of
      a non-empty "anyOf", which overrides "type", else "type". */
  function ItemsDecl(items: Node): Option<TypeDecl>
  {
    if items.anyOf.Some? && |items.anyOf.value| > 0 then Some(Names(AnyOfTypes(items.anyOf.value))) else items.typ
  }

  /** get_pyarrow_schema_from_array: the type of an array's "items". The
      item's "format" is never read, and an object inside an array numbers
      its fields afresh from 1 and keeps only the fields. Items without a
      declaration raise; a declaration naming no branch gives the null type,
      and only it does; the item type is never itself temporal. */
  function ArrayItemType(items: Node, level: nat, pick: FormatPick): (r: Result<ColumnType, Failure>)
    ensures ItemsDecl(items).None? ==> r == Err(ItemsUntyped)
    ensures r.Ok? ==> (r.value == Null <==> ItemsDecl(items).Some? && Dispatch(ArrayPriority, ItemsDecl(items).value).None?)
    ensures r.Ok? ==> !Temporal(r.value)
    decreases items
  {
    var decl := ItemsDecl(items);
    if decl.None? then Err(ItemsUntyped)
    else
      match Dispatch(ArrayPriority, decl.value)
      case Some(String) => Ok(Utf8)
      case Some(Integer) => Ok(Int64)
      case Some(Number) => Ok(Float64)
      case Some(Boolean) => Ok(Bool)
      case Some(Array) =>
        if items.items.None? then Err(ItemsMissing)
        else
          (match ArrayItemType(items.items.value, level, pick)
           case Err(e) => Err(e)
           case Ok(t) => Ok(ListOf(t)))
      case Some(Object) =>
        (match items.properties
         case Missing => Err(MissingProperties)
         case Given(entries) =>
           match ObjectLoop(entries, level + 1, 1, Unbound, pick)
           case Err(e) => Err(e)
           case Ok((fields, _)) => Ok(StructOf(fields)))
      case None => Ok(Null)
  }

  /** `fields` followed by what the rest of the loop appends. */
  function Prepend(fields: seq<Field>, r: Result<(seq<Field>, int), Failure>): Result<(seq<Field>, int), Failure>
  {
    match r
    case Err(e) => Err(e)
    case Ok((rest, next)) => Ok((fields + rest, next))
  }

  /** One unfolding of ObjectLoop at position `i`, as the loop below takes it. */
  lemma LoopAt(props: seq<Property>, i: nat, level: nat, id: int, slot: FormatSlot, pick: FormatPick)
    requires i < |props|
    ensures ObjectLoop(props[i..], level, id, slot, pick)
            == match ObjectStep(props[i], level, id, slot, pick)
               case Err(e) => Err(e)
               case Ok(step) =>
                 Prepend(if step.column.Some? then [Field(props[i].name, step.column.value, id)] else [],
                         ObjectLoop(props[i + 1..], level, step.nextId, step.format, pick))
  {
    assert props[i..][0] == props[i] && props[i..][1..] == props[i + 1..];
  }

  lemma PrependNothing(r: Result<(seq<Field>, int), Failure>)
    ensures Prepend([], r) == r
    ensures r.Ok? ==> Prepend(r.value.0, Ok(([], r.value.1))) == r
  {
    match r {
      case Err(_) =>
      case Ok((fs, _)) => assert [] + fs == fs && fs + [] == fs;
    }
  }

  lemma PrependTwice(a: seq<Field>, b: seq<Field>, r: Result<(seq<Field>, int), Failure>)
    ensures Prepend(a, Prepend(b, r)) == Prepend(a + b, r)
  {
    match r {
      case Err(_) =>
      case Ok((rest, _)) => assert a + (b + rest) == (a + b) + rest;
    }
  }

  /** get_pyarrow_schema_from_object: the loop over `properties` that appends
      one field per matched property and threads the field id counter through
      nested objects; the result is the fields and the counter afterwards. */
  method TranslateObject(properties: seq<Property>, level: nat, fieldId: int, pick: FormatPick)
    returns (r: Result<(seq<Field>, int), Failure>)
    ensures r == ObjectLoop(properties, level, fieldId, Unbound, pick)
    decreases PropertiesSize(properties), 3
  {
    var fields: seq<Field> := [];
    var id := fieldId;
    var format: FormatSlot := Unbound;
    var i := 0;
    assert properties[i..] == properties;
    PrependNothing(ObjectLoop(properties, level, fieldId, Unbound, pick));
    while i < |properties|
      invariant 0 <= i <= |properties|
      invariant ObjectLoop(properties, level, fieldId, Unbound, pick)
                == Prepend(fields, ObjectLoop(properties[i..], level, id, format, pick))
    {
      LoopAt(properties, i, level, id, format, pick);
      EntrySmaller(properties, i);
      var step := TranslateProperty(properties[i], level, id, format, pick);
      if step.Err? {
        return Err(step.error);
      }
      var own := if step.value.column.Some? then [Field(properties[i].name, step.value.column.value, id)] else [];
      PrependTwice(fields, own, ObjectLoop(properties[i + 1..], level, step.value.nextId, step.value.format, pick));
      fields := fields + own;
      id, format := step.value.nextId, step.value.format;
      i := i + 1;
    }
    assert properties[i..] == [];
    PrependNothing(Ok((fields, id)));
    r := Ok((fields, id));
  }

  /** One iteration of the loop of get_pyarrow_schema_from_object: read the
      property's type and format, take the counter's value as its field id
      and increment it, and resolve the column type. */
  method TranslateProperty(property: Property, level: nat, fieldId: int, format: FormatSlot, pick: FormatPick)
    returns (r: Result<Step, Failure>)
    ensures r == ObjectStep(property, level, fieldId, format, pick)
    decreases NodeSize(property.schema), 2
  {
    var typ, format := ReadDeclaration(property.schema, format, pick);
    r := ResolveColumn(property.schema, Dispatch(ObjectPriority, typ), level, fieldId + 1, format, pick);
  }

  /** The if/elif chain of an iteration of the object loop. An array's item
      type is resolved with the counter left unchanged; an object's fields
      continue the counter, and the counter they leave is the loop's. */
  method ResolveColumn(val: Node, kind: Option<TypeName>, level: nat, fieldId: int, format: FormatSlot, pick: FormatPick)
    returns (r: Result<Step, Failure>)
    ensures r == Resolve(val, kind, level, fieldId, format, pick)
    decreases NodeSize(val), 1
  {
    if kind == Some(Integer) {
      r := Ok(Step(Some(Int64), fieldId, format));
    } else if kind == Some(Number) {
      r := Ok(Step(Some(Float64), fieldId, format));
    } else if kind == Some(Boolean) {
      r := Ok(Step(Some(Bool), fieldId, format));
    } else if kind == Some(String) {
      if format.Unbound? {
        r := Err(FormatUnbound);
      } else if HasFormat(format.value) && level == 0 {
        r := Ok(Step(Some(TemporalType(format.value.value)), fieldId, format));
      } else {
        r := Ok(Step(Some(Utf8), fieldId, format));
      }
    } else if kind == Some(Array) {
      r := ResolveArray(val, level, fieldId, format, pick);
    } else if kind == Some(Object) {
      r := ResolveObject(val, level, fieldId, format, pick);
    } else {
      r := Ok(Step(None, fieldId, format));
    }
  }

  /** The "array" branch: a list of the item type, or of nulls when "items"
      is missing or empty; the counter is left as it is. */
  method ResolveArray(val: Node, level: nat, fieldId: int, format: FormatSlot, pick: FormatPick)
    returns (r: Result<Step, Failure>)
    ensures r == Resolve(val, Some(Array), level, fieldId, format, pick)
  {
    if val.items.Some? && Truthy(val.items.value) {
      var itemType := ArrayItemType(val.items.value, level, pick);
      r := if itemType.Err? then Err(itemType.error) else Ok(Step(Some(ListOf(itemType.value)), fieldId, format));
    } else {
      r := Ok(Step(Some(ListOf(Null)), fieldId, format));
    }
  }

  /** The "object" branch: a struct of the nested fields, which continue the
      counter; the counter they leave is the loop's. */
  method ResolveObject(val: Node, level: nat, fieldId: int, format: FormatSlot, pick: FormatPick)
    returns (r: Result<Step, Failure>)
    ensures r == Resolve(val, Some(Object), level, fieldId, format, pick)
    decreases NodeSize(val), 0
  {
    ObjectCase(val, level, fieldId, format, pick);
    if val.properties.Missing? {
      r := Err(MissingProperties);
    } else {
      assert PropertiesSize(val.properties.entries) < NodeSize(val);
      var inner := TranslateObject(val.properties.entries, level + 1, fieldId, pick);
      r := if inner.Err? then Err(inner.error) else Ok(Step(Some(StructOf(inner.value.0)), inner.value.1, format));
    }
  }

  /** The "object" branch of Resolve on its own. */
  lemma ObjectCase(val: Node, level: nat, after: int, format: FormatSlot, pick: FormatPick)
    ensures val.properties.Missing? ==> Resolve(val, Some(Object), level, after, format, pick) == Err(MissingProperties)
    ensures val.properties.Given? ==>
              var inner := ObjectLoop(val.properties.entries, level + 1, after, Unbound, pick);
              Resolve(val, Some(Object), level, after, format, pick)
              == if inner.Err? then Err(inner.error) else Ok(Step(Some(StructOf(inner.value.0)), inner.value.1, format))
  {
  }

  /** The fields singer_to_pyarrow_schema puts in its pa.schema: those of the
      schema's "properties", numbered from 1 at level 0. */
  function SchemaFields(singerSchema: Node, pick: FormatPick): Result<seq<Field>, Failure>
  {
    match singerSchema.properties
    case Missing => Err(MissingProperties)
    case Given(entries) =>
      match ObjectLoop(entries, 0, 1, Unbound, pick)
      case Err(e) => Err(e)
      case Ok((fields, _)) => Ok(fields)
  }

  /** singer_to_pyarrow_schema. */
  method SingerToPyarrowSchema(singerSchema: Node, pick: FormatPick) returns (r: Result<seq<Field>, Failure>)
    ensures r == SchemaFields(singerSchema, pick)
  {
    if singerSchema.properties.Missing? {
      return Err(MissingProperties);
    }
    var translated := TranslateObject(singerSchema.properties.entries, 0, 1, pick);
    if translated.Err? {
      return Err(translated.error);
    }
    r := Ok(translated.value.0);
  }
}
