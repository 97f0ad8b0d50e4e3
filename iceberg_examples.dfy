/** Concrete schemas and what the translator makes of them. */
module IcebergExamples {
  import opened Wrappers
  import opened SingerSchema
  import opened Arrow
  import opened Iceberg
  import IcebergProperties

  /** {"type": names} */
  function Typed(names: seq<string>): Node
  {
    Node(Some(Names(names)), None, None, None, Missing, false)
  }

  /** {"type": names, "format": format} */
  function Formatted(names: seq<string>, format: string): Node
  {
    Node(Some(Names(names)), Some(format), None, None, Missing, false)
  }

  /** {"type": names, "properties": props} */
  function WithProperties(names: seq<string>, props: seq<Property>): Node
  {
    Node(Some(Names(names)), None, None, None, Given(props), false)
  }

  /** {"type": names, "items": items} */
  function WithItems(names: seq<string>, items: Node): Node
  {
    Node(Some(Names(names)), None, None, Some(items), Missing, false)
  }

  /** {"properties": props}, the stream schema itself. */
  function Schema(props: seq<Property>): Node
  {
    Node(None, None, None, None, Given(props), false)
  }

  /** The chain takes the branch of `order[k]` when `d` declares that name
      and none before it. */
  lemma DispatchAt(order: seq<TypeName>, d: TypeDecl, k: nat)
    requires k < |order| && Declares(d, Spelling(order[k]))
    requires forall j :: 0 <= j < k ==> !Declares(d, Spelling(order[j]))
    ensures Dispatch(order, d) == Some(order[k])
  {
  }

  lemma IntegerDispatch()
    ensures Dispatch(ObjectPriority, Names(["integer"])) == Some(Integer)
  {
    DispatchAt(ObjectPriority, Names(["integer"]), 0);
  }

  lemma StringDispatch()
    ensures Dispatch(ObjectPriority, Names(["string"])) == Some(String)
  {
    assert !Declares(Names(["string"]), "integer") && !Declares(Names(["string"]), "number") && !Declares(Names(["string"]), "boolean");
    DispatchAt(ObjectPriority, Names(["string"]), 3);
  }

  lemma ObjectDispatch(ns: seq<string>)
    requires ns == ["object"] || ns == ["object", "null"]
    ensures Dispatch(ObjectPriority, Names(ns)) == Some(Object)
    ensures Dispatch(ArrayPriority, Names(ns)) == Some(Object)
  {
    ObjectNames(ns);
    DispatchAt(ObjectPriority, Names(ns), 5);
    DispatchAt(ArrayPriority, Names(ns), 5);
  }

  lemma ArrayDispatch()
    ensures Dispatch(ObjectPriority, Names(["array"])) == Some(Array)
  {
    assert   !Declares(Names(["array"]), "integer") && !Declares(Names(["array"]), "number")
          && !Declares(Names(["array"]), "boolean") && !Declares(Names(["array"]), "string");
    DispatchAt(ObjectPriority, Names(["array"]), 4);
  }

  /** A list naming "object" and otherwise only "null" declares none of the
      other type names. */
  lemma ObjectNames(ns: seq<string>)
    requires ns == ["object"] || ns == ["object", "null"]
    ensures Declares(Names(ns), "object")
    ensures forall t :: t != Object ==> !Declares(Names(ns), Spelling(t))
  {
  }

  //----------------------------------------------------------------------
  // One property at a time
  //----------------------------------------------------------------------

  /** The untyped property {}. */
  function Untyped(): Node
  {
    Node(None, None, None, None, Missing, false)
  }

  /** A property with a "type": the chain dispatches on it and `format`
      becomes the property's "format". */
  lemma TypedStep(p: Property, kind: TypeName, level: nat, id: int, slot: FormatSlot, pick: FormatPick)
    requires p.schema.typ.Some? && Dispatch(ObjectPriority, p.schema.typ.value) == Some(kind)
    ensures ObjectStep(p, level, id, slot, pick) == Resolve(p.schema, Some(kind), level, id + 1, Bound(p.schema.format), pick)
  {
  }

  lemma IntegerStep(p: Property, level: nat, id: int, slot: FormatSlot, pick: FormatPick)
    requires p.schema == Typed(["integer"])
    ensures ObjectStep(p, level, id, slot, pick) == Ok(Step(Some(Int64), id + 1, Bound(None)))
  {
    IntegerDispatch();
    TypedStep(p, Integer, level, id, slot, pick);
  }

  lemma StringStep(p: Property, ns: seq<string>, level: nat, id: int, slot: FormatSlot, pick: FormatPick)
    requires ns == ["string"] || ns == ["string", "null"]
    requires p.schema == Typed(ns)
    ensures ObjectStep(p, level, id, slot, pick) == Ok(Step(Some(Utf8), id + 1, Bound(None)))
  {
    StringDispatch();
    IcebergProperties.DefaultIsString();
    TypedStep(p, String, level, id, slot, pick);
  }

  lemma DateStep(p: Property, ns: seq<string>, level: nat, id: int, slot: FormatSlot, pick: FormatPick)
    requires ns == ["string"] || ns == ["string", "null"]
    requires p.schema == Formatted(ns, "date")
    ensures ObjectStep(p, level, id, slot, pick)
            == Ok(Step(Some(if level == 0 then Date64 else Utf8), id + 1, Bound(Some("date"))))
  {
    StringDispatch();
    IcebergProperties.DefaultIsString();
    TypedStep(p, String, level, id, slot, pick);
  }

  lemma UntypedStep(p: Property, level: nat, id: int, format: Option<string>, pick: FormatPick)
    requires p.schema == Untyped()
    ensures ObjectStep(p, level, id, Bound(format), pick)
            == Ok(Step(Some(if HasFormat(format) && level == 0 then TemporalType(format.value) else Utf8), id + 1, Bound(format)))
  {
    IcebergProperties.DefaultIsString();
  }

  lemma ObjectPropertyStepOf(p: Property, entries: seq<Property>, level: nat, id: int, slot: FormatSlot, pick: FormatPick, fs: seq<Field>, next: int)
    requires p.schema.typ.Some? && Dispatch(ObjectPriority, p.schema.typ.value) == Some(Object)
    requires p.schema.format.None? && p.schema.properties == Given(entries)
    requires ObjectLoop(entries, level + 1, id + 1, Unbound, pick) == Ok((fs, next))
    ensures ObjectStep(p, level, id, slot, pick) == Ok(Step(Some(StructOf(fs)), next, Bound(None)))
  {
    TypedStep(p, Object, level, id, slot, pick);
  }

  lemma ArrayPropertyStepOf(p: Property, item: Node, level: nat, id: int, slot: FormatSlot, pick: FormatPick, t: ColumnType)
    requires p.schema.typ.Some? && Dispatch(ObjectPriority, p.schema.typ.value) == Some(Array)
    requires p.schema.format.None? && p.schema.items == Some(item) && Truthy(item)
    requires ArrayItemType(item, level, pick) == Ok(t)
    ensures ObjectStep(p, level, id, slot, pick) == Ok(Step(Some(ListOf(t)), id + 1, Bound(None)))
  {
    TypedStep(p, Array, level, id, slot, pick);
  }

  lemma ObjectItemOf(item: Node, entries: seq<Property>, level: nat, pick: FormatPick, fs: seq<Field>, next: int)
    requires item.anyOf.None? && item.typ.Some? && Dispatch(ArrayPriority, item.typ.value) == Some(Object)
    requires item.properties == Given(entries)
    requires ObjectLoop(entries, level + 1, 1, Unbound, pick) == Ok((fs, next))
    ensures ArrayItemType(item, level, pick) == Ok(StructOf(fs))
  {
  }

  lemma ObjectPropertyStep(p: Property, ns: seq<string>, entries: seq<Property>, level: nat, id: int, slot: FormatSlot, pick: FormatPick, fs: seq<Field>, next: int)
    requires ns == ["object"] || ns == ["object", "null"]
    requires p.schema == WithProperties(ns, entries)
    requires ObjectLoop(entries, level + 1, id + 1, Unbound, pick) == Ok((fs, next))
    ensures ObjectStep(p, level, id, slot, pick) == Ok(Step(Some(StructOf(fs)), next, Bound(None)))
  {
    ObjectDispatch(ns);
    ObjectPropertyStepOf(p, entries, level, id, slot, pick, fs, next);
  }

  lemma ArrayPropertyStep(p: Property, item: Node, level: nat, id: int, slot: FormatSlot, pick: FormatPick, t: ColumnType)
    requires p.schema == WithItems(["array"], item) && Truthy(item)
    requires ArrayItemType(item, level, pick) == Ok(t)
    ensures ObjectStep(p, level, id, slot, pick) == Ok(Step(Some(ListOf(t)), id + 1, Bound(None)))
  {
    ArrayDispatch();
    ArrayPropertyStepOf(p, item, level, id, slot, pick, t);
  }

  /** An object as the items of an array: its fields, numbered from 1. */
  lemma ObjectItem(item: Node, ns: seq<string>, entries: seq<Property>, level: nat, pick: FormatPick, fs: seq<Field>, next: int)
    requires ns == ["object"] || ns == ["object", "null"]
    requires item == WithProperties(ns, entries)
    requires ObjectLoop(entries, level + 1, 1, Unbound, pick) == Ok((fs, next))
    ensures ArrayItemType(item, level, pick) == Ok(StructOf(fs))
  {
    ObjectDispatch(ns);
    ObjectItemOf(item, entries, level, pick, fs, next);
  }

  /** One iteration of the object loop followed by the rest of it. */
  lemma Cons(p: Property, rest: seq<Property>, level: nat, id: int, slot: FormatSlot, pick: FormatPick, step: Step, fs: seq<Field>, next: int)
    requires ObjectStep(p, level, id, slot, pick) == Ok(step)
    requires ObjectLoop(rest, level, step.nextId, step.format, pick) == Ok((fs, next))
    ensures ObjectLoop([p] + rest, level, id, slot, pick)
            == Ok(((if step.column.Some? then [Field(p.name, step.column.value, id)] else []) + fs, next))
  {
    assert ([p] + rest)[0] == p && ([p] + rest)[1..] == rest;
  }

  /** A loop over a single property that yields a column. */
  lemma Single(p: Property, level: nat, id: int, slot: FormatSlot, pick: FormatPick, step: Step)
    requires step.column.Some?
    requires ObjectStep(p, level, id, slot, pick) == Ok(step)
    ensures ObjectLoop([p], level, id, slot, pick) == Ok(([Field(p.name, step.column.value, id)], step.nextId))
  {
    assert ObjectLoop([], level, step.nextId, step.format, pick) == Ok(([], step.nextId));
    Cons(p, [], level, id, slot, pick, step, [], step.nextId);
    assert [p] + [] == [p];
    assert [Field(p.name, step.column.value, id)] + [] == [Field(p.name, step.column.value, id)];
  }

  /** A loop over two properties that both yield a column. */
  lemma Pair(p: Property, q: Property, level: nat, id: int, slot: FormatSlot, pick: FormatPick, step: Step, f: Field, next: int)
    requires step.column.Some?
    requires ObjectStep(p, level, id, slot, pick) == Ok(step)
    requires ObjectLoop([q], level, step.nextId, step.format, pick) == Ok(([f], next))
    ensures ObjectLoop([p, q], level, id, slot, pick) == Ok(([Field(p.name, step.column.value, id), f], next))
  {
    Cons(p, [q], level, id, slot, pick, step, [f], next);
    assert [p] + [q] == [p, q];
    assert [Field(p.name, step.column.value, id)] + [f] == [Field(p.name, step.column.value, id), f];
  }

  /** A loop over three properties that all yield a column. */
  lemma Triple(p: Property, q: Property, r: Property, level: nat, id: int, slot: FormatSlot, pick: FormatPick, step: Step, f: Field, g: Field, next: int)
    requires step.column.Some?
    requires ObjectStep(p, level, id, slot, pick) == Ok(step)
    requires ObjectLoop([q, r], level, step.nextId, step.format, pick) == Ok(([f, g], next))
    ensures ObjectLoop([p, q, r], level, id, slot, pick) == Ok(([Field(p.name, step.column.value, id), f, g], next))
  {
    Cons(p, [q, r], level, id, slot, pick, step, [f, g], next);
    assert [p] + [q, r] == [p, q, r];
    assert [Field(p.name, step.column.value, id)] + [f, g] == [Field(p.name, step.column.value, id), f, g];
  }

  //----------------------------------------------------------------------
  // Whole schemas
  //----------------------------------------------------------------------

  /** The record schema's fields are those of its top-level loop. */
  lemma Top(ps: seq<Property>, pick: FormatPick, fs: seq<Field>, next: int)
    requires ObjectLoop(ps, 0, 1, Unbound, pick) == Ok((fs, next))
    ensures SchemaFields(Schema(ps), pick) == Ok(fs)
  {
  }

  function TagProperty(tag: string): Property
  {
    Property(tag, Typed(["string", "null"]))
  }

  function MetaProperty(meta: string, tag: string): Property
  {
    Property(meta, WithProperties(["object", "null"], [TagProperty(tag)]))
  }

  lemma MetaNumbering(meta: string, tag: string, pick: FormatPick)
    ensures ObjectLoop([MetaProperty(meta, tag)], 0, 3, Bound(None), pick)
            == Ok(([Field(meta, StructOf([Field(tag, Utf8, 4)]), 3)], 5))
  {
    StringStep(TagProperty(tag), ["string", "null"], 1, 4, Unbound, pick);
    Single(TagProperty(tag), 1, 4, Unbound, pick, Step(Some(Utf8), 5, Bound(None)));
    var fs := [Field(tag, Utf8, 4)];
    ObjectPropertyStep(MetaProperty(meta, tag), ["object", "null"], [TagProperty(tag)], 0, 3, Bound(None), pick, fs, 5);
    Single(MetaProperty(meta, tag), 0, 3, Bound(None), pick, Step(Some(StructOf(fs)), 5, Bound(None)));
  }

  /** Properties id, name and meta, with meta holding tag: the fields are
      numbered 1, 2, 4 and meta 3, taken before its tag is visited. */
  lemma NestedNumbering(id: string, name: string, meta: string, tag: string, pick: FormatPick)
    ensures SchemaFields(Schema([
              Property(id, Typed(["integer"])),
              Property(name, Typed(["string", "null"])),
              MetaProperty(meta, tag)]), pick)
            == Ok([Field(id, Int64, 1),
                   Field(name, Utf8, 2),
                   Field(meta, StructOf([Field(tag, Utf8, 4)]), 3)])
  {
    var p0 := Property(id, Typed(["integer"]));
    var p1 := Property(name, Typed(["string", "null"]));
    var p2 := MetaProperty(meta, tag);
    var m := Field(meta, StructOf([Field(tag, Utf8, 4)]), 3);
    MetaNumbering(meta, tag, pick);
    StringStep(p1, ["string", "null"], 0, 2, Bound(None), pick);
    Pair(p1, p2, 0, 2, Bound(None), pick, Step(Some(Utf8), 3, Bound(None)), m, 5);
    IntegerStep(p0, 0, 1, Unbound, pick);
    Triple(p0, p1, p2, 0, 1, Unbound, pick, Step(Some(Int64), 2, Bound(None)), Field(name, Utf8, 2), m, 5);
    Top([p0, p1, p2], pick, [Field(id, Int64, 1), Field(name, Utf8, 2), m], 5);
  }

  /** {"type": ["string", "null"], "format": "date"} is a date directly in
      the record. */
  lemma DateAtTopLevel(day: string, pick: FormatPick)
    ensures SchemaFields(Schema([Property(day, Formatted(["string", "null"], "date"))]), pick)
            == Ok([Field(day, Date64, 1)])
  {
    var p := Property(day, Formatted(["string", "null"], "date"));
    DateStep(p, ["string", "null"], 0, 1, Unbound, pick);
    Single(p, 0, 1, Unbound, pick, Step(Some(Date64), 2, Bound(Some("date"))));
  }

  /** The same property one object deeper is a plain string. */
  lemma DateNestedIsString(day: string, o: string, pick: FormatPick)
    ensures SchemaFields(Schema([Property(o, WithProperties(["object"], [Property(day, Formatted(["string", "null"], "date"))]))]), pick)
            == Ok([Field(o, StructOf([Field(day, Utf8, 2)]), 1)])
  {
    var p := Property(day, Formatted(["string", "null"], "date"));
    DateStep(p, ["string", "null"], 1, 2, Unbound, pick);
    Single(p, 1, 2, Unbound, pick, Step(Some(Utf8), 3, Bound(Some("date"))));
    var q := Property(o, WithProperties(["object"], [p]));
    var fs := [Field(day, Utf8, 2)];
    ObjectPropertyStep(q, ["object"], [p], 0, 1, Unbound, pick, fs, 3);
    Single(q, 0, 1, Unbound, pick, Step(Some(StructOf(fs)), 3, Bound(None)));
  }

  function DayItem(day: string): Node
  {
    WithProperties(["object"], [Property(day, Formatted(["string"], "date"))])
  }

  lemma DayItemType(day: string, pick: FormatPick)
    ensures ArrayItemType(DayItem(day), 0, pick) == Ok(StructOf([Field(day, Utf8, 1)]))
  {
    var p := Property(day, Formatted(["string"], "date"));
    DateStep(p, ["string"], 1, 1, Unbound, pick);
    Single(p, 1, 1, Unbound, pick, Step(Some(Utf8), 2, Bound(Some("date"))));
    ObjectItem(DayItem(day), ["object"], [p], 0, pick, [Field(day, Utf8, 1)], 2);
  }

  /** An object inside an array numbers its fields from 1 again, and its
      strings are never temporal. */
  lemma ObjectsInArraysRestart(a: string, tags: string, day: string, pick: FormatPick)
    ensures SchemaFields(Schema([
              Property(a, Typed(["integer"])),
              Property(tags, WithItems(["array"], DayItem(day)))]), pick)
            == Ok([Field(a, Int64, 1),
                   Field(tags, ListOf(StructOf([Field(day, Utf8, 1)])), 2)])
  {
    var s := StructOf([Field(day, Utf8, 1)]);
    DayItemType(day, pick);
    var q := Property(tags, WithItems(["array"], DayItem(day)));
    ArrayPropertyStep(q, DayItem(day), 0, 2, Bound(None), pick, s);
    Single(q, 0, 2, Bound(None), pick, Step(Some(ListOf(s)), 3, Bound(None)));
    var p := Property(a, Typed(["integer"]));
    IntegerStep(p, 0, 1, Unbound, pick);
    Pair(p, q, 0, 1, Unbound, pick, Step(Some(Int64), 2, Bound(None)), Field(tags, ListOf(s), 2), 3);
    Top([p, q], pick, [Field(a, Int64, 1), Field(tags, ListOf(s), 2)], 3);
  }

  /** The anyOf branches {"type": "string"} and {"type": "null"}. */
  function StringOrNull(): seq<Node>
  {
    [Node(Some(Name("string")), None, None, None, Missing, false),
     Node(Some(Name("null")), None, None, None, Missing, false)]
  }

  lemma StringOrNullFlattens()
    ensures FlatTypes(StringOrNull()) == ["string", "null"]
  {
    var bs := StringOrNull();
    assert bs[..1][..0] == [];
    assert FlatTypes(bs[..1]) == ["string"];
  }

  lemma StringOrNullReduces(pick: FormatPick)
    ensures AnyOfTypes(StringOrNull()) == ["string", "null"]
    ensures AnyOfFormat(StringOrNull(), pick) == None
  {
    StringOrNullFlattens();
    var bs := StringOrNull();
    assert bs[..1][..0] == [];
    assert BranchFormats(bs[..1]) == [];
    assert BranchFormats(bs) == [];
  }

  /** {"anyOf": [{"type": "string"}, {"type": "null"}]} translates as
      {"type": ["string", "null"]} does. */
  lemma AnyOfLikeTypeList(name: string, level: nat, id: int, slot: FormatSlot, pick: FormatPick)
    ensures ObjectStep(Property(name, Node(None, None, Some(StringOrNull()), None, Missing, false)), level, id, slot, pick)
            == ObjectStep(Property(name, Typed(["string", "null"])), level, id, slot, pick)
  {
    var n := Node(None, None, Some(StringOrNull()), None, Missing, false);
    StringOrNullReduces(pick);
    assert ObjectPathDecl(n) == Names(["string", "null"]);
    assert FormatAfter(n, slot, pick) == Bound(None);
    IcebergProperties.DefaultIsString();
  }

  /** An untyped property after a date property is itself a date column: it
      reads the `format` the date property left. */
  lemma UntypedAfterDate(a: string, b: string, pick: FormatPick)
    ensures SchemaFields(Schema([
              Property(a, Formatted(["string"], "date")),
              Property(b, Untyped())]), pick)
            == Ok([Field(a, Date64, 1), Field(b, Date64, 2)])
  {
    var q := Property(b, Untyped());
    UntypedStep(q, 0, 2, Some("date"), pick);
    assert TemporalType("date") == Date64;
    Single(q, 0, 2, Bound(Some("date")), pick, Step(Some(Date64), 3, Bound(Some("date"))));
    var p := Property(a, Formatted(["string"], "date"));
    DateStep(p, ["string"], 0, 1, Unbound, pick);
    Pair(p, q, 0, 1, Unbound, pick, Step(Some(Date64), 2, Bound(Some("date"))), Field(b, Date64, 2), 3);
    Top([p, q], pick, [Field(a, Date64, 1), Field(b, Date64, 2)], 3);
  }

  /** The same untyped property first in its object raises instead. */
  lemma UntypedFirst(a: string, b: string, pick: FormatPick)
    ensures SchemaFields(Schema([
              Property(b, Untyped()),
              Property(a, Formatted(["string"], "date"))]), pick)
            == Err(FormatUnbound)
  {
    var ps := [Property(b, Untyped()), Property(a, Formatted(["string"], "date"))];
    IcebergProperties.UntypedFirstFails(b, Untyped(), 0, 1, pick);
    assert ObjectStep(ps[0], 0, 1, Unbound, pick) == Err(FormatUnbound);
  }
}
