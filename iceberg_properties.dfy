/** What the translator promises, proved about the functions of module Iceberg
    (and so, through their contracts, about its methods). */
module IcebergProperties {
  import opened Wrappers
  import opened SingerSchema
  import opened Arrow
  import opened Iceberg

  //----------------------------------------------------------------------
  // Reference definitions
  //----------------------------------------------------------------------

  /** The branch of the object path a property takes. */
  function KindOf(p: Property): Option<TypeName>
  {
    Dispatch(ObjectPriority, ObjectPathDecl(p.schema))
  }

  /** The property's nested object, when it takes the object branch. */
  predicate EntersObject(p: Property)
  {
    KindOf(p) == Some(Object) && p.schema.properties.Given?
  }

  /** The number of properties a pre-order walk visits, entering the
      properties of every property that takes the object branch. */
  function Visited(props: seq<Property>): nat
    decreases props
  {
    if props == [] then 0 else VisitedUnder(props[0]) + Visited(props[1..])
  }

  function VisitedUnder(p: Property): nat
    decreases p
  {
    1 + (if EntersObject(p) then Visited(p.schema.properties.entries) else 0)
  }

  /** The names of the properties that take some branch, in order. */
  function MatchedNames(props: seq<Property>): seq<string>
  {
    if props == [] then []
    else (if KindOf(props[0]).Some? then [props[0].name] else []) + MatchedNames(props[1..])
  }

  /** No property takes the object branch. */
  predicate Flat(props: seq<Property>)
  {
    forall j :: 0 <= j < |props| ==> KindOf(props[j]) != Some(Object)
  }

  //----------------------------------------------------------------------
  // Helpers about sequences
  //----------------------------------------------------------------------

  lemma {:induction false} PreorderConcat(a: seq<Field>, b: seq<Field>)
    ensures PreorderIds(a + b) == PreorderIds(a) + PreorderIds(b)
  {
    if a == [] {
      assert a + b == b;
    } else {
      assert (a + b)[0] == a[0] && (a + b)[1..] == a[1..] + b;
      PreorderConcat(a[1..], b);
    }
  }

  lemma {:induction false} NamesConcat(a: seq<Field>, b: seq<Field>)
    ensures FieldNames(a + b) == FieldNames(a) + FieldNames(b)
  {
    if a == [] {
      assert a + b == b;
    } else {
      assert (a + b)[0] == a[0] && (a + b)[1..] == a[1..] + b;
      NamesConcat(a[1..], b);
    }
  }

  /** Two increasing runs, the first below `mid` and the second from `mid`,
      make one increasing run. */
  lemma IncreasingConcat(a: seq<int>, b: seq<int>, lo: int, mid: int, hi: int)
    requires lo <= mid <= hi
    requires Increasing(a) && Within(a, lo, mid)
    requires Increasing(b) && Within(b, mid, hi)
    ensures Increasing(a + b) && Within(a + b, lo, hi)
  {
    assert forall i :: 0 <= i < |a| ==> (a + b)[i] == a[i];
    assert forall i :: |a| <= i < |a + b| ==> (a + b)[i] == b[i - |a|];
  }

  /** The outcome of the first property of the loop, and what precedes the rest. */
  lemma LoopHead(props: seq<Property>, level: nat, id: int, slot: FormatSlot, pick: FormatPick)
    requires props != [] && ObjectLoop(props, level, id, slot, pick).Ok?
    ensures ObjectStep(props[0], level, id, slot, pick).Ok?
    ensures var step := ObjectStep(props[0], level, id, slot, pick).value;
            var rest := ObjectLoop(props[1..], level, step.nextId, step.format, pick);
            var own := if step.column.Some? then [Field(props[0].name, step.column.value, id)] else [];
            rest.Ok? && ObjectLoop(props, level, id, slot, pick).value == (own + rest.value.0, rest.value.1)
  {
  }

  //----------------------------------------------------------------------
  // Output names and order
  //----------------------------------------------------------------------

  /** A property yields a column exactly when it takes some branch. */
  lemma StepColumn(p: Property, level: nat, id: int, slot: FormatSlot, pick: FormatPick)
    requires ObjectStep(p, level, id, slot, pick).Ok?
    ensures ObjectStep(p, level, id, slot, pick).value.column.Some? <==> KindOf(p).Some?
  {
  }

  /** The fields keep the names and the order of the properties that take a
      branch; a property whose type matches no branch yields no field. */
  lemma {:induction false} FieldsFollowProperties(props: seq<Property>, level: nat, id: int, slot: FormatSlot, pick: FormatPick)
    requires ObjectLoop(props, level, id, slot, pick).Ok?
    ensures FieldNames(ObjectLoop(props, level, id, slot, pick).value.0) == MatchedNames(props)
    ensures |ObjectLoop(props, level, id, slot, pick).value.0| <= |props|
  {
    if props != [] {
      LoopHead(props, level, id, slot, pick);
      var step := ObjectStep(props[0], level, id, slot, pick).value;
      StepColumn(props[0], level, id, slot, pick);
      var own := if step.column.Some? then [Field(props[0].name, step.column.value, id)] else [];
      var rest := ObjectLoop(props[1..], level, step.nextId, step.format, pick).value.0;
      FieldsFollowProperties(props[1..], level, step.nextId, step.format, pick);
      NamesConcat(own, rest);
    }
  }

  //----------------------------------------------------------------------
  // The field id counter
  //----------------------------------------------------------------------

  /** The counter advances by one for every property visited in pre-order,
      nested objects included, whether or not the property yields a field. */
  lemma {:induction false} LoopCounter(props: seq<Property>, level: nat, id: int, slot: FormatSlot, pick: FormatPick)
    requires ObjectLoop(props, level, id, slot, pick).Ok?
    ensures ObjectLoop(props, level, id, slot, pick).value.1 == id + Visited(props)
    decreases props
  {
    if props != [] {
      LoopHead(props, level, id, slot, pick);
      StepCounter(props[0], level, id, slot, pick);
      var step := ObjectStep(props[0], level, id, slot, pick).value;
      LoopCounter(props[1..], level, step.nextId, step.format, pick);
    }
  }

  lemma {:induction false} StepCounter(p: Property, level: nat, id: int, slot: FormatSlot, pick: FormatPick)
    requires ObjectStep(p, level, id, slot, pick).Ok?
    ensures ObjectStep(p, level, id, slot, pick).value.nextId == id + VisitedUnder(p)
    decreases p
  {
    if EntersObject(p) {
      LoopCounter(p.schema.properties.entries, level + 1, id + 1, Unbound, pick);
    }
  }

  /** In pre-order the field ids of an object tree strictly increase, from the
      starting counter to below the returned one: ids are distinct and a
      struct's id is smaller than every id inside it. */
  lemma {:induction false} LoopIds(props: seq<Property>, level: nat, id: int, slot: FormatSlot, pick: FormatPick)
    requires ObjectLoop(props, level, id, slot, pick).Ok?
    ensures var (fields, next) := ObjectLoop(props, level, id, slot, pick).value;
            id <= next && Increasing(PreorderIds(fields)) && Within(PreorderIds(fields), id, next)
    decreases props
  {
    if props != [] {
      LoopHead(props, level, id, slot, pick);
      var step := ObjectStep(props[0], level, id, slot, pick).value;
      StepIds(props[0], level, id, slot, pick);
      LoopIds(props[1..], level, step.nextId, step.format, pick);
      var own := if step.column.Some? then [Field(props[0].name, step.column.value, id)] else [];
      var (rest, next) := ObjectLoop(props[1..], level, step.nextId, step.format, pick).value;
      PreorderConcat(own, rest);
      if step.column.Some? {
        assert own[1..] == [];
      }
      IncreasingConcat(PreorderIds(own), PreorderIds(rest), id, step.nextId, next);
    }
  }

  lemma {:induction false} StepIds(p: Property, level: nat, id: int, slot: FormatSlot, pick: FormatPick)
    requires ObjectStep(p, level, id, slot, pick).Ok?
    ensures var step := ObjectStep(p, level, id, slot, pick).value;
            id < step.nextId
            && (step.column.Some? ==>
                  var ids := FieldPreorderIds(Field(p.name, step.column.value, id));
                  Increasing(ids) && Within(ids, id, step.nextId))
    decreases p
  {
    var step := ObjectStep(p, level, id, slot, pick).value;
    if EntersObject(p) {
      var entries := p.schema.properties.entries;
      LoopIds(entries, level + 1, id + 1, Unbound, pick);
      var inner := ObjectLoop(entries, level + 1, id + 1, Unbound, pick).value.0;
      IncreasingConcat([id], PreorderIds(inner), id, id + 1, step.nextId);
    }
  }

  /** Every field has the id `id` plus the position of a property, and that
      property's name. */
  predicate IdsAtPositions(fields: seq<Field>, props: seq<Property>, id: int)
  {
    forall k :: 0 <= k < |fields| ==>
      0 <= fields[k].fieldId - id < |props| && fields[k].name == props[fields[k].fieldId - id].name
  }

  lemma IdsAtPositionsCons(own: seq<Field>, rest: seq<Field>, props: seq<Property>, id: int)
    requires props != []
    requires own == [] || (|own| == 1 && own[0].fieldId == id && own[0].name == props[0].name)
    requires IdsAtPositions(rest, props[1..], id + 1)
    ensures IdsAtPositions(own + rest, props, id)
  {
    var fields := own + rest;
    forall k | 0 <= k < |fields|
      ensures 0 <= fields[k].fieldId - id < |props| && fields[k].name == props[fields[k].fieldId - id].name
    {
      if k < |own| {
        assert fields[k] == own[0];
      } else {
        var f := rest[k - |own|];
        assert fields[k] == f;
        assert props[1..][f.fieldId - (id + 1)] == props[f.fieldId - id];
      }
    }
  }

  /** For a flat schema the field of the property at position j (from 0) has
      id start + j, and the counter returned is start + |props|. */
  lemma {:induction false} FlatIds(props: seq<Property>, level: nat, id: int, slot: FormatSlot, pick: FormatPick)
    requires Flat(props)
    requires ObjectLoop(props, level, id, slot, pick).Ok?
    ensures var (fields, next) := ObjectLoop(props, level, id, slot, pick).value;
            next == id + |props| && IdsAtPositions(fields, props, id)
  {
    if props != [] {
      LoopHead(props, level, id, slot, pick);
      var step := ObjectStep(props[0], level, id, slot, pick).value;
      assert forall j :: 0 <= j < |props| - 1 ==> props[1..][j] == props[j + 1];
      StepCounter(props[0], level, id, slot, pick);
      FlatIds(props[1..], level, step.nextId, step.format, pick);
      var own := if step.column.Some? then [Field(props[0].name, step.column.value, id)] else [];
      var rest := ObjectLoop(props[1..], level, step.nextId, step.format, pick).value.0;
      IdsAtPositionsCons(own, rest, props, id);
    }
  }

  /** The n properties of a flat schema that all take a branch are numbered
      start, start + 1, ..., start + n - 1, in order. */
  lemma {:induction false} ContiguousIds(props: seq<Property>, level: nat, id: int, slot: FormatSlot, pick: FormatPick)
    requires Flat(props)
    requires forall j :: 0 <= j < |props| ==> KindOf(props[j]).Some?
    requires ObjectLoop(props, level, id, slot, pick).Ok?
    ensures var (fields, next) := ObjectLoop(props, level, id, slot, pick).value;
            |fields| == |props| && next == id + |props|
            && forall k :: 0 <= k < |fields| ==> fields[k].fieldId == id + k && fields[k].name == props[k].name
  {
    if props != [] {
      LoopHead(props, level, id, slot, pick);
      StepColumn(props[0], level, id, slot, pick);
      var step := ObjectStep(props[0], level, id, slot, pick).value;
      assert forall j :: 0 <= j < |props| - 1 ==> props[1..][j] == props[j + 1];
      StepCounter(props[0], level, id, slot, pick);
      ContiguousIds(props[1..], level, step.nextId, step.format, pick);
      var rest := ObjectLoop(props[1..], level, step.nextId, step.format, pick).value.0;
      ContiguousCons(Field(props[0].name, step.column.value, id), rest, props, id);
    }
  }

  lemma ContiguousCons(f: Field, rest: seq<Field>, props: seq<Property>, id: int)
    requires props != [] && f.fieldId == id && f.name == props[0].name
    requires |rest| == |props| - 1
    requires forall k :: 0 <= k < |rest| ==> rest[k].fieldId == id + 1 + k && rest[k].name == props[1..][k].name
    ensures forall k :: 0 <= k < |[f] + rest| ==> ([f] + rest)[k].fieldId == id + k && ([f] + rest)[k].name == props[k].name
  {
    assert forall k :: 1 <= k < |[f] + rest| ==> ([f] + rest)[k] == rest[k - 1] && props[1..][k - 1] == props[k];
  }

  //----------------------------------------------------------------------
  // Temporal types and the nesting level
  //----------------------------------------------------------------------

  /** Temporal types are chosen only for fields directly in the record
      (level 0): nothing nested in a struct or a list is ever temporal. */
  lemma {:induction false} TemporalOnlyAtLevelZero(props: seq<Property>, level: nat, id: int, slot: FormatSlot, pick: FormatPick)
    requires ObjectLoop(props, level, id, slot, pick).Ok?
    ensures var fields := ObjectLoop(props, level, id, slot, pick).value.0;
            (forall k :: 0 <= k < |fields| ==> TemporalOnlyAtTop(fields[k].typ))
            && (level > 0 ==> NoTemporalFields(fields))
    decreases props
  {
    if props != [] {
      LoopHead(props, level, id, slot, pick);
      var step := ObjectStep(props[0], level, id, slot, pick).value;
      StepTemporal(props[0], level, id, slot, pick);
      TemporalOnlyAtLevelZero(props[1..], level, step.nextId, step.format, pick);
    }
  }

  lemma {:induction false} StepTemporal(p: Property, level: nat, id: int, slot: FormatSlot, pick: FormatPick)
    requires ObjectStep(p, level, id, slot, pick).Ok?
    ensures var column := ObjectStep(p, level, id, slot, pick).value.column;
            column.Some? ==> TemporalOnlyAtTop(column.value) && (level > 0 ==> NoTemporal(column.value))
    decreases p
  {
    var n := p.schema;
    var kind := KindOf(p);
    if kind == Some(Array) && n.items.Some? && Truthy(n.items.value) {
      ItemsNeverTemporal(n.items.value, level, pick);
    } else if kind == Some(Object) && n.properties.Given? {
      TemporalOnlyAtLevelZero(n.properties.entries, level + 1, id + 1, Unbound, pick);
    }
  }

  /** The array path ignores "format": no temporal type occurs in an item type. */
  lemma {:induction false} ItemsNeverTemporal(items: Node, level: nat, pick: FormatPick)
    requires ArrayItemType(items, level, pick).Ok?
    ensures NoTemporal(ArrayItemType(items, level, pick).value)
    decreases items
  {
    var decl := ItemsDecl(items);
    var r := ArrayItemType(items, level, pick).value;
    match Dispatch(ArrayPriority, decl.value) {
      case Some(Array) =>
        ItemsNeverTemporal(items.items.value, level, pick);
        assert r == ListOf(ArrayItemType(items.items.value, level, pick).value);
      case Some(Object) =>
        var entries := items.properties.entries;
        TemporalOnlyAtLevelZero(entries, level + 1, 1, Unbound, pick);
        assert r == StructOf(ObjectLoop(entries, level + 1, 1, Unbound, pick).value.0);
      case _ =>
        assert r in {Utf8, Int64, Float64, Bool, Null};
    }
  }

  /** Below the top level the level makes no difference to an object; and
      since the array path passes its level on unchanged to arrays and adds
      one for objects, an item type does not depend on the level at all. */
  lemma {:induction false} LevelIrrelevantBelowTop(props: seq<Property>, l1: nat, l2: nat, id: int, slot: FormatSlot, pick: FormatPick)
    requires l1 > 0 && l2 > 0
    ensures ObjectLoop(props, l1, id, slot, pick) == ObjectLoop(props, l2, id, slot, pick)
    decreases props
  {
    if props != [] {
      StepLevelIrrelevant(props[0], l1, l2, id, slot, pick);
      match ObjectStep(props[0], l1, id, slot, pick) {
        case Err(_) =>
        case Ok(step) => LevelIrrelevantBelowTop(props[1..], l1, l2, step.nextId, step.format, pick);
      }
    }
  }

  lemma {:induction false} StepLevelIrrelevant(p: Property, l1: nat, l2: nat, id: int, slot: FormatSlot, pick: FormatPick)
    requires l1 > 0 && l2 > 0
    ensures ObjectStep(p, l1, id, slot, pick) == ObjectStep(p, l2, id, slot, pick)
    decreases p
  {
    var n := p.schema;
    ResolveLevelIrrelevant(n, Dispatch(ObjectPriority, ObjectPathDecl(n)), l1, l2, id + 1, FormatAfter(n, slot, pick), pick);
  }

  lemma {:induction false} ResolveLevelIrrelevant(n: Node, kind: Option<TypeName>, l1: nat, l2: nat, after: int, format: FormatSlot, pick: FormatPick)
    requires l1 > 0 && l2 > 0
    ensures Resolve(n, kind, l1, after, format, pick) == Resolve(n, kind, l2, after, format, pick)
    decreases n
  {
    match kind {
      case Some(Array) =>
        if n.items.Some? {
          ItemTypeLevelIrrelevant(n.items.value, l1, l2, pick);
        }
      case Some(Object) =>
        if n.properties.Given? {
          LevelIrrelevantBelowTop(n.properties.entries, l1 + 1, l2 + 1, after, Unbound, pick);
        }
      case _ =>
    }
  }

  lemma {:induction false} ItemTypeLevelIrrelevant(items: Node, l1: nat, l2: nat, pick: FormatPick)
    ensures ArrayItemType(items, l1, pick) == ArrayItemType(items, l2, pick)
    decreases items
  {
    if items.items.Some? {
      ItemTypeLevelIrrelevant(items.items.value, l1, l2, pick);
    }
    if items.properties.Given? {
      LevelIrrelevantBelowTop(items.properties.entries, l1 + 1, l2 + 1, 1, Unbound, pick);
    }
  }

  /** A string property: at level 0 a truthy format gives Date64 for "date",
      Time64 for "time" and a UTC timestamp otherwise; at any other level or
      without a format it gives Utf8. Reading `format` before any property has
      assigned it fails. */
  lemma StringColumn(p: Property, level: nat, id: int, slot: FormatSlot, pick: FormatPick)
    requires KindOf(p) == Some(String)
    ensures var format := FormatAfter(p.schema, slot, pick);
            var r := ObjectStep(p, level, id, slot, pick);
            if format.Unbound? then r == Err(FormatUnbound)
            else if level == 0 && format.value == Some("date") then r == Ok(Step(Some(Date64), id + 1, format))
            else if level == 0 && format.value == Some("time") then r == Ok(Step(Some(Time64), id + 1, format))
            else if level == 0 && HasFormat(format.value) then r == Ok(Step(Some(TimestampUtc), id + 1, format))
            else r == Ok(Step(Some(Utf8), id + 1, format))
  {
  }

  //----------------------------------------------------------------------
  // Dispatch order and fallbacks
  //----------------------------------------------------------------------

  /** A declaration naming both "integer" and "string" is an integer column
      in the object path but a string item in the array path. */
  lemma IntegerFirstInObjectsStringFirstInArrays(d: TypeDecl)
    requires Declares(d, "integer") && Declares(d, "string")
    ensures Dispatch(ObjectPriority, d) == Some(Integer)
    ensures Dispatch(ArrayPriority, d) == Some(String)
  {
    assert Declares(d, Spelling(ObjectPriority[0]));
    assert Declares(d, Spelling(ArrayPriority[0]));
  }

  /** The same for whole translations: a property {"type": d} becomes an
      Int64 field, items {"type": d} become a Utf8 item type. */
  lemma IntegerStringTranslations(name: string, d: TypeDecl, format: Option<string>, level: nat, id: int, slot: FormatSlot, pick: FormatPick)
    requires Declares(d, "integer") && Declares(d, "string")
    ensures ObjectStep(Property(name, Node(Some(d), format, None, None, Missing, false)), level, id, slot, pick)
            == Ok(Step(Some(Int64), id + 1, Bound(format)))
    ensures ArrayItemType(Node(Some(d), format, None, None, Missing, false), level, pick) == Ok(Utf8)
  {
    IntegerFirstInObjectsStringFirstInArrays(d);
  }

  /** The default declaration ["string", "null"] takes the string branch. */
  lemma DefaultIsString()
    ensures Dispatch(ObjectPriority, Names(["string", "null"])) == Some(String)
  {
    var d := Names(["string", "null"]);
    assert !Declares(d, "integer") && !Declares(d, "number") && !Declares(d, "boolean") && Declares(d, "string");
  }

  /** A property with neither "type" nor "anyOf" is read as ["string", "null"]
      with `format` left as the previous property set it: it translates as a
      typed ["string", "null"] property carrying that format would. */
  lemma UntypedReusesFormat(name: string, n: Node, format: Option<string>, level: nat, id: int, slot: FormatSlot, pick: FormatPick)
    requires n.typ.None? && n.anyOf.None?
    ensures ObjectPathDecl(n) == Names(["string", "null"])
    ensures ObjectStep(Property(name, n), level, id, Bound(format), pick)
            == ObjectStep(Property(name, Node(Some(Names(["string", "null"])), format, None, None, Missing, false)), level, id, slot, pick)
  {
    var d := Names(["string", "null"]);
    var typed := Node(Some(d), format, None, None, Missing, false);
    DefaultIsString();
    assert ObjectStep(Property(name, n), level, id, Bound(format), pick)
        == Resolve(n, Some(String), level, id + 1, Bound(format), pick);
    assert ObjectStep(Property(name, typed), level, id, slot, pick)
        == Resolve(typed, Some(String), level, id + 1, Bound(format), pick);
  }

  /** An untyped property met before any property has assigned `format`
      raises (UnboundLocalError). */
  lemma UntypedFirstFails(name: string, n: Node, level: nat, id: int, pick: FormatPick)
    requires n.typ.None? && n.anyOf.None?
    ensures ObjectStep(Property(name, n), level, id, Unbound, pick) == Err(FormatUnbound)
  {
    DefaultIsString();
  }

  /** An array property whose "items" is missing or empty gives a list of nulls. */
  lemma MissingItemsGiveListOfNull(p: Property, level: nat, id: int, slot: FormatSlot, pick: FormatPick)
    requires KindOf(p) == Some(Array)
    requires p.schema.items.None? || !Truthy(p.schema.items.value)
    ensures ObjectStep(p, level, id, slot, pick) == Ok(Step(Some(ListOf(Null)), id + 1, FormatAfter(p.schema, slot, pick)))
  {
  }

  /** An array property with non-empty "items" is a list of the item type,
      and the counter is left as the property found it (one past its own id):
      the nested item type takes no field ids. */
  lemma ItemsResolvedCounterKept(p: Property, level: nat, id: int, slot: FormatSlot, pick: FormatPick)
    requires KindOf(p) == Some(Array)
    requires p.schema.items.Some? && Truthy(p.schema.items.value)
    ensures var t := ArrayItemType(p.schema.items.value, level, pick);
            ObjectStep(p, level, id, slot, pick)
            == if t.Err? then Err(t.error) else Ok(Step(Some(ListOf(t.value)), id + 1, FormatAfter(p.schema, slot, pick)))
  {
  }

  /** Object items are a struct of the fields of their own loop, at level + 1
      and numbered afresh from 1; the counter that loop leaves is dropped.
      Object items without "properties" raise. */
  lemma ObjectItemsNumberedFromOne(items: Node, level: nat, pick: FormatPick)
    requires ItemsDecl(items).Some? && Dispatch(ArrayPriority, ItemsDecl(items).value) == Some(Object)
    ensures items.properties.Missing? ==> ArrayItemType(items, level, pick) == Err(MissingProperties)
    ensures items.properties.Given? ==>
              var inner := ObjectLoop(items.properties.entries, level + 1, 1, Unbound, pick);
              ArrayItemType(items, level, pick) == if inner.Err? then Err(inner.error) else Ok(StructOf(inner.value.0))
  {
  }

  /** Items whose declared types match no branch give the null type. */
  lemma UnrecognisedItemsGiveNull(items: Node, d: TypeDecl, level: nat, pick: FormatPick)
    requires items.typ == Some(d) && (items.anyOf.None? || items.anyOf.value == [])
    requires forall t: TypeName :: !Declares(d, Spelling(t))
    ensures ArrayItemType(items, level, pick) == Ok(Null)
  {
  }

  /** A property whose declared types match no branch yields no field but
      still consumes a field id. */
  lemma UnmatchedConsumesId(p: Property, level: nat, id: int, slot: FormatSlot, pick: FormatPick)
    requires forall t: TypeName :: !Declares(ObjectPathDecl(p.schema), Spelling(t))
    ensures ObjectStep(p, level, id, slot, pick) == Ok(Step(None, id + 1, FormatAfter(p.schema, slot, pick)))
  {
  }

  /** Every branch format is a possible outcome of the anyOf reduction, for
      some iteration order of the set of formats. */
  lemma AnyFormatCanBeChosen(bs: seq<Node>, j: nat)
    requires j < |bs| && HasFormat(bs[j].format)
    ensures exists pick: FormatPick :: AnyOfFormat(bs, pick) == Some(bs[j].format.value)
  {
    BranchFormatsMembers(bs);
    var formats := BranchFormats(bs);
    var f := bs[j].format.value;
    assert f in formats;
    var k :| 0 <= k < |formats| && formats[k] == f;
    var pick: FormatPick := _ => k;
    SmallRemainder(k, |formats|);
    assert pick(formats) % |formats| == k;
    assert AnyOfFormat(bs, pick) == Some(f);
  }

  lemma SmallRemainder(k: nat, n: nat)
    requires k < n
    ensures k % n == k
  {
  }
}

