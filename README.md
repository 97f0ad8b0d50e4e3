# A verified model of the target-iceberg schema translator

target-iceberg is a Singer target that writes records into Apache Iceberg
tables. Before it creates a table it must turn the stream's Singer schema,
a JSON-Schema dictionary whose `properties` map column names to types, into
a pyarrow schema. Each pyarrow field is annotated with a `PARQUET:field_id`.
`singer_to_pyarrow_schema` does this through three nested helpers:

- `process_anyof_schema` collapses an `anyOf` into a type list and one format.
- `get_pyarrow_schema_from_array` resolves an array's `items` to an item type.
- `get_pyarrow_schema_from_object` walks `properties` in order. It gives every
  property the next field id from a counter that runs through nested objects.

This project models those helpers in Dafny and proves what the translation
promises. It has these modules:

- `SingerSchema` (singer_schema.dfy) is the input. A schema dictionary is a
  `Node` and a property is a `Property`. Python's `name in type` is modelled
  exactly: a substring test when `type` is a string, a membership test when it
  is a list. The if/elif chains are a `Dispatch` over a fixed order of type
  names.
- `Arrow` (arrow.dfy) is the output. It has an abstract `ColumnType` for the
  pyarrow types the code builds, and `Field(name, typ, fieldId)`.
- `Iceberg` (iceberg.dfy) is the translator, in the form the code has:
  - `ProcessAnyOf` and the object loop `TranslateObject` are methods with
    loops.
  - Each method is proved equal to a specification function: `AnyOfTypes` and
    `AnyOfFormat`, and `ObjectLoop`, `ObjectStep` and `Resolve`.
  - The array path, a pure recursive dispatch, is the function
    `ArrayItemType`.
  - A Python exception becomes an `Err` of `Failure`.
  - The loop variable `format`, which an untyped property reads without
    assigning, is modelled faithfully. It is a `FormatSlot`: unbound, or the
    last value assigned.
  - `list(set(formats))[0]` depends on string hashing. It is modelled by a
    parameter `pick` that chooses one of the collected formats.
- `IcebergProperties` (iceberg_properties.dfy) holds the proofs about the
  translation: field ids, names and order, temporal types, dispatch order and
  fallbacks.
- `IcebergExamples` (iceberg_examples.dfy) holds whole schemas and the exact
  field lists they give.
- `IcebergAsWritten` (iceberg_as_written.dfy) holds the array branch as it is
  written (see Findings).
- `Wrappers` (wrappers.dfy) defines `Option` and `Result`.

The model follows the code, including where it departs from what a reader
might expect:

- The object path tests `integer` before `string`, but the array path tests
  `string` first.
- The anyOf format is any one of the branch formats, not the first one.
- A nested object without `properties` raises. It is not treated as empty.
- An untyped property reads a stale or unbound `format`.
- Objects inside arrays number their fields from 1 again.

## Model

| member | source | states |
|---|---|---|
| Iceberg.ProcessAnyOf | target_iceberg/iceberg.py:11-32 | the loop over the anyOf branches returns exactly the reduced type list `AnyOfTypes` and the chosen format `AnyOfFormat` |
| Iceberg.FlatTypesMembers | target_iceberg/iceberg.py:16-25 | a name is among the collected types iff some branch declares it (its "type" string, or a member of its "type" list) |
| Iceberg.BranchFormatsMembers | target_iceberg/iceberg.py:17-20 | a format is collected iff some branch has it as a truthy "format" |
| Iceberg.AnyOfTypesSpec | target_iceberg/iceberg.py:25-31 | the reduced type list is one of [], ["string"], ["null"], ["string","null"]; it holds "string" iff some branch declares "string", and "null" iff some branch declares "null" |
| Iceberg.AnyOfFormatSpec | target_iceberg/iceberg.py:19-32 | the returned format is None iff no branch has a truthy format; otherwise it is the format of some branch |
| IcebergProperties.AnyFormatCanBeChosen | target_iceberg/iceberg.py:26-32 | every truthy branch format is returned under some set order, so no more can be promised than "one of the branch formats" |
| Iceberg.TemporalType | target_iceberg/iceberg.py:91-106 | a truthy format gives a temporal type: Date64 iff it is "date", Time64 iff it is "time", a UTC timestamp otherwise |
| Iceberg.ReadDeclaration | target_iceberg/iceberg.py:72-79 | the type is "type", else the anyOf reduction, else ["string","null"]; `format` is assigned in the first two cases and left as it was in the third |
| Iceberg.TranslateObject | target_iceberg/iceberg.py:63-132 | the loop over `properties` returns exactly the fields and the final counter of `ObjectLoop`, or the exception it raises |
| Iceberg.TranslateProperty | target_iceberg/iceberg.py:69-130 | one iteration takes the counter's value as the property's id, increments it before resolving the type, and equals `ObjectStep` |
| Iceberg.ResolveColumn | target_iceberg/iceberg.py:81-130 | the if/elif chain over integer, number, boolean, string, array, object equals `Resolve`; no branch matched means no column |
| Iceberg.ResolveArray | target_iceberg/iceberg.py:109-121 | the array branch gives a list of the item type, or a list of nulls when "items" is missing or empty, and keeps the counter |
| Iceberg.ResolveObject | target_iceberg/iceberg.py:122-130 | the object branch gives a struct of the nested fields; they continue the counter, and the counter they leave is the loop's |
| Iceberg.ObjectCase | target_iceberg/iceberg.py:122-130 | without "properties" the object branch raises; otherwise it is the struct of the nested loop at level + 1 from the current counter |
| Iceberg.SingerToPyarrowSchema | target_iceberg/iceberg.py:134-137 | the schema's fields are those of the object loop over its "properties" at level 0 from id 1; missing "properties" raises |
| SingerSchema.FirstDeclared | target_iceberg/iceberg.py:81-122 | an if/elif chain takes the first name in its order that the declaration names, and none before it names |
| SingerSchema.SingleNameDeclaresItself | target_iceberg/iceberg.py:81 | a "type" string that is one type name declares that name and no other, although `in` on a string is a substring test |
| IcebergProperties.FieldsFollowProperties | target_iceberg/iceberg.py:68-130 | the field names are the names of the properties that take a branch, in the order of `properties`; there are never more fields than properties |
| IcebergProperties.StepColumn | target_iceberg/iceberg.py:81-130 | a property yields a field iff its type names one of the six branches |
| IcebergProperties.LoopCounter | target_iceberg/iceberg.py:69-70 | the returned counter is the start plus the number of properties visited in pre-order, nested objects included |
| IcebergProperties.StepCounter | target_iceberg/iceberg.py:69-70 | one property advances the counter by one plus what its nested object visits |
| IcebergProperties.LoopIds | target_iceberg/iceberg.py:69-132 | in pre-order the ids of an object tree strictly increase from the start to below the returned counter: ids are distinct and a struct's id is below every id inside it |
| IcebergProperties.StepIds | target_iceberg/iceberg.py:69-130 | a property's own id is below every id in its struct, and all of them are below the counter it leaves |
| IcebergProperties.FlatIds | target_iceberg/iceberg.py:63-70 | without nested objects each field's id is the start plus the position of its own property, and the counter returned is the start plus the number of properties |
| IcebergProperties.ContiguousIds | target_iceberg/iceberg.py:63-70 | when every property of a flat object takes a branch, the k-th field is the k-th property, with id start + k |
| IcebergProperties.UnmatchedConsumesId | target_iceberg/iceberg.py:69-70 | a property whose type names no branch appends no field but still consumes an id |
| IcebergProperties.TemporalOnlyAtLevelZero | target_iceberg/iceberg.py:88 | temporal types appear only on fields directly in the record: nothing inside a struct or a list is temporal, and no field below level 0 is |
| IcebergProperties.StepTemporal | target_iceberg/iceberg.py:87-130 | one property's column is temporal only at its top, and only at level 0 |
| Iceberg.ArrayItemType | target_iceberg/iceberg.py:34-61 | the array path: items with neither "type" nor a non-empty "anyOf" raise; the item type is the null type exactly when the declaration names no branch; it is never temporal. Its lemmas add that nothing inside it is temporal (`ItemsNeverTemporal`), that it does not depend on the level (`ItemTypeLevelIrrelevant`), that "string" is tested before "integer" (`IntegerStringTranslations`) and that object items are numbered from 1 (`ObjectItemsNumberedFromOne`) |
| IcebergProperties.ItemsNeverTemporal | target_iceberg/iceberg.py:34-61 | the array path never reads "format": no item type contains a temporal type |
| IcebergProperties.StringColumn | target_iceberg/iceberg.py:87-108 | a string property at level 0 with a truthy format is Date64 for "date", Time64 for "time" and a UTC timestamp otherwise; at other levels or without a format it is Utf8; an unbound `format` raises |
| IcebergProperties.LevelIrrelevantBelowTop | target_iceberg/iceberg.py:122-127 | below level 0 the depth makes no difference to an object's translation |
| IcebergProperties.StepLevelIrrelevant | target_iceberg/iceberg.py:81-130 | below level 0 the depth makes no difference to one property |
| IcebergProperties.ResolveLevelIrrelevant | target_iceberg/iceberg.py:81-130 | below level 0 the depth makes no difference to the if/elif chain |
| IcebergProperties.ItemTypeLevelIrrelevant | target_iceberg/iceberg.py:34-61 | the array path's result does not depend on the level it is given |
| IcebergProperties.IntegerFirstInObjectsStringFirstInArrays | target_iceberg/iceberg.py:42-87 | a declaration naming both "integer" and "string" dispatches to string in the array path (lines 42-44) and to integer in the object path (lines 81-87) |
| IcebergProperties.IntegerStringTranslations | target_iceberg/iceberg.py:42-82 | such a property is an Int64 column (lines 81-82), while such array items are Utf8 (lines 42-43) |
| IcebergProperties.DefaultIsString | target_iceberg/iceberg.py:79 | the default declaration ["string","null"] takes the string branch |
| IcebergProperties.UntypedReusesFormat | target_iceberg/iceberg.py:77-79 | a property with neither "type" nor "anyOf" is read as ["string","null"] with the `format` the previous property left |
| IcebergProperties.UntypedFirstFails | target_iceberg/iceberg.py:77-88 | such a property met before any `format` was assigned raises |
| IcebergProperties.MissingItemsGiveListOfNull | target_iceberg/iceberg.py:118-121 | an array property whose "items" is missing or empty is a list of nulls and takes one id |
| IcebergProperties.ItemsResolvedCounterKept | target_iceberg/iceberg.py:111-117 | an array property with non-empty "items" is a list of the item type, and the item type takes no ids |
| IcebergProperties.ObjectItemsNumberedFromOne | target_iceberg/iceberg.py:54-59 | object items are a struct of the fields of their own loop at level + 1, numbered afresh from 1, and the counter that loop returns is dropped; missing "properties" raises |
| IcebergProperties.UnrecognisedItemsGiveNull | target_iceberg/iceberg.py:60-61 | items whose type names no branch give the null type |
| IcebergExamples.NestedNumbering | target_iceberg/iceberg.py:69-70 | integer, string and an object holding one string are numbered 1, 2, 3 and 4 inside the object: the parent takes its id before its children |
| IcebergExamples.DateAtTopLevel | target_iceberg/iceberg.py:88-94 | {"type": ["string","null"], "format": "date"} in the record is a Date64 field with id 1 |
| IcebergExamples.DateNestedIsString | target_iceberg/iceberg.py:107-108 | the same property one object deeper is a Utf8 field with id 2 |
| IcebergExamples.ObjectsInArraysRestart | target_iceberg/iceberg.py:54-59 | with the intended array branch, an object in an array is a struct whose fields are numbered from 1 again, with a date string as Utf8; as written this schema raises, since the `tags` property takes the call at lines 112-114 |
| IcebergExamples.AnyOfLikeTypeList | target_iceberg/iceberg.py:75-76 | {"anyOf": [{"type": "string"}, {"type": "null"}]} translates as {"type": ["string","null"]} does |
| IcebergExamples.StringOrNullReduces | target_iceberg/iceberg.py:16-32 | the branches {"type": "string"} and {"type": "null"} reduce to ["string","null"] with no format |
| IcebergExamples.UntypedAfterDate | target_iceberg/iceberg.py:77-79 | an untyped property after a date property is a Date64 column too |
| IcebergExamples.UntypedFirst | target_iceberg/iceberg.py:77-79 | an untyped property first in the record makes the translation raise |
| IcebergAsWritten.ArrayBranchAsWritten | target_iceberg/iceberg.py:109-121 | as written, the array branch raises iff "items" is non-empty, and otherwise gives a list of nulls with the counter untouched |
| IcebergAsWritten.StringListRaises | target_iceberg/iceberg.py:112-114 | {"type": ["array"], "items": {"type": ["string"]}} raises as written, where the intended branch gives a list of Utf8 and keeps the counter |
| IcebergAsWritten.ObjectItemBranchAsWritten | target_iceberg/iceberg.py:54-59 | as written, the object branch of the array path always raises: the nested translation's exception if it has one, else the one pa.struct raises on the pair it is given |
| IcebergAsWritten.EmptyObjectItemsRaise | target_iceberg/iceberg.py:55-58 | items {"type": ["object"], "properties": {}} raise as written, where the intended branch gives the empty struct |

## Left out

- target_iceberg/sinks.py is not part of this model. It is input and output
  around external pyiceberg catalog and table objects.
- `singer_to_pyiceberg_schema` (target_iceberg/iceberg.py:140-144) is left out.
  It only hands the result to pyiceberg's `pyarrow_to_schema`, a foreign call.
- The `self.logger` calls (target_iceberg/iceberg.py:39, 78) are logging only.
- pyarrow objects are abstracted. `ColumnType` stands for the types built, the
  "PARQUET:field_id" metadata dictionary is the integer `fieldId`, and
  `pa.schema` is the field list. The nullability of `pa.field` is a pyarrow
  detail.
- Iceberg.TemporalType: the "time" branch (target_iceberg/iceberg.py:95-98) calls `pa.time64()` with
  no unit argument. pyarrow's `time64` expects a unit, so that call may raise
  as written. `Time64` stands for the intended time-of-day type, and the model
  does not say whether the call raises.
- Input values are restricted to the shapes the translator reads:
  - A key given the JSON value null counts as absent, and this departs from
    the code in three places. The object path tests `"type" in val.keys()`
    (line 72), so `{"type": null}` makes `"integer" in None` raise a
    TypeError at line 81. The model instead reads the property as untyped:
    a string-branch column (Utf8, or a temporal type from a stale `format`)
    or `FormatUnbound`. Likewise `{"anyOf": null}` makes
    `for val in None` raise at line 17, where the model again reads the
    property as untyped. Third, `if items:` (line 111) tests the items
    dictionary's truthiness, and a dictionary whose keys all hold null,
    such as `{"type": null}`, is truthy. The code then raises at lines
    112-114 as written, or at line 42 (`"string" in None`) on the intended
    call. The model reads those keys as absent, so it treats the items as
    empty and gives a list of nulls.
  - `type` holds a string or a list of strings.
  - "properties" and "items" hold dictionaries.
  - Non-string list elements, and the errors Python would raise on other
    shapes, are not modelled.
- The order of `set(formats)` is not modelled. A `pick` parameter chooses
  the element instead, so every result holds for any choice.
- Iceberg.ResolveArray: does not model the TypeError that the call at
  target_iceberg/iceberg.py:112-114 raises. It models the evidently intended
  behaviour: the item type is resolved and the counter is unchanged. The code
  as written is in `IcebergAsWritten` (see Findings).
- Iceberg.ArrayItemType: an object inside an array passes the whole
  `(fields, field_id)` tuple to `pa.struct` (target_iceberg/iceberg.py:55-59).
  The model keeps only the fields, numbered from 1, as the evident intent.
  The code as written is in `IcebergAsWritten` (see Findings). As written, the
  array path is reached only through the call at lines 112-114, which already
  raises.
- Catalog provisioning, namespaces and concurrent table creation are not
  present in these files.

## Findings

| source | as written | input that shows it | evidently intended | confidence | as-written member | corrected member |
|---|---|---|---|---|---|---|
| target_iceberg/iceberg.py:112-114 | the array branch calls `get_pyarrow_schema_from_array(items=..., level=..., field_id=...)`, which takes no `field_id` parameter, and unpacks two values from a single returned type | a property {"type": ["array"], "items": {"type": ["string"]}} | a list of the item type, with the counter unchanged | high, not executed | IcebergAsWritten.StringListRaises | IcebergProperties.ItemsResolvedCounterKept |
| target_iceberg/iceberg.py:55-58 | the object branch of the array path passes the pair `(fields, field_id)` returned by `get_pyarrow_schema_from_object` to `pa.struct`, which expects a sequence of fields | items {"type": ["object"], "properties": {}} | a struct of the returned fields only | medium (depends on pyarrow rejecting a list and an int as fields), not executed | IcebergAsWritten.EmptyObjectItemsRaise | IcebergProperties.ObjectItemsNumberedFromOne |
