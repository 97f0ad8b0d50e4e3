/** The output of the translator: columns typed by an abstract rendering of
    the pyarrow types it constructs, each with its "PARQUET:field_id". */
module Arrow {

  datatype ColumnType =
    | Int64           // pa.int64()
    | Float64         // pa.float64()
    | Bool            // pa.bool_()
    | Utf8            // pa.string()
    | Date64          // pa.date64()
    | Time64          // pa.time64()
    | TimestampUtc    // pa.timestamp("us", tz="UTC")
    | Null            // pa.null()
    | ListOf(item: ColumnType)        // pa.list_(item)
    | StructOf(fields: seq<Field>)    // pa.struct(fields)

  /** pa.field(name, type, metadata={"PARQUET:field_id": fieldId}); pyarrow
      fields are nullable by default, and so is every field here. */
  datatype Field = Field(name: string, typ: ColumnType, fieldId: int)

  predicate Temporal(t: ColumnType)
  {
    t == Date64 || t == Time64 || t == TimestampUtc
  }

  /** No temporal type occurs anywhere in `t`. */
  predicate NoTemporal(t: ColumnType)
  {
    match t
    case ListOf(item) => NoTemporal(item)
    case StructOf(fs) => NoTemporalFields(fs)
    case _ => !Temporal(t)
  }

  predicate NoTemporalFields(fs: seq<Field>)
  {
    forall k :: 0 <= k < |fs| ==> NoTemporal(fs[k].typ)
  }

  /** A temporal type may be `t` itself but occurs nowhere beneath it. */
  predicate TemporalOnlyAtTop(t: ColumnType)
  {
    match t
    case ListOf(item) => NoTemporal(item)
    case StructOf(fs) => NoTemporalFields(fs)
    case _ => true
  }

  function FieldNames(fs: seq<Field>): seq<string>
  {
    if fs == [] then [] else [fs[0].name] + FieldNames(fs[1..])
  }

  /** The field ids of a tree of structs, read in pre-order: a field's own id,
      then those of its struct's fields. Lists are not entered. */
  function PreorderIds(fs: seq<Field>): seq<int>
  {
    if fs == [] then [] else FieldPreorderIds(fs[0]) + PreorderIds(fs[1..])
  }

  function FieldPreorderIds(f: Field): seq<int>
  {
    [f.fieldId] + (if f.typ.StructOf? then PreorderIds(f.typ.fields) else [])
  }

  predicate Increasing(s: seq<int>)
  {
    forall i, j :: 0 <= i < j < |s| ==> s[i] < s[j]
  }

  predicate Within(s: seq<int>, lo: int, hi: int)
  {
    forall i :: 0 <= i < |s| ==> lo <= s[i] < hi
  }
}
