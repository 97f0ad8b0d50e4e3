/** Two branches as they are written, beside the branches the rest of the
    model uses. The "array" branch of get_pyarrow_schema_from_object calls
    get_pyarrow_schema_from_array with a keyword argument `field_id` that the
    function does not declare, so Python raises a TypeError before the call
    starts, whatever the items are. The "object" branch of
    get_pyarrow_schema_from_array hands pa.struct the whole pair that the
    object function returns. */
module IcebergAsWritten {
  import opened Wrappers
  import opened SingerSchema
  import opened Arrow
  import opened Iceberg

  /** What the two branches raise as written: the unexpected keyword, or
      pa.struct given something that is not a sequence of fields; or an
      exception of the nested translation, passed on. */
  datatype Raised = UnexpectedKeywordFieldId | StructGivenPair | Propagated(failure: Failure)

  /** The "array" branch as written: with non-empty "items" the call raises;
      otherwise the field is a list of nulls and the counter is untouched. */
  function ArrayBranchAsWritten(val: Node, after: int, format: FormatSlot): (r: Result<Step, Raised>)
    ensures r.Err? <==> val.items.Some? && Truthy(val.items.value)
    ensures r.Ok? ==> r.value.column == Some(ListOf(Null)) && r.value.nextId == after
  {
    if val.items.Some? && Truthy(val.items.value) then Err(UnexpectedKeywordFieldId)
    else Ok(Step(Some(ListOf(Null)), after, format))
  }

  /** The property {"type": ["array"], "items": {"type": ["string"]}} raises as
      written, where the evidently intended branch gives a list of strings and
      leaves the counter where it was. */
  lemma StringListRaises(level: nat, after: int, format: FormatSlot, pick: FormatPick)
    ensures var n := Node(Some(Names(["array"])), None, None,
                          Some(Node(Some(Names(["string"])), None, None, None, Missing, false)), Missing, false);
            && ArrayBranchAsWritten(n, after, format) == Err(UnexpectedKeywordFieldId)
            && Resolve(n, Some(Array), level, after, format, pick) == Ok(Step(Some(ListOf(Utf8)), after, format))
  {
    var item := Node(Some(Names(["string"])), None, None, None, Missing, false);
    assert FirstDeclared(ArrayPriority, item.typ.value) == 0;
  }

  /** The "object" branch of get_pyarrow_schema_from_array as written: the
      nested call returns the pair (fields, field_id), and pa.struct receives
      that pair, whose elements are a list and an int rather than fields, so
      the branch raises whenever the nested call returns. */
  function ObjectItemBranchAsWritten(items: Node, level: nat, pick: FormatPick): (r: Result<ColumnType, Raised>)
    ensures r.Err?
    ensures items.properties.Given? && ObjectLoop(items.properties.entries, level + 1, 1, Unbound, pick).Ok?
            ==> r == Err(StructGivenPair)
  {
    match items.properties
    case Missing => Err(Propagated(MissingProperties))
    case Given(entries) =>
      match ObjectLoop(entries, level + 1, 1, Unbound, pick)
      case Err(e) => Err(Propagated(e))
      case Ok(_) => Err(StructGivenPair)
  }

  /** The items {"type": ["object"], "properties": {}} raise as written, where
      the evidently intended branch gives the empty struct. */
  lemma EmptyObjectItemsRaise(level: nat, pick: FormatPick)
    ensures var items := Node(Some(Names(["object"])), None, None, None, Given([]), false);
            && ObjectItemBranchAsWritten(items, level, pick) == Err(StructGivenPair)
            && ArrayItemType(items, level, pick) == Ok(StructOf([]))
  {
    var items := Node(Some(Names(["object"])), None, None, None, Given([]), false);
    ObjectOnly(ItemsDecl(items).value);
    assert ObjectLoop([], level + 1, 1, Unbound, pick) == Ok(([], 1));
  }

  /** The array path dispatches the list ["object"] to its object branch. */
  lemma ObjectOnly(d: TypeDecl)
    requires d == Names(["object"])
    ensures Dispatch(ArrayPriority, d) == Some(Object)
  {
    assert forall j :: 0 <= j < 5 ==> ArrayPriority[j] != Object && !Declares(d, Spelling(ArrayPriority[j]));
    assert FirstDeclared(ArrayPriority, d) == 5;
  }
}
