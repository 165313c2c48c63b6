/** `RecordsetConverter`: turns what SQL Server sends back into the objects a client
    asked for. Mutations report the rows they touched and, when asked, the rows read
    back; aggregates read the first row; finds rebuild one object per row of the
    first recordset, nest many-to-one relations from dotted column names and attach
    to-many relations from the next recordset, keeping the child rows whose
    `__parent_<pk>` columns match the parent's `__<pk>` columns. */
module RecordsetConverter {
  import opened Js
  import opened Schema

  /** What a query hands back: the rows each statement touched, the first recordset,
      and every recordset in order. */
  datatype QueryResult = QueryResult(rowsAffected: seq<int>, recordset: seq<Fields>, recordsets: seq<seq<Fields>>)

  /** A mutation's answer: how many rows it touched and, when asked, the rows read back. */
  datatype BatchResult = BatchResult(count: int, returning: Option<seq<Value>>)

  const PendingProjection := "Pending implement projection for all object when value is true"

  /** `for (const row of result.recordsets[i])` past the last recordset. */
  const MissingRecordset := TypeError("undefined is not iterable")

  /** `relation.type` when no relation has the include's name. */
  const MissingRelation := TypeError("Cannot read properties of undefined")

  /** `rowsAffected.reduce((a, b) => a + b, 0)` */
  function Sum(xs: seq<int>): int
  {
    if xs == [] then 0 else Sum(xs[..|xs| - 1]) + xs[|xs| - 1]
  }

  // ---------------------------------------------------------------- the specification

  /** The item `convertEntityRecordsetRowSelect` builds from the first entries of a
      selection: each key takes the row's value under the prefixed key. */
  function SelectItems(row: Fields, prefix: string, entries: Fields): Fields
  {
    if entries == [] then []
    else
      var key := entries[|entries| - 1].0;
      Put(SelectItems(row, prefix, entries[..|entries| - 1]), key, Lookup(row, prefix + key))
  }

  /** `convertEntityRecordsetRowSelect(row, select, prefix)` */
  function Selection(row: Fields, select: Value, prefix: string): Fields
  {
    SelectItems(row, prefix, Entries(select))
  }

  /** The key record of the first primary columns: `__<name>` of the row under `<name>`. */
  function KeyItems(pks: seq<Column>, row: Fields): Fields
  {
    if pks == [] then []
    else
      var name := pks[|pks| - 1].info.name;
      Put(KeyItems(pks[..|pks| - 1], row), name, Lookup(row, "__" + name))
  }

  /** The key record a parent row hands to its to-many children. */
  function KeyRecord(entity: Entity, row: Fields): Fields
  {
    KeyItems(PrimaryColumns(entity.columns), row)
  }

  /** The parent key `parent[k]` is matched strictly by the row's `__parent_` column. */
  predicate ParentMatch(row: Fields, parent: Fields, k: nat)
    requires k < |parent|
  {
    StrictEq(Lookup(row, "__parent_" + parent[k].0), Lookup(parent, parent[k].0))
  }

  /** The row belongs to the parent: no key of the parent record tells them apart. */
  predicate SameParent(row: Fields, parent: Fields)
  {
    forall k :: 0 <= k < |parent| ==> ParentMatch(row, parent, k)
  }

  /** `convertEntityRecordset`: the objects of one recordset, or the error its first
      failing row throws. */
  function RecordsetOf(entity: Entity, args: Value, result: QueryResult, offset: nat, parent: Fields): Result<seq<Value>>
    decreases |result.recordsets| - offset, 3
  {
    if offset >= |result.recordsets| then Err(MissingRecordset)
    else FoldResult(RowsStep(entity, args, result, offset, parent), [], result.recordsets[offset])
  }

  /** One row of the recordset loop: skipped when it belongs to another parent. */
  function RowsStep(entity: Entity, args: Value, result: QueryResult, offset: nat, parent: Fields)
    : (seq<Value>, Fields) -> Result<seq<Value>>
    requires offset < |result.recordsets|
    decreases |result.recordsets| - offset, 2
  {
    (output: seq<Value>, row: Fields) =>
      if !SameParent(row, parent) then Ok(output)
      else
        var item :- RowOf(entity, args, result, offset, row);
        Ok(output + [item])
  }

  /** `convertEntityRecordsetRow`: the selected columns, then one property per include. */
  function RowOf(entity: Entity, args: Value, result: QueryResult, offset: nat, row: Fields): Result<Value>
    requires offset < |result.recordsets|
    decreases |result.recordsets| - offset, 1
  {
    var select :- Get(args, "select");
    var item :- FoldResult(IncludeStep(entity, result, offset, row), Selection(row, select, ""), Entries(Prop(args, "include")));
    Ok(Obj(item))
  }

  /** The include loop of `convertEntityRecordsetRow`. */
  function IncludeStep(entity: Entity, result: QueryResult, offset: nat, row: Fields)
    : (Fields, (string, Value)) -> Result<Fields>
    requires offset < |result.recordsets|
    decreases |result.recordsets| - offset, 0, 1
  {
    (item: Fields, e: (string, Value)) => IncludeOf(entity, result, offset, row, item, e)
  }

  /** One include of a row: a many-to-one relation nests the `<name>.` columns of the
      same row, a to-many relation reads the next recordset. */
  function IncludeOf(entity: Entity, result: QueryResult, offset: nat, row: Fields, item: Fields, e: (string, Value))
    : Result<Fields>
    requires offset < |result.recordsets|
    decreases |result.recordsets| - offset, 0, 0
  {
    match FindRelation(entity.relations, e.0)
    case None => Err(MissingRelation)
    case Some(relation) =>
      if TypeOf(e.1) != "object" then Err(Raised(PendingProjection))
      else if relation.ManyToOne? then
        Ok(Put(item, e.0, Obj(Selection(row, e.1, relation.info.name + "."))))
      else
        var children :- RecordsetOf(relation.joinEntity, e.1, result, offset + 1, KeyRecord(entity, row));
        Ok(Put(item, e.0, Arr(children)))
  }

  /** `convertFindMany` */
  function FindMany(entity: Entity, args: Value, result: QueryResult): Result<seq<Value>>
  {
    RecordsetOf(entity, args, result, 0, [])
  }

  /** The projection `convertMutationMany` reads the rows back with. */
  function MutationProjection(args: Value): Value
    requires !Nullish(args)
  {
    Obj([("include", Prop(args, "include")), ("select", Prop(args, "select"))])
  }

  /** `convertMutationMany` */
  function MutationMany(entity: Entity, args: Value, result: QueryResult): Result<BatchResult>
  {
    var count := Sum(result.rowsAffected);
    var hasInclude :- Has(args, "include");
    var projected :- if hasInclude then Ok(true) else Has(args, "select");
    if !projected then Ok(BatchResult(count, None))
    else
      var returning :- FindMany(entity, MutationProjection(args), result);
      Ok(BatchResult(count, Some(returning)))
  }

  /** `convertAggregate`: an object that holds `count` when it was asked for. */
  function Aggregate(args: Value, result: QueryResult): Result<Fields>
  {
    var record := if |result.recordset| > 0 then Obj(result.recordset[0]) else Undefined;
    var hasCount :- Has(args, "count");
    if !hasCount then Ok([])
    else
      var count :- Get(record, "count");
      Ok([("count", count)])
  }

  // ---------------------------------------------------------------- the converter

  /** `convertEntityRecordsetRowSelect` */
  method SelectRow(row: Fields, select: Value, prefix: string) returns (item: Fields)
    ensures item == Selection(row, select, prefix)
  {
    var entries := Entries(select);
    item := [];
    for i := 0 to |entries|
      invariant item == SelectItems(row, prefix, entries[..i])
    {
      assert entries[..i + 1][..i] == entries[..i];
      var field := entries[i].0;
      item := Put(item, field, Lookup(row, prefix + field));
    }
    assert entries[..|entries|] == entries;
  }

  /** The key record loop of `convertEntityRecordsetRow`. */
  method BuildKeyRecord(entity: Entity, row: Fields) returns (pkRecord: Fields)
    ensures pkRecord == KeyRecord(entity, row)
  {
    var pks := PrimaryColumns(entity.columns);
    pkRecord := [];
    for i := 0 to |pks|
      invariant pkRecord == KeyItems(pks[..i], row)
    {
      assert pks[..i + 1][..i] == pks[..i];
      var name := pks[i].info.name;
      pkRecord := Put(pkRecord, name, Lookup(row, "__" + name));
    }
    assert pks[..|pks|] == pks;
  }

  /** `convertEntityRecordset` */
  method ConvertRecordset(entity: Entity, args: Value, result: QueryResult, offset: nat, parent: Fields)
    returns (r: Result<seq<Value>>)
    ensures r == RecordsetOf(entity, args, result, offset, parent)
    decreases |result.recordsets| - offset, 3
  {
    if offset >= |result.recordsets| {
      return Err(MissingRecordset);
    }
    var recordset := result.recordsets[offset];
    ghost var step := RowsStep(entity, args, result, offset, parent);
    var output: seq<Value> := [];
    for i := 0 to |recordset|
      invariant FoldResult(step, [], recordset[..i]) == Ok(output)
    {
      FoldResultNext(step, [], recordset, i);
      var row := recordset[i];
      var distinct := DifferentParent(row, parent);
      if distinct {
        continue;
      }
      var item := ConvertRow(entity, args, result, offset, row);
      if item.Err? {
        FoldResultErr(step, [], recordset, i + 1);
        return Err(item.error);
      }
      output := output + [item.value];
    }
    assert recordset[..|recordset|] == recordset;
    return Ok(output);
  }

  /** The inner loop over the parent's keys: set when one of them tells the row and
      the parent apart. */
  method DifferentParent(row: Fields, parent: Fields) returns (distinct: bool)
    ensures distinct <==> !SameParent(row, parent)
  {
    distinct := false;
    for j := 0 to |parent|
      invariant forall k :: 0 <= k < j ==> ParentMatch(row, parent, k)
    {
      var pk := parent[j].0;
      if !StrictEq(Lookup(row, "__parent_" + pk), Lookup(parent, pk)) {
        assert !ParentMatch(row, parent, j);
        distinct := true;
        return;
      }
    }
  }

  /** `convertEntityRecordsetRow` */
  method ConvertRow(entity: Entity, args: Value, result: QueryResult, offset: nat, row: Fields)
    returns (r: Result<Value>)
    requires offset < |result.recordsets|
    ensures r == RowOf(entity, args, result, offset, row)
    decreases |result.recordsets| - offset, 1
  {
    var select := Get(args, "select");
    if select.Err? {
      return Err(select.error);
    }
    var item := SelectRow(row, select.value, "");
    ghost var init := item;
    ghost var step := IncludeStep(entity, result, offset, row);
    var includes := Entries(Prop(args, "include"));
    for i := 0 to |includes|
      invariant FoldResult(step, init, includes[..i]) == Ok(item)
    {
      FoldResultNext(step, init, includes, i);
      var next := ConvertInclude(entity, result, offset, row, item, includes[i]);
      if next.Err? {
        FoldResultErr(step, init, includes, i + 1);
        return Err(next.error);
      }
      item := next.value;
    }
    assert includes[..|includes|] == includes;
    return Ok(Obj(item));
  }

  /** The body of the include loop of `convertEntityRecordsetRow`. */
  method ConvertInclude(entity: Entity, result: QueryResult, offset: nat, row: Fields, item: Fields, e: (string, Value))
    returns (r: Result<Fields>)
    requires offset < |result.recordsets|
    ensures r == IncludeOf(entity, result, offset, row, item, e)
    decreases |result.recordsets| - offset, 0, 0
  {
    var (name, value) := e;
    var relation := FindRelation(entity.relations, name);
    if relation.None? {
      return Err(MissingRelation);
    }
    if relation.value.ManyToOne? {
      if TypeOf(value) != "object" {
        return Err(Raised(PendingProjection));
      }
      var nested := SelectRow(row, value, relation.value.info.name + ".");
      return Ok(Put(item, name, Obj(nested)));
    }
    var pkRecord := BuildKeyRecord(entity, row);
    if TypeOf(value) != "object" {
      return Err(Raised(PendingProjection));
    }
    var children := ConvertRecordset(relation.value.joinEntity, value, result, offset + 1, pkRecord);
    if children.Err? {
      return Err(children.error);
    }
    return Ok(Put(item, name, Arr(children.value)));
  }
}
