/** The update builder of `update-builder.ts` (`UpdateBuilder.build`): one batch that declares a table
    variable for the primary keys, updates the rows the criteria compiler selects under
    the alias `root` with one assignment per `_set` key, and outputs the updated keys
    into that variable. */
module LegacyUpdate {
  import opened Js
  import opened Schema
  import opened LegacySchema
  import opened CriteriaBuilder

  /** `UpdateContextBuilder` as `build` returns it; its `tempTables` stay empty. */
  datatype UpdateOutput = UpdateOutput(chunks: seq<string>, params: Fields)

  /** `printSqlType`: the declaration of a column type, with a length for the variable
      length types. */
  function PrintSqlType(columnType: string): (r: string)
    ensures columnType == "varchar" || columnType == "varbinary" ==> r == columnType + "(6000)"
    ensures columnType != "varchar" && columnType != "varbinary" ==> r == columnType
  {
    columnType + (if columnType == "varchar" || columnType == "varbinary" then "(6000)" else "")
  }

  /** `buildTableNameAccess`: the schema-qualified table under an alias, with a row lock. */
  function TableNameAccessLocked(entity: SqlEntity, alias: string): string
  {
    (if Present(entity.schema) then "[" + entity.schema.value + "]." else "")
    + "[" + entity.name + "] AS [" + alias + "] WITH(ROWLOCK)"
  }

  /** `entity.columns.filter(x => x.isPrimary)` */
  function KeyColumns(columns: seq<SqlColumn>): (r: seq<SqlColumn>)
    ensures forall c :: c in r <==> c in columns && c.isPrimary
  {
    if columns == [] then []
    else (if columns[0].isPrimary then [columns[0]] else []) + KeyColumns(columns[1..])
  }

  /** `${x.name} ${printSqlType(x.type)}` for each key column. */
  function KeyDeclarations(pks: seq<SqlColumn>): (r: seq<string>)
    ensures |r| == |pks| && forall i :: 0 <= i < |r| ==> r[i] == pks[i].name + " " + PrintSqlType(pks[i].columnType)
  {
    if pks == [] then [] else KeyDeclarations(pks[..|pks| - 1]) + [pks[|pks| - 1].name + " " + PrintSqlType(pks[|pks| - 1].columnType)]
  }

  /** `INSERTED.[${c.name}]` for each key column. */
  function InsertedKeys(pks: seq<SqlColumn>): (r: seq<string>)
    ensures |r| == |pks| && forall i :: 0 <= i < |r| ==> r[i] == "INSERTED.[" + pks[i].name + "]"
  {
    if pks == [] then [] else InsertedKeys(pks[..|pks| - 1]) + ["INSERTED.[" + pks[|pks| - 1].name + "]"]
  }

  /** `[${c.name}]` for each column. */
  function Bracketed(columns: seq<SqlColumn>): (r: seq<string>)
    ensures |r| == |columns| && forall i :: 0 <= i < |r| ==> r[i] == "[" + columns[i].name + "]"
  {
    if columns == [] then [] else Bracketed(columns[..|columns| - 1]) + ["[" + columns[|columns| - 1].name + "]"]
  }

  /** One `SET` item: the physical column changes from the variable of its logical name. */
  function Assignment(column: SqlColumn): string
  {
    "[" + column.name + "] = @" + column.info.name
  }

  /** The `SET` items and the parameters bound for them: one per key of `_set`, in key
      order; a key that is not a column's field crashes the map. */
  function SetItems(columns: seq<SqlColumn>, changes: Fields): Result<(seq<string>, Fields)>
  {
    if changes == [] then Ok(([], []))
    else
      var prev :- SetItems(columns, changes[..|changes| - 1]);
      var name := changes[|changes| - 1].0;
      var column := ColumnOfField(columns, name);
      if column.None? then Err(UndefinedRead)
      else Ok((prev.0 + [Assignment(column.value)], Put(prev.1, column.value.info.name, Lookup(changes, name))))
  }

  /** `DECLARE @<Entity> As table (<key> <type>, …)` */
  function KeyTable(entity: SqlEntity): string
  {
    "DECLARE @" + entity.info.name + " As table (" + Join(KeyDeclarations(KeyColumns(entity.columns)), ", ") + ")"
  }

  /** `OUTPUT INSERTED.[<key>], … INTO @<Entity>([<key>], …)` */
  function KeyOutput(entity: SqlEntity): string
  {
    "OUTPUT " + KeyOutputTarget(entity)
  }

  function KeyOutputTarget(entity: SqlEntity): string
  {
    var pks := KeyColumns(entity.columns);
    Join(InsertedKeys(pks), ", ") + " INTO @" + entity.info.name + "(" + Join(Bracketed(pks), ", ") + ")"
  }

  /** The statement's lines after the filter has compiled. */
  function UpdateChunks(entity: SqlEntity, items: seq<string>, filtered: QueryContext): seq<string>
  {
    [KeyTable(entity), "UPDATE [root]", "SET " + Join(items, ", "), KeyOutput(entity), "FROM " + TableNameAccessLocked(entity, "root")]
    + filtered.joins
    + (if |filtered.wheres| > 0 then ["WHERE " + Join(filtered.wheres, " AND ")] else [])
  }

  /** An empty query context for the filter to fill. */
  const Blank := QueryContext([], None, "", [], [], [], "", Undefined, Undefined, Undefined)

  /** `UpdateBuilder.build`: the batch and its parameters, or the error it throws. */
  function UpdateOf(entities: seq<SqlEntity>, entity: SqlEntity, projection: Projection): (r: Result<UpdateOutput>)
    requires projection.Expand?
    ensures Nullish(projection.args) ==> r.Err?
    ensures r.Ok? ==> |r.value.chunks| >= 5 && r.value.chunks[1] == "UPDATE [root]"
  {
    var setValue :- Get(projection.args, "_set");
    var properties :- OwnProperties(setValue);
    var filtered :- WhereOf(entities, Blank, "root", entity, Prop(projection.args, "where"), None);
    var items :- SetItems(entity.columns, properties);
    Ok(UpdateOutput(UpdateChunks(entity, items.0, filtered), Assign(items.1, filtered.params)))
  }

  /** `UpdateBuilder.build` */
  method Build(entities: seq<SqlEntity>, entity: SqlEntity, projection: Projection) returns (r: Result<UpdateOutput>)
    requires projection.Expand?
    ensures r == UpdateOf(entities, entity, projection)
  {
    var setValue := Get(projection.args, "_set");
    if setValue.Err? {
      return Err(setValue.error);
    }
    var properties := OwnProperties(setValue.value);
    if properties.Err? {
      return Err(properties.error);
    }
    var filtered := BuildWhere(entities, Blank, "root", entity, Prop(projection.args, "where"), None);
    if filtered.Err? {
      return Err(filtered.error);
    }
    var items := MapSet(entity.columns, properties.value);
    if items.Err? {
      return Err(items.error);
    }
    var chunks := UpdateChunks(entity, items.value.0, filtered.value);
    return Ok(UpdateOutput(chunks, Assign(items.value.1, filtered.value.params)));
  }

  /** The loop over the keys of `_set` that writes one assignment and binds one
      parameter per key. */
  method MapSet(columns: seq<SqlColumn>, fields: Fields) returns (r: Result<(seq<string>, Fields)>)
    ensures r == SetItems(columns, fields)
  {
    var items: seq<string> := [];
    var params: Fields := [];
    for i := 0 to |fields|
      invariant SetItems(columns, fields[..i]) == Ok((items, params))
    {
      assert fields[..i + 1][..i] == fields[..i];
      var column := ColumnOfField(columns, fields[i].0);
      if column.None? {
        SetItemsErr(columns, fields, i + 1);
        return Err(UndefinedRead);
      }
      LookupPrefix(fields, i);
      params := Put(params, column.value.info.name, Lookup(fields, fields[i].0));
      items := items + [Assignment(column.value)];
    }
    assert fields[..|fields|] == fields;
    return Ok((items, params));
  }

  /** Reading a key through a longer list finds what the prefix holding the key holds. */
  lemma {:induction false} LookupPrefix(fields: Fields, i: nat)
    requires i < |fields|
    ensures Lookup(fields[..i + 1], fields[i].0) == Lookup(fields, fields[i].0)
  {
    if i > 0 && fields[0].0 != fields[i].0 {
      assert fields[..i + 1][1..] == fields[1..][..i];
      LookupPrefix(fields[1..], i - 1);
    }
  }

  /** Once a key fails, the whole map fails the same way. */
  lemma {:induction false} SetItemsErr(columns: seq<SqlColumn>, changes: Fields, i: nat)
    requires 0 < i <= |changes| && SetItems(columns, changes[..i]).Err?
    ensures SetItems(columns, changes) == SetItems(columns, changes[..i])
    decreases |changes| - i
  {
    if i == |changes| {
      assert changes[..i] == changes;
    } else {
      assert changes[..i + 1][..i] == changes[..i];
      SetItemsErr(columns, changes, i + 1);
    }
  }
}
