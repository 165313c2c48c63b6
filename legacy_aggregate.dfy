/** The aggregate builder of `aggregate-builder.ts` (`AggregateBuilder.build`): a query context over the
    entity's table under `<prefix>.<Entity>`, filtered by the criteria compiler, whose
    columns are one `COUNT(1)` per `count` field and one `AVG` per column named under
    an `avg` aggregator; every other aggregator is passed over. */
module LegacyAggregate {
  import opened Js
  import opened Schema
  import opened LegacySchema
  import opened CriteriaBuilder

  const CountColumn := "COUNT(1) AS [count]"

  /** `for (const x of undefined)`: the crash when a non-`count` field has no sub-fields. */
  const NotIterable := TypeError("undefined is not iterable")

  /** The column an `avg` aggregator selects for one of the entity's columns. */
  function AvgColumn(alias: string, column: SqlColumn): string
  {
    "AVG([" + alias + "].[" + column.name + "]) AS [avg." + column.info.name + "]"
  }

  /** One pass of the inner loop: the column is looked up for every aggregator, but only
      `avg` reads it, so only `avg` fails on a field that is not a column. */
  function PropertyStep(alias: string, columns: seq<SqlColumn>, aggregator: string): (seq<string>, Projection) -> Result<seq<string>>
  {
    (out: seq<string>, property: Projection) =>
      var column := ColumnOfField(columns, property.name);
      if aggregator == "avg" then
        if column.None? then Err(UndefinedRead) else Ok(out + [AvgColumn(alias, column.value)])
      else Ok(out)
  }

  /** One pass of the outer loop over the fields of the `aggregate` selection. */
  function FieldStep(alias: string, columns: seq<SqlColumn>): (seq<string>, Projection) -> Result<seq<string>>
  {
    (out: seq<string>, field: Projection) =>
      if field.name == "count" then Ok(out + [CountColumn])
      else if field.FieldItem? then Err(NotIterable)
      else FoldResult(PropertyStep(alias, columns, field.name), out, field.fields)
  }

  /** `projection.fields.find(x => x.name === 'aggregate')` */
  function AggregateField(fields: seq<Projection>): (r: Option<Projection>)
    ensures r.Some? ==> r.value in fields && r.value.name == "aggregate"
    ensures r.None? <==> forall f :: f in fields ==> f.name != "aggregate"
  {
    if fields == [] then None
    else if fields[0].name == "aggregate" then Some(fields[0])
    else AggregateField(fields[1..])
  }

  /** `${preffix ? `${preffix}.` : ''}${entity.info.name}` */
  function AggregateAlias(entity: SqlEntity, prefix: Option<string>): string
  {
    Dotted(prefix) + entity.info.name
  }

  /** `AggregateBuilder.build`: the query context, or the error it throws. */
  function AggregateOf(entities: seq<SqlEntity>, projection: Projection, prefix: Option<string>): (r: Result<QueryContext>)
    requires projection.Expand?
    ensures r.Ok? ==> EntityNamed(entities, projection.name).Some?
    ensures EntityNamed(entities, projection.name).None? ==> r == Err(UndefinedRead)
    ensures r.Ok? ==> r.value.orderBy == "" && r.value.into.None?
                      && r.value.top == Undefined && r.value.offset == Undefined && r.value.fetch == Undefined
                      && r.value.from == TableNameAccess(EntityNamed(entities, projection.name).value,
                                                         AggregateAlias(EntityNamed(entities, projection.name).value, prefix))
  {
    var entity := EntityNamed(entities, projection.name);
    if entity.None? then Err(UndefinedRead)
    else
      var alias := AggregateAlias(entity.value, prefix);
      var ctx := QueryContext([], None, TableNameAccess(entity.value, alias), [], [], [], "", Undefined, Undefined, Undefined);
      var where :- Get(projection.args, "where");
      var filtered :- WhereOf(entities, ctx, alias, entity.value, where, None);
      var aggregate := AggregateField(projection.fields);
      if aggregate.None? then Err(UndefinedRead)
      else if aggregate.value.FieldItem? then Err(NotIterable)
      else
        var columns :- FoldResult(FieldStep(alias, entity.value.columns), filtered.columns, aggregate.value.fields);
        Ok(filtered.(columns := columns))
  }

  /** The inner loop over the properties of one aggregator. */
  method PushAggregator(alias: string, columns: seq<SqlColumn>, aggregator: Projection, before: seq<string>)
    returns (r: Result<seq<string>>)
    requires aggregator.Expand?
    ensures r == FoldResult(PropertyStep(alias, columns, aggregator.name), before, aggregator.fields)
  {
    var step := PropertyStep(alias, columns, aggregator.name);
    var properties := aggregator.fields;
    var out := before;
    for j := 0 to |properties|
      invariant FoldResult(step, before, properties[..j]) == Ok(out)
    {
      FoldResultNext(step, before, properties, j);
      var column := ColumnOfField(columns, properties[j].name);
      if aggregator.name == "avg" {
        if column.None? {
          FoldResultErr(step, before, properties, j + 1);
          return Err(UndefinedRead);
        }
        out := out + [AvgColumn(alias, column.value)];
      }
    }
    assert properties[..|properties|] == properties;
    return Ok(out);
  }

  /** `AggregateBuilder.build` */
  method Build(entities: seq<SqlEntity>, projection: Projection, prefix: Option<string>) returns (r: Result<QueryContext>)
    requires projection.Expand?
    ensures r == AggregateOf(entities, projection, prefix)
  {
    var entity := EntityNamed(entities, projection.name);
    if entity.None? {
      return Err(UndefinedRead);
    }
    var aggregate := AggregateField(projection.fields);
    var alias := AggregateAlias(entity.value, prefix);
    var ctx := QueryContext([], None, TableNameAccess(entity.value, alias), [], [], [], "", Undefined, Undefined, Undefined);
    var where := Get(projection.args, "where");
    if where.Err? {
      return Err(where.error);
    }
    var filtered := BuildWhere(entities, ctx, alias, entity.value, where.value, None);
    if filtered.Err? {
      return Err(filtered.error);
    }
    ctx := filtered.value;
    if aggregate.None? {
      return Err(UndefinedRead);
    }
    if aggregate.value.FieldItem? {
      return Err(NotIterable);
    }
    var step := FieldStep(alias, entity.value.columns);
    var fields := aggregate.value.fields;
    for i := 0 to |fields|
      invariant FoldResult(step, filtered.value.columns, fields[..i]) == Ok(ctx.columns)
      invariant ctx == filtered.value.(columns := ctx.columns)
    {
      FoldResultNext(step, filtered.value.columns, fields, i);
      var field := fields[i];
      if field.name == "count" {
        ctx := ctx.(columns := ctx.columns + [CountColumn]);
      } else if field.FieldItem? {
        FoldResultErr(step, filtered.value.columns, fields, i + 1);
        return Err(NotIterable);
      } else {
        var pushed := PushAggregator(alias, entity.value.columns, field, ctx.columns);
        if pushed.Err? {
          FoldResultErr(step, filtered.value.columns, fields, i + 1);
          return Err(pushed.error);
        }
        ctx := ctx.(columns := pushed.value);
      }
    }
    assert fields[..|fields|] == fields;
    return Ok(ctx);
  }
}
