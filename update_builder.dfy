/** `UpdateQueryBuilder`: turns the arguments of an update request into an update
    plan: the filters, the entity and its primary keys, one row of column values per
    data item, and, when the request asks for rows back, a staging table and a
    read-back find plan joined to it. */
module UpdateBuilder {
  import opened Js
  import opened Schema
  import opened FindContext
  import opened WhereBuilder
  import opened FindBuilder
  import opened UpdateContext
  import opened Returning

  const PendingRelations := "Pending implementation create relations"

  function UnexpectedField(field: string): string
  {
    "Unexpected field name " + field
  }

  /** The error a data property that is not a column throws. */
  function FieldError(entity: Entity, field: string): Failure
  {
    if FindRelation(entity.relations, field).Some? then Raised(PendingRelations) else Raised(UnexpectedField(field))
  }

  /** One property of a data item: its value under the column's physical name. */
  function RowPut(entity: Entity, row: Fields, e: (string, Value)): Result<Fields>
  {
    match FindColumn(entity.columns, e.0)
    case Some(c) => Ok(Put(row, c.columnName, e.1))
    case None => Err(FieldError(entity, e.0))
  }

  /** The row loop's step. */
  function RowStep(entity: Entity): (Fields, (string, Value)) -> Result<Fields>
  {
    (row: Fields, e: (string, Value)) => RowPut(entity, row, e)
  }

  /** The row of one data item, or the error its first non-column property throws. */
  function RowOf(entity: Entity, item: Value): Result<Fields>
  {
    FoldResult(RowStep(entity), [], Entries(item))
  }

  function RowsStep(entity: Entity): (seq<Fields>, Value) -> Result<seq<Fields>>
  {
    (rows: seq<Fields>, item: Value) =>
      var row :- RowOf(entity, item);
      Ok(rows + [row])
  }

  /** The read-back join's condition for one primary key column. */
  function KeyCondition(c: Column, alias: Option<string>): Cond
  {
    Cond(ColumnSide(Some(SourceData), c.columnName), "=", Single(ColumnSide(alias, c.columnName)))
  }

  /** `context.pks.map(...)` */
  function KeyConditions(pks: seq<Column>, alias: Option<string>): (r: seq<Cond>)
    ensures |r| == |pks|
    ensures forall k :: 0 <= k < |pks| ==> r[k] == KeyCondition(pks[k], alias)
  {
    if pks == [] then [] else KeyConditions(pks[..|pks| - 1], alias) + [KeyCondition(pks[|pks| - 1], alias)]
  }

  /** The staging table joined as `sourceData` on every primary key column. */
  function SourceJoin(pks: seq<Column>, alias: Option<string>): TableJoin
  {
    TableJoin(InnerJoin, TemporalAccess(OutputData, Some(SourceData)), KeyConditions(pks, alias))
  }

  /** Everything `build` sets before it looks for a projection: the filters, the
      entity, its primary keys and the rows. */
  function HeadOf(entity: Entity, args: Value, buildWhere: WhereFn): Result<UpdatePlan>
  {
    var where :- Get(args, "where");
    var w := if Truthy(where) then buildWhere(where, entity, Filters([], [])) else Run(Filters([], []), None);
    if w.error.Some? then Err(w.error.value) else
    var objects :- Iterate(Prop(args, "data"));
    var rows :- FoldResult(RowsStep(entity), [], objects);
    Ok(EmptyUpdate.(params := w.state.params, where := w.state.where, entity := Some(entity),
                    pks := PrimaryColumns(entity.columns), rows := rows))
  }

  /** The staging table and the read-back plan joined to it, when the request asks
      for rows back. */
  function ReturningOf(p: UpdatePlan, entity: Entity, args: Value): Result<UpdatePlan>
  {
    var projected :- HasProjection(args);
    if !projected then Ok(p) else
    var returning :- BuildPlan(entity, Projection(args));
    if returning.from.None? then Err(NullRead) else
    Ok(p.(tempTable := Some(OutputData),
          returning := Some(returning.(joins := [SourceJoin(p.pks, returning.from.value.alias)] + returning.joins))))
  }

  /** `build`: the plan an update request compiles to, or the error it throws. */
  function UpdatePlanOf(entity: Entity, args: Value, buildWhere: WhereFn): Result<UpdatePlan>
  {
    var p :- HeadOf(entity, args, buildWhere);
    ReturningOf(p, entity, args)
  }

  // ---------------------------------------------------------------- the builder

  /** The inner loop of `build`: one data item's row. */
  method MapRow(entity: Entity, item: Value) returns (r: Result<Fields>)
    ensures r == RowOf(entity, item)
  {
    var step := RowStep(entity);
    var fields := Entries(item);
    var row: Fields := [];
    for i := 0 to |fields|
      invariant FoldResult(step, [], fields[..i]) == Ok(row)
    {
      FoldResultNext(step, [], fields, i);
      var (fieldName, value) := fields[i];
      var column := FindColumn(entity.columns, fieldName);
      if column.Some? {
        row := Put(row, column.value.columnName, value);
      } else {
        FoldResultErr(step, [], fields, i + 1);
        var relation := FindRelation(entity.relations, fieldName);
        if relation.Some? {
          return Err(Raised(PendingRelations));
        } else {
          return Err(Raised(UnexpectedField(fieldName)));
        }
      }
    }
    assert fields[..|fields|] == fields;
    return Ok(row);
  }

  /** The part of `build` before the projection test. */
  method BuildHead(entity: Entity, args: Value, buildWhere: WhereFn, context: UpdateContextQueryBuilder)
    returns (error: Option<Failure>)
    requires context.Plan() == EmptyUpdate
    modifies context
    ensures error.None? <==> HeadOf(entity, args, buildWhere).Ok?
    ensures error.None? ==> context.Plan() == HeadOf(entity, args, buildWhere).value
    ensures error.Some? ==> error.value == HeadOf(entity, args, buildWhere).error
  {
    var where := Get(args, "where");
    if where.Err? {
      return Some(where.error);
    }
    if Truthy(where.value) {
      var w := buildWhere(where.value, entity, Filters(context.params, context.where));
      context.SetFilters(w.state.params, w.state.where);
      if w.error.Some? {
        return w.error;
      }
    }
    context.entity := Some(entity);
    context.pks := PrimaryColumns(entity.columns);
    ghost var p0 := context.Plan();
    var objects := Iterate(Prop(args, "data"));
    if objects.Err? {
      return Some(objects.error);
    }
    var items := objects.value;
    var step := RowsStep(entity);
    for i := 0 to |items|
      invariant FoldResult(step, [], items[..i]) == Ok(context.rows)
      invariant context.Plan() == p0.(rows := context.rows)
    {
      FoldResultNext(step, [], items, i);
      var row := MapRow(entity, items[i]);
      if row.Err? {
        FoldResultErr(step, [], items, i + 1);
        return Some(row.error);
      }
      context.rows := context.rows + [row.value];
    }
    assert items[..|items|] == items;
    return None;
  }

  /** The projection test of `build` and the read-back plan it wires up. */
  method BuildReturning(entity: Entity, args: Value, context: UpdateContextQueryBuilder)
    returns (error: Option<Failure>)
    modifies context
    ensures var r := ReturningOf(old(context.Plan()), entity, args);
      (error.None? <==> r.Ok?) && (error.None? ==> context.Plan() == r.value)
      && (error.Some? ==> error.value == r.error)
  {
    var projected := HasProjection(args);
    if projected.Err? {
      return Some(projected.error);
    }
    if projected.value {
      context.tempTable := Some(OutputData);
      var finder := FindBuilder.Build(entity, Projection(args));
      if finder.Err? {
        return Some(finder.error);
      }
      var returning := finder.value;
      if returning.from.None? {
        return Some(NullRead);
      }
      returning.joins := [SourceJoin(context.pks, returning.from.value.alias)] + returning.joins;
      context.returning := Some(returning.Plan());
    }
    return None;
  }

  /** `build` */
  method Build(entity: Entity, args: Value, buildWhere: WhereFn) returns (r: Result<UpdateContextQueryBuilder>)
    ensures r.Ok? <==> UpdatePlanOf(entity, args, buildWhere).Ok?
    ensures r.Ok? ==> fresh(r.value) && r.value.Plan() == UpdatePlanOf(entity, args, buildWhere).value
    ensures r.Err? ==> r.error == UpdatePlanOf(entity, args, buildWhere).error
  {
    var context := new UpdateContextQueryBuilder();
    var error := BuildHead(entity, args, buildWhere, context);
    if error.Some? {
      return Err(error.value);
    }
    error := BuildReturning(entity, args, context);
    if error.Some? {
      return Err(error.value);
    }
    return Ok(context);
  }
}
