/** `AggregateQueryBuilder`: turns the arguments of an aggregate request into an
    aggregate plan over the entity's table read as `root`. */
module AggregateBuilder {
  import opened Js
  import opened Schema
  import opened FindContext
  import opened WhereBuilder
  import opened FindBuilder
  import opened AggregateContext

  function InvalidField(field: string): string
  {
    "Invalid field: " + field + ", expected field as column. Relations not supported."
  }

  /** One field of an aggregate request: a column, aliased `<type>.<field>`. */
  function AgrStep(kind: string, source: string, columns: seq<Column>): (seq<ColumnRef>, (string, Value)) -> Result<seq<ColumnRef>>
  {
    (out: seq<ColumnRef>, e: (string, Value)) =>
      match FindColumn(columns, e.0)
      case None => Err(Raised(InvalidField(e.0)))
      case Some(c) => Ok(out + [ColumnRef(Some(source), c.columnName, Some(kind + "." + e.0))])
  }

  /** `buildAgrRequest` */
  function AgrRequest(kind: string, source: string, entity: Entity, request: Value): Result<seq<ColumnRef>>
  {
    FoldResult(AgrStep(kind, source, entity.columns), [], Entries(request))
  }

  /** The four aggregate lists of a request, in the order `build` computes them. */
  datatype Aggregates = Aggregates(avg: seq<ColumnRef>, max: seq<ColumnRef>, min: seq<ColumnRef>, sum: seq<ColumnRef>)

  function AggregatesOf(entity: Entity, args: Value): Result<Aggregates>
    requires !Nullish(args)
  {
    var avg :- AgrRequest("avg", "root", entity, Prop(args, "avg"));
    var max :- AgrRequest("max", "root", entity, Prop(args, "max"));
    var min :- AgrRequest("min", "root", entity, Prop(args, "min"));
    var sum :- AgrRequest("sum", "root", entity, Prop(args, "sum"));
    Ok(Aggregates(avg, max, min, sum))
  }

  /** Everything `build` sets before the aggregate lists. */
  function HeadOf(entity: Entity, args: Value, buildWhere: WhereFn): Result<AggregatePlan>
  {
    var p :- FilterOf(entity, args, buildWhere);
    var orderBy := Prop(args, "orderBy");
    var o := if Truthy(orderBy) then FoldRun(OrderStep(entity.columns), [], Entries(orderBy)) else Run([], None);
    if o.error.Some? then Err(o.error.value) else
    Ok(p.(orderBy := o.state, count := StrictEq(Prop(args, "count"), Bool(true))))
  }

  /** The table, paging and filters `build` sets first. */
  function FilterOf(entity: Entity, args: Value, buildWhere: WhereFn): Result<AggregatePlan>
  {
    var skip :- Get(args, "skip");
    var where := Prop(args, "where");
    var w := if Truthy(where) then buildWhere(where, entity, Filters([], [])) else Run(Filters([], []), None);
    if w.error.Some? then Err(w.error.value) else
    Ok(EmptyAggregate.(
      from := Assigned(BuildTableAccessor(entity.tableName, "root", entity.schema, entity.database)),
      skip := skip, take := Prop(args, "take"),
      params := w.state.params, where := w.state.where))
  }

  /** `build`: the plan an aggregate request compiles to, or the error it throws. */
  function AggregatePlanOf(entity: Entity, args: Value, buildWhere: WhereFn): Result<AggregatePlan>
  {
    var p :- HeadOf(entity, args, buildWhere);
    var a :- AggregatesOf(entity, args);
    Ok(p.(avg := a.avg, max := a.max, min := a.min, sum := a.sum))
  }

  method BuildAgrRequest(kind: string, source: string, entity: Entity, request: Value) returns (r: Result<seq<ColumnRef>>)
    ensures r == AgrRequest(kind, source, entity, request)
  {
    var step := AgrStep(kind, source, entity.columns);
    var fields := Entries(request);
    var output: seq<ColumnRef> := [];
    for i := 0 to |fields|
      invariant FoldResult(step, [], fields[..i]) == Ok(output)
    {
      FoldResultNext(step, [], fields, i);
      var field := fields[i].0;
      var column := FindColumn(entity.columns, field);
      if column.None? {
        FoldResultErr(step, [], fields, i + 1);
        return Err(Raised(InvalidField(field)));
      }
      output := output + [ColumnRef(Some(source), column.value.columnName, Some(kind + "." + field))];
    }
    assert fields[..|fields|] == fields;
    return Ok(output);
  }

  /** The part of `build` before the aggregate lists. */
  method BuildHead(entity: Entity, args: Value, buildWhere: WhereFn, context: AggregateContextQueryBuilder)
    returns (error: Option<Failure>)
    requires context.Plan() == EmptyAggregate
    modifies context
    ensures error.None? <==> HeadOf(entity, args, buildWhere).Ok?
    ensures error.None? ==> context.Plan() == HeadOf(entity, args, buildWhere).value
    ensures error.Some? ==> error.value == HeadOf(entity, args, buildWhere).error
  {
    error := BuildFilter(entity, args, buildWhere, context);
    if error.Some? {
      return;
    }
    var orderBy := Prop(args, "orderBy");
    if Truthy(orderBy) {
      var orders;
      orders, error := CollectOrderBy(orderBy, entity, context.orderBy);
      context.orderBy := orders;
      if error.Some? {
        return;
      }
    }
    context.count := StrictEq(Prop(args, "count"), Bool(true));
    return None;
  }

  /** The table, `skip`, `take` and the where builder's filters. */
  method BuildFilter(entity: Entity, args: Value, buildWhere: WhereFn, context: AggregateContextQueryBuilder)
    returns (error: Option<Failure>)
    requires context.Plan() == EmptyAggregate
    modifies context
    ensures error.None? <==> FilterOf(entity, args, buildWhere).Ok?
    ensures error.None? ==> context.Plan() == FilterOf(entity, args, buildWhere).value
    ensures error.Some? ==> error.value == FilterOf(entity, args, buildWhere).error
  {
    context.from := Assigned(BuildTableAccessor(entity.tableName, "root", entity.schema, entity.database));
    var skip := Get(args, "skip");
    if skip.Err? {
      return Some(skip.error);
    }
    context.SetPaging(skip.value, Prop(args, "take"));
    var where := Prop(args, "where");
    if Truthy(where) {
      var w := buildWhere(where, entity, Filters(context.params, context.where));
      context.SetFilters(w.state.params, w.state.where);
      if w.error.Some? {
        return w.error;
      }
    }
    return None;
  }

  /** The four `buildAgrRequest` calls of `build`. */
  method BuildAggregates(entity: Entity, args: Value) returns (r: Result<Aggregates>)
    requires !Nullish(args)
    ensures r == AggregatesOf(entity, args)
  {
    var avg :- BuildAgrRequest("avg", "root", entity, Prop(args, "avg"));
    var max :- BuildAgrRequest("max", "root", entity, Prop(args, "max"));
    var min :- BuildAgrRequest("min", "root", entity, Prop(args, "min"));
    var sum :- BuildAgrRequest("sum", "root", entity, Prop(args, "sum"));
    return Ok(Aggregates(avg, max, min, sum));
  }

  /** `build` */
  method Build(entity: Entity, args: Value, buildWhere: WhereFn) returns (r: Result<AggregateContextQueryBuilder>)
    ensures r.Ok? <==> AggregatePlanOf(entity, args, buildWhere).Ok?
    ensures r.Ok? ==> fresh(r.value) && r.value.Plan() == AggregatePlanOf(entity, args, buildWhere).value
    ensures r.Err? ==> r.error == AggregatePlanOf(entity, args, buildWhere).error
  {
    var context := new AggregateContextQueryBuilder();
    var error := BuildHead(entity, args, buildWhere, context);
    if error.Some? {
      return Err(error.value);
    }
    var a :- BuildAggregates(entity, args);
    context.SetAggregates(a.avg, a.max, a.min, a.sum);
    return Ok(context);
  }
}
