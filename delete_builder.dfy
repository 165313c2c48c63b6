/** `DeleteQueryBuilder`: turns the arguments of a delete request into a delete plan:
    the filters, the entity, and, when the request asks for rows back, a staging
    table and a read-back find plan that reads from it. */
module DeleteBuilder {
  import opened Js
  import opened Schema
  import opened FindContext
  import opened WhereBuilder
  import opened FindBuilder
  import opened DeleteContext
  import opened Returning

  /** The filters and the entity. */
  function HeadOf(entity: Entity, args: Value, buildWhere: WhereFn): Result<DeletePlan>
  {
    var where :- Get(args, "where");
    var w := if Truthy(where) then buildWhere(where, entity, Filters([], [])) else Run(Filters([], []), None);
    if w.error.Some? then Err(w.error.value) else
    Ok(EmptyDelete.(params := w.state.params, where := w.state.where, entity := Some(entity)))
  }

  /** The staging table and the read-back plan, its `from` replaced by the staging
      table under the alias it had. */
  function ReturningOf(p: DeletePlan, entity: Entity, args: Value): Result<DeletePlan>
  {
    var projected :- HasProjection(args);
    if !projected then Ok(p) else
    var returning :- BuildPlan(entity, Projection(args));
    if returning.from.None? then Err(NullRead) else
    Ok(p.(tempTable := Some(OutputData),
          returning := Some(returning.(from := Some(TemporalAccess(OutputData, returning.from.value.alias))))))
  }

  /** `build`: the plan a delete request compiles to, or the error it throws. */
  function DeletePlanOf(entity: Entity, args: Value, buildWhere: WhereFn): Result<DeletePlan>
  {
    var p :- HeadOf(entity, args, buildWhere);
    ReturningOf(p, entity, args)
  }

  // ---------------------------------------------------------------- the builder

  /** The part of `build` before the projection test. */
  method BuildHead(entity: Entity, args: Value, buildWhere: WhereFn, context: DeleteContextQueryBuilder)
    returns (error: Option<Failure>)
    requires context.Plan() == EmptyDelete
    modifies context
    ensures error.None? <==> HeadOf(entity, args, buildWhere).Ok?
    ensures error.None? ==> context.Plan() == HeadOf(entity, args, buildWhere).value
    ensures error.Some? ==> error.value == HeadOf(entity, args, buildWhere).error
  {
    var where := Get(args, "where");
    if where.Err? {
      return Some(where.error);
    }
    if Truthy(where.value) {
      var w := buildWhere(where.value, entity, Filters(context.params, context.where));
      context.SetFilters(w.state.params, w.state.where);
      if w.error.Some? {
        return w.error;
      }
    }
    context.entity := Some(entity);
    return None;
  }

  /** The projection test of `build` and the read-back plan it wires up. */
  method BuildReturning(entity: Entity, args: Value, context: DeleteContextQueryBuilder)
    returns (error: Option<Failure>)
    modifies context
    ensures var r := ReturningOf(old(context.Plan()), entity, args);
      (error.None? <==> r.Ok?) && (error.None? ==> context.Plan() == r.value)
      && (error.Some? ==> error.value == r.error)
  {
    var projected := HasProjection(args);
    if projected.Err? {
      return Some(projected.error);
    }
    if projected.value {
      context.tempTable := Some(OutputData);
      var finder := FindBuilder.Build(entity, Projection(args));
      if finder.Err? {
        return Some(finder.error);
      }
      var returning := finder.value;
      if returning.from.None? {
        return Some(NullRead);
      }
      returning.from := Some(TemporalAccess(OutputData, returning.from.value.alias));
      context.returning := Some(returning.Plan());
    }
    return None;
  }

  /** `build` */
  method Build(entity: Entity, args: Value, buildWhere: WhereFn) returns (r: Result<DeleteContextQueryBuilder>)
    ensures r.Ok? <==> DeletePlanOf(entity, args, buildWhere).Ok?
    ensures r.Ok? ==> fresh(r.value) && r.value.Plan() == DeletePlanOf(entity, args, buildWhere).value
    ensures r.Err? ==> r.error == DeletePlanOf(entity, args, buildWhere).error
  {
    var context := new DeleteContextQueryBuilder();
    var error := BuildHead(entity, args, buildWhere, context);
    if error.Some? {
      return Err(error.value);
    }
    error := BuildReturning(entity, args, context);
    if error.Some? {
      return Err(error.value);
    }
    return Ok(context);
  }
}
