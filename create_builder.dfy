/** `CreateQueryBuilder`: reads the primary key columns of the entity and checks every
    property of every data object against its columns and relations. The row it
    builds for each object is dropped, so the context it returns holds no rows. */
module CreateBuilder {
  import opened Js
  import opened Schema
  import opened CreateContext
  import UpdateBuilder

  /** One property of a data object: a column's value under its physical name; a
      relation is accepted and changes nothing; anything else throws. */
  function RowStep(entity: Entity): (Fields, (string, Value)) -> Result<Fields>
  {
    (row: Fields, e: (string, Value)) =>
      match FindColumn(entity.columns, e.0)
      case Some(c) => Ok(Put(row, c.columnName, e.1))
      case None =>
        if FindRelation(entity.relations, e.0).Some? then Ok(row)
        else Err(Raised(UpdateBuilder.UnexpectedField(e.0)))
  }

  function RowOf(entity: Entity, item: Value): Result<Fields>
  {
    FoldResult(RowStep(entity), [], Entries(item))
  }

  /** The outer loop keeps nothing between objects: it only stops at the first error. */
  function CheckStep(entity: Entity): ((), Value) -> Result<()>
  {
    (u: (), item: Value) =>
      var row :- RowOf(entity, item);
      Ok(())
  }

  /** `build`: the plan a create request compiles to, or the error it throws. */
  function CreatePlanOf(entity: Entity, args: Value): Result<CreatePlan>
  {
    var pks := PrimaryColumns(entity.columns);
    var data :- Get(args, "data");
    var objects :- Iterate(data);
    var checked :- FoldResult(CheckStep(entity), (), objects);
    Ok(EmptyCreate.(pks := pks))
  }

  // ---------------------------------------------------------------- the builder

  /** The inner loop of `build`: one data object's row, or the error it throws. */
  method MapRow(entity: Entity, item: Value) returns (r: Result<Fields>)
    ensures r == RowOf(entity, item)
  {
    var step := RowStep(entity);
    var fields := Entries(item);
    var row: Fields := [];
    for i := 0 to |fields|
      invariant FoldResult(step, [], fields[..i]) == Ok(row)
    {
      FoldResultNext(step, [], fields, i);
      var (fieldName, value) := fields[i];
      var column := FindColumn(entity.columns, fieldName);
      if column.Some? {
        row := Put(row, column.value.columnName, value);
      } else {
        var relation := FindRelation(entity.relations, fieldName);
        if relation.None? {
          FoldResultErr(step, [], fields, i + 1);
          return Err(Raised(UpdateBuilder.UnexpectedField(fieldName)));
        }
      }
    }
    assert fields[..|fields|] == fields;
    return Ok(row);
  }

  /** `build` */
  method Build(entity: Entity, args: Value) returns (r: Result<CreateContextQueryBuilder>)
    ensures r.Ok? <==> CreatePlanOf(entity, args).Ok?
    ensures r.Ok? ==> fresh(r.value) && r.value.Plan() == CreatePlanOf(entity, args).value
    ensures r.Err? ==> r.error == CreatePlanOf(entity, args).error
  {
    var context := new CreateContextQueryBuilder();
    context.pks := PrimaryColumns(entity.columns);
    var data :- Get(args, "data");
    var objects :- Iterate(data);
    var step := CheckStep(entity);
    for i := 0 to |objects|
      invariant FoldResult(step, (), objects[..i]) == Ok(())
      invariant context.Plan() == EmptyCreate.(pks := PrimaryColumns(entity.columns))
    {
      FoldResultNext(step, (), objects, i);
      var row := MapRow(entity, objects[i]);
      if row.Err? {
        FoldResultErr(step, (), objects, i + 1);
        return Err(row.error);
      }
    }
    assert objects[..|objects|] == objects;
    return Ok(context);
  }
}
