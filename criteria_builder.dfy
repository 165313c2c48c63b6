/** The query context of `criteria-builder.ts` and its filter compiler (`buildWhere`):
    each key of a filter object adds joins, bound parameters and conditions to a query
    context; `_and` lists nest, and every other unknown key or operator is refused. */
module CriteriaBuilder {
  import opened Js
  import opened Schema
  import opened LegacySchema

  const UndefinedRead := TypeError("Cannot read properties of undefined")
  const OrNotImplemented := "Not implemented"
  const InExpectsArray := "Operator _in expects an array"

  /** `QueryContextBuilder`: one SELECT under construction. `top`, `offset` and `fetch`
      stay `undefined` until set. */
  datatype QueryContext = QueryContext(
    params: Fields,
    into: Option<string>,
    from: string,
    columns: seq<string>,
    joins: seq<string>,
    wheres: seq<string>,
    orderBy: string,
    top: Value,
    offset: Value,
    fetch: Value)

  /** `buildTableNameAccess`: the schema-qualified table under an alias, read without locks. */
  function TableNameAccess(entity: SqlEntity, alias: string): string
  {
    (if Present(entity.schema) then "[" + entity.schema.value + "]." else "")
    + "[" + entity.name + "] AS [" + alias + "] WITH(NOLOCK)"
  }

  /** A filter only adds: the same columns, table, ordering and paging, and the joins
      and conditions it found followed by new ones. */
  predicate Extends(before: QueryContext, after: QueryContext)
  {
    after.into == before.into && after.from == before.from && after.columns == before.columns
    && after.orderBy == before.orderBy && after.top == before.top
    && after.offset == before.offset && after.fetch == before.fetch
    && before.joins <= after.joins && before.wheres <= after.wheres
  }

  /** The keys `for (const property in where)` visits with their values: an object's own
      properties or an array's indices. A string filter is taken to have none. */
  function WhereEntries(where: Value): (r: Fields)
    ensures where.Obj? ==> r == where.fields
    ensures where.Arr? ==> |r| == |where.items| && forall i :: 0 <= i < |r| ==> r[i] == (NatToString(i), where.items[i])
    ensures !where.Obj? && !where.Arr? ==> r == []
  {
    if where.Obj? || where.Arr? then Entries(where) else []
  }

  /** `${preffix ? `${preffix}.` : ''}` */
  function Dotted(prefix: Option<string>): string
  {
    if Present(prefix) then prefix.value + "." else ""
  }

  /** The join a filter on a many-to-one relation adds: inner for a non-null relation,
      left otherwise, on the relation's field names. */
  function WhereJoin(relation: SqlRelation, entity: SqlEntity, alias: string, mapName: string): string
  {
    (if relation.nonNull then "INNER" else "LEFT") + " JOIN " + TableNameAccess(entity, alias)
    + " ON [" + alias + "].[" + relation.dest.field.name + "] = [" + mapName + "].[" + relation.source.field.name + "]"
  }

  /** The parameter an operator binds: the map name with dots as underscores, the
      property and the operator. */
  function VariableName(mapName: string, property: string, operator: string): string
  {
    ReplaceAll(mapName, '.', "_") + "_" + property + operator
  }

  function IndexedName(name: string, i: nat): string
  {
    name + "_" + NatToString(i)
  }

  /** The parameters after binding each item of an array to its indexed name. */
  function BindItems(params: Fields, name: string, items: seq<Value>): Fields
  {
    if items == [] then params
    else Put(BindItems(params, name, items[..|items| - 1]), IndexedName(name, |items| - 1), items[|items| - 1])
  }

  /** An array binds item by item; any other value binds whole. */
  function Bind(params: Fields, name: string, value: Value): Fields
  {
    if value.Arr? then BindItems(params, name, value.items) else Put(params, name, value)
  }

  /** The variables of an `in` list, one per item, in order. */
  function InVariables(name: string, n: nat): (r: seq<string>)
    ensures |r| == n && forall i :: 0 <= i < n ==> r[i] == "@" + IndexedName(name, i)
  {
    seq(n, i requires 0 <= i < n => "@" + IndexedName(name, i))
  }

  /** `[mapName].[column]` */
  function ColumnRef(mapName: string, column: SqlColumn): string
  {
    "[" + mapName + "].[" + column.name + "]"
  }

  /** One operator of a column filter: the value is bound first, then `_eq` and `_in`
      add their condition and any other operator throws. */
  function OperatorOf(ctx: QueryContext, mapName: string, column: SqlColumn, property: string, op: (string, Value))
    : (r: Result<QueryContext>)
    ensures r.Ok? ==> Extends(ctx, r.value)
  {
    var name := VariableName(mapName, property, op.0);
    var bound := ctx.(params := Bind(ctx.params, name, op.1));
    var target := ColumnRef(mapName, column);
    if op.0 == "_eq" then Ok(bound.(wheres := bound.wheres + [target + " = @" + name]))
    else if op.0 == "_in" then
      if !op.1.Arr? then Err(Raised(InExpectsArray))
      else Ok(bound.(wheres := bound.wheres + [target + " in (" + Join(InVariables(name, |op.1.items|), ",") + ")"]))
    else Err(Raised("Operator not implemented: " + op.0))
  }

  /** The operator loop of a column filter from operator `j` on. */
  function OperatorsFrom(ctx: QueryContext, mapName: string, column: SqlColumn, property: string, ops: Fields, j: nat)
    : (r: Result<QueryContext>)
    requires j <= |ops|
    ensures r.Ok? ==> Extends(ctx, r.value)
    decreases |ops| - j
  {
    if j == |ops| then Ok(ctx)
    else
      var next :- OperatorOf(ctx, mapName, column, property, ops[j]);
      OperatorsFrom(next, mapName, column, property, ops, j + 1)
  }

  /** `buildWhere` on one context: nothing for a falsy filter, otherwise every key in turn. */
  function WhereOf(entities: seq<SqlEntity>, ctx: QueryContext, mapName: string, model: SqlEntity, where: Value,
                   prefix: Option<string>): (r: Result<QueryContext>)
    ensures r.Ok? ==> Extends(ctx, r.value)
    decreases where, 3
  {
    if !Truthy(where) then Ok(ctx)
    else WhereFrom(entities, ctx, mapName, model, where, prefix, 0)
  }

  /** The key loop of `buildWhere` from key `i` on. */
  function WhereFrom(entities: seq<SqlEntity>, ctx: QueryContext, mapName: string, model: SqlEntity, where: Value,
                     prefix: Option<string>, i: nat): (r: Result<QueryContext>)
    requires i <= |WhereEntries(where)|
    ensures r.Ok? ==> Extends(ctx, r.value)
    decreases where, 2, |WhereEntries(where)| - i
  {
    if i == |WhereEntries(where)| then Ok(ctx)
    else
      var next :- PropertyOf(entities, ctx, mapName, model, where, prefix, i);
      WhereFrom(entities, next, mapName, model, where, prefix, i + 1)
  }

  /** One key of a filter: `_and` applies each filter of its list, `_or` throws, a
      many-to-one relation joins its table and filters it under the longer alias, and
      a column applies its operators. Any other key throws. */
  function PropertyOf(entities: seq<SqlEntity>, ctx: QueryContext, mapName: string, model: SqlEntity, where: Value,
                      prefix: Option<string>, i: nat): (r: Result<QueryContext>)
    requires i < |WhereEntries(where)|
    ensures r.Ok? ==> Extends(ctx, r.value)
    decreases where, 1
  {
    var property := WhereEntries(where)[i].0;
    var filterInfo := if where.Obj? then where.fields[i].1 else where.items[i];
    if property == "_and" then
      if filterInfo.Arr? then AndFrom(entities, ctx, mapName, model, filterInfo, prefix, 0)
      else if filterInfo.Str? then Ok(ctx)
      else Err(Iterate(filterInfo).error)
    else if property == "_or" then Err(Raised(OrNotImplemented))
    else
      var column := ColumnOfField(model.columns, property);
      var manyToOne := RelationOfField(model.manyToOnes, property);
      if column.None? && manyToOne.None? then Err(Raised("Unexpected property name: " + property))
      else if manyToOne.Some? then
        var entityRel := EntityOfModel(entities, manyToOne.value.dest.model);
        if entityRel.None? then Err(UndefinedRead)
        else
          var alias := Dotted(prefix) + manyToOne.value.field.name;
          var joined := ctx.(joins := ctx.joins + [WhereJoin(manyToOne.value, entityRel.value, alias, mapName)]);
          WhereOf(entities, joined, alias, entityRel.value, filterInfo, Some(alias))
      else OperatorsFrom(ctx, mapName, column.value, property, Entries(filterInfo), 0)
  }

  /** The `_and` loop from filter `j` on: each filter of the list on the same map name. */
  function AndFrom(entities: seq<SqlEntity>, ctx: QueryContext, mapName: string, model: SqlEntity, list: Value,
                   prefix: Option<string>, j: nat): (r: Result<QueryContext>)
    requires list.Arr? && j <= |list.items|
    ensures r.Ok? ==> Extends(ctx, r.value)
    decreases list, 0, |list.items| - j
  {
    if j == |list.items| then Ok(ctx)
    else
      var next :- WhereOf(entities, ctx, mapName, model, list.items[j], prefix);
      AndFrom(entities, next, mapName, model, list, prefix, j + 1)
  }

  // ---------------------------------------------------------------- the compiler

  /** `value.map((x, index) => params[name_index] = x)` */
  method BindArray(params: Fields, name: string, items: seq<Value>) returns (r: Fields)
    ensures r == BindItems(params, name, items)
  {
    r := params;
    for i := 0 to |items|
      invariant r == BindItems(params, name, items[..i])
    {
      assert items[..i + 1][..i] == items[..i];
      r := Put(r, IndexedName(name, i), items[i]);
    }
    assert items[..|items|] == items;
  }

  /** The operator loop of a column filter. */
  method BuildOperators(ctx: QueryContext, mapName: string, column: SqlColumn, property: string, filterInfo: Value)
    returns (r: Result<QueryContext>)
    ensures r == OperatorsFrom(ctx, mapName, column, property, Entries(filterInfo), 0)
  {
    var ops := Entries(filterInfo);
    var current := ctx;
    for j := 0 to |ops|
      invariant OperatorsFrom(current, mapName, column, property, ops, j) == OperatorsFrom(ctx, mapName, column, property, ops, 0)
    {
      var (operator, value) := ops[j];
      var name := VariableName(mapName, property, operator);
      if value.Arr? {
        var params := BindArray(current.params, name, value.items);
        current := current.(params := params);
      } else {
        current := current.(params := Put(current.params, name, value));
      }
      var target := ColumnRef(mapName, column);
      if operator == "_eq" {
        current := current.(wheres := current.wheres + [target + " = @" + name]);
      } else if operator == "_in" {
        if !value.Arr? {
          return Err(Raised(InExpectsArray));
        }
        current := current.(wheres := current.wheres + [target + " in (" + Join(InVariables(name, |value.items|), ",") + ")"]);
      } else {
        return Err(Raised("Operator not implemented: " + operator));
      }
    }
    return Ok(current);
  }

  /** `buildWhere` */
  method BuildWhere(entities: seq<SqlEntity>, ctx: QueryContext, mapName: string, model: SqlEntity, where: Value,
                    prefix: Option<string>) returns (r: Result<QueryContext>)
    ensures r == WhereOf(entities, ctx, mapName, model, where, prefix)
    decreases where, 3
  {
    if !Truthy(where) {
      return Ok(ctx);
    }
    var entries := WhereEntries(where);
    var current := ctx;
    for i := 0 to |entries|
      invariant WhereFrom(entities, current, mapName, model, where, prefix, i) == WhereOf(entities, ctx, mapName, model, where, prefix)
    {
      var next := BuildProperty(entities, current, mapName, model, where, prefix, i);
      if next.Err? {
        return Err(next.error);
      }
      current := next.value;
    }
    return Ok(current);
  }

  /** The body of the key loop of `buildWhere`. */
  method BuildProperty(entities: seq<SqlEntity>, ctx: QueryContext, mapName: string, model: SqlEntity, where: Value,
                       prefix: Option<string>, i: nat) returns (r: Result<QueryContext>)
    requires i < |WhereEntries(where)|
    ensures r == PropertyOf(entities, ctx, mapName, model, where, prefix, i)
    decreases where, 1
  {
    var property := WhereEntries(where)[i].0;
    var filterInfo := if where.Obj? then where.fields[i].1 else where.items[i];
    if property == "_and" {
      if filterInfo.Arr? {
        r := BuildAnd(entities, ctx, mapName, model, filterInfo, prefix);
      } else if filterInfo.Str? {
        r := Ok(ctx);
      } else {
        r := Err(Iterate(filterInfo).error);
      }
      return;
    }
    if property == "_or" {
      return Err(Raised(OrNotImplemented));
    }
    var column := ColumnOfField(model.columns, property);
    var manyToOne := RelationOfField(model.manyToOnes, property);
    if column.None? && manyToOne.None? {
      return Err(Raised("Unexpected property name: " + property));
    }
    if manyToOne.Some? {
      var entityRel := EntityOfModel(entities, manyToOne.value.dest.model);
      if entityRel.None? {
        return Err(UndefinedRead);
      }
      var alias := Dotted(prefix) + manyToOne.value.field.name;
      var joined := ctx.(joins := ctx.joins + [WhereJoin(manyToOne.value, entityRel.value, alias, mapName)]);
      r := BuildWhere(entities, joined, alias, entityRel.value, filterInfo, Some(alias));
    } else {
      r := BuildOperators(ctx, mapName, column.value, property, filterInfo);
    }
  }

  /** `for (const and of where._and) buildWhere(and)` */
  method BuildAnd(entities: seq<SqlEntity>, ctx: QueryContext, mapName: string, model: SqlEntity, list: Value,
                  prefix: Option<string>) returns (r: Result<QueryContext>)
    requires list.Arr?
    ensures r == AndFrom(entities, ctx, mapName, model, list, prefix, 0)
    decreases list, 1
  {
    var current := ctx;
    for j := 0 to |list.items|
      invariant AndFrom(entities, current, mapName, model, list, prefix, j) == AndFrom(entities, ctx, mapName, model, list, prefix, 0)
    {
      var next := BuildWhere(entities, current, mapName, model, list.items[j], prefix);
      if next.Err? {
        return Err(next.error);
      }
      current := next.value;
    }
    return Ok(current);
  }
}
