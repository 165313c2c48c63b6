/** `FindQueryBuilder`: turns the arguments of a find request (select, where, orderBy,
    include, skip, take) into a find plan, staging to-many relations through `#main`
    and a child plan per relation. */
module FindBuilder {
  import opened Js
  import opened Schema
  import opened FindContext
  import opened WhereBuilder

  const Main := "#main"
  const ExpectedSelect := "Expected select object"

  /** Reading `columnName`, `info` or `type` of what a failed `find` returned. */
  const UndefinedRead := TypeError("Cannot read properties of undefined")

  /** `buildTableAccessor`: a table accessor with an alias; the database and schema are
      kept only when they are non-empty strings. */
  function BuildTableAccessor(table: string, alias: string, schema: Option<string>, database: Option<string>)
    : (r: Accessor)
    ensures r.TableAccess? && r.table == table && r.alias == Some(alias)
    ensures r.database.Some? <==> Present(database)
    ensures r.schema.Some? <==> Present(schema)
    ensures r.database.Some? ==> r.database == database
    ensures r.schema.Some? ==> r.schema == schema
  {
    TableAccess(if Present(database) then database else None,
                if Present(schema) then schema else None,
                table, Some(alias))
  }

  /** The projected column for an entity column: read from `source`, aliased by the
      logical field name behind `prefix`. */
  function FieldRef(source: string, prefix: string, c: Column): ColumnRef
  {
    ColumnRef(Some(source), c.columnName, Some(prefix + c.info.name))
  }

  /** The column a to-many include stages in `#main`: the join column, as `__<column>`. */
  function TemporalRef(joinColumn: string): ColumnRef
  {
    ColumnRef(Some("root"), joinColumn, Some("__" + joinColumn))
  }

  /** Whether a select entry projects its column: the top-level select and a many-to-one
      select skip only `false`; a to-many child select keeps only `true`. */
  predicate Keeps(v: Value, onlyTrue: bool)
  {
    if onlyTrue then StrictEq(v, Bool(true)) else !StrictEq(v, Bool(false))
  }

  /** One select entry: a kept key names a column (or throws), which is projected. */
  function SelectStep(columns: seq<Column>, onlyTrue: bool, source: string, prefix: string)
    : (seq<ColumnRef>, (string, Value)) -> Run<seq<ColumnRef>>
  {
    (refs: seq<ColumnRef>, e: (string, Value)) =>
      if !Keeps(e.1, onlyTrue) then Run(refs, None)
      else match FindColumn(columns, e.0)
        case None => Run(refs, Some(UndefinedRead))
        case Some(c) => Run(refs + [FieldRef(source, prefix, c)], None)
  }

  /** The projection of every column, in order (a many-to-one include of `true`). */
  function AllRefs(source: string, prefix: string, columns: seq<Column>): (r: seq<ColumnRef>)
    ensures |r| == |columns|
    ensures forall k :: 0 <= k < |columns| ==> r[k] == FieldRef(source, prefix, columns[k])
  {
    seq(|columns|, k requires 0 <= k < |columns| => FieldRef(source, prefix, columns[k]))
  }

  /** One orderBy entry: `DESC` exactly for the string `'desc'`, `ASC` otherwise. */
  function OrderStep(columns: seq<Column>): (seq<Order>, (string, Value)) -> Run<seq<Order>>
  {
    (orders: seq<Order>, e: (string, Value)) =>
      match FindColumn(columns, e.0)
      case None => Run(orders, Some(UndefinedRead))
      case Some(c) => Run(orders + [Order("root", c.columnName, if StrictEq(e.1, Str("desc")) then Desc else Asc)], None)
  }

  // ---------------------------------------------------------------- relations

  /** The first join of a to-many child: the staged parent rows, matched on `__<joinColumn>`. */
  function ParentCondition(joinColumn: string, childSource: string, childColumn: string): Cond
  {
    Cond(ColumnSide(Some("parent"), "__" + joinColumn), "=", Single(ColumnSide(Some(childSource), childColumn)))
  }

  function ManyToOneJoin(relation: Relation): TableJoin
  {
    var name := relation.info.name;
    TableJoin(if relation.info.nonNull then InnerJoin else LeftJoin,
              BuildTableAccessor(relation.joinEntity.tableName, name, relation.joinEntity.schema, relation.joinEntity.database),
              [Cond(ColumnSide(Some(name), relation.inverseColumn), "=", Single(ColumnSide(Some("root"), relation.joinColumn)))])
  }

  /** `buildManyToOne`: one join aliased by the relation name, and the join entity's
      columns aliased `<relation>.<field>` — all of them for `true`, else the keys that
      are not `false`. */
  function ManyToOneRun(relation: Relation, value: Value, p: FindPlan): Run<FindPlan>
    requires relation.ManyToOne?
  {
    var name := relation.info.name;
    var p1 := p.(joins := p.joins + [ManyToOneJoin(relation)]);
    if StrictEq(value, Bool(true)) then
      Run(p1.(columns := p1.columns + AllRefs(name, name + ".", relation.joinEntity.columns)), None)
    else
      var r := FoldRun(SelectStep(relation.joinEntity.columns, false, name, name + "."), p1.columns, Entries(value));
      Run(p1.(columns := r.state), r.error)
  }

  /** What every to-many include does first: stage into `#main`, with the join column. */
  function Staged(p: FindPlan, joinColumn: string): FindPlan
  {
    p.(into := Some(Main), temporalColumns := p.temporalColumns + [TemporalRef(joinColumn)])
  }

  /** A to-many child plan gets the columns of `value.select` whose value is `true`;
      the child is pushed only once they are all found. */
  function ChildRun(p1: FindPlan, child: FindPlan, columns: seq<Column>, value: Value): Run<FindPlan>
  {
    match Get(value, "select")
    case Err(e) => Run(p1, Some(e))
    case Ok(select) =>
      var r := FoldRun(SelectStep(columns, true, "root", ""), [], Entries(select));
      if r.error.Some? then Run(p1, r.error)
      else Run(p1.(children := p1.children + [child.(columns := r.state)]), None)
  }

  function ManyToManyChild(relation: Relation): FindPlan
    requires relation.ManyToMany?
  {
    var many := relation.manyEntity;
    var target := relation.joinEntity;
    EmptyPlan.(
      from := Some(BuildTableAccessor(many.tableName, "many", many.schema, many.database)),
      joins := [
        TableJoin(InnerJoin, TableAccess(None, None, Main, Some("parent")),
                  [ParentCondition(relation.joinColumn, "many", relation.manyJoinColumn)]),
        TableJoin(InnerJoin, BuildTableAccessor(target.tableName, "root", target.schema, target.database),
                  [Cond(ColumnSide(Some("root"), relation.inverseColumn), "=",
                        Single(ColumnSide(Some("many"), relation.manyInverseColumn)))])])
  }

  /** `buildManyToMany`: the child reads the link entity as `many`, joins `#main` as
      `parent` and the target entity as `root`. */
  function ManyToManyRun(relation: Relation, value: Value, p: FindPlan): Run<FindPlan>
    requires relation.ManyToMany?
  {
    ChildRun(Staged(p, relation.joinColumn), ManyToManyChild(relation), relation.joinEntity.columns, value)
  }

  function OneToManyChild(relation: Relation): FindPlan
    requires relation.OneToMany?
  {
    var target := relation.joinEntity;
    EmptyPlan.(
      from := Some(BuildTableAccessor(target.tableName, "root", target.schema, target.database)),
      joins := [TableJoin(InnerJoin, ObjectAccess(Main, Some("parent")),
                          [ParentCondition(relation.joinColumn, "root", relation.inverseColumn)])])
  }

  /** `buildOneToMany`: the child reads the target entity as `root` and joins `#main`
      through an object accessor; an include without a `select` key throws once the
      parent is already staged. */
  function OneToManyRun(relation: Relation, value: Value, p: FindPlan): Run<FindPlan>
    requires relation.OneToMany?
  {
    var p1 := Staged(p, relation.joinColumn);
    match Has(value, "select")
    case Err(e) => Run(p1, Some(e))
    case Ok(has) =>
      if !has then Run(p1, Some(Raised(ExpectedSelect)))
      else ChildRun(p1, OneToManyChild(relation), relation.joinEntity.columns, value)
  }

  /** The builder an include dispatches to, by relation kind. */
  function RelationRun(relation: Relation, value: Value, p: FindPlan): Run<FindPlan>
  {
    match relation
    case ManyToMany(_, _, _, _, _, _, _, _, _, _) => ManyToManyRun(relation, value, p)
    case ManyToOne(_, _, _, _) => ManyToOneRun(relation, value, p)
    case OneToMany(_, _, _, _) => OneToManyRun(relation, value, p)
  }

  /** One include entry: `false` is skipped, an unknown relation throws. */
  function IncludeStep(entity: Entity): (FindPlan, (string, Value)) -> Run<FindPlan>
  {
    (p: FindPlan, e: (string, Value)) =>
      if StrictEq(e.1, Bool(false)) then Run(p, None)
      else match FindRelation(entity.relations, e.0)
        case None => Run(p, Some(UndefinedRead))
        case Some(relation) =>
          RelationRun(relation, e.1, p)
  }

  /** `build`: the plan a find request compiles to, or the error it throws. */
  function BuildPlan(entity: Entity, args: Value): Result<FindPlan>
  {
    var skip :- Get(args, "skip");
    var take := Prop(args, "take");
    var select := Prop(args, "select");
    var p0 := EmptyPlan.(from := Some(BuildTableAccessor(entity.tableName, "root", entity.schema, entity.database)),
                         skip := skip, take := take);
    var s := FoldRun(SelectStep(entity.columns, false, "root", ""), [], Entries(select));
    if s.error.Some? then Err(s.error.value) else
    var p1 := p0.(columns := s.state);
    var where := Prop(args, "where");
    var w := if Truthy(where) then WhereRun(where, entity, Some("root"), Filters([], [])) else Run(Filters([], []), None);
    if w.error.Some? then Err(w.error.value) else
    var p2 := p1.(params := w.state.params, where := w.state.where);
    var orderBy := Prop(args, "orderBy");
    var o := if Truthy(orderBy) then FoldRun(OrderStep(entity.columns), [], Entries(orderBy)) else Run([], None);
    if o.error.Some? then Err(o.error.value) else
    var p3 := p2.(orderBy := o.state);
    var included := Prop(args, "include");
    var i := if Truthy(included) then FoldRun(IncludeStep(entity), p3, Entries(included)) else Run(p3, None);
    if i.error.Some? then Err(i.error.value) else Ok(i.state)
  }

  // ---------------------------------------------------------------- the builder

  /** The select loop shared by `buildSelect`, the to-many child selects and a
      many-to-one select. */
  method SelectColumns(select: Value, columns: seq<Column>, onlyTrue: bool, source: string, prefix: string,
                       context: FindContextQueryBuilder)
    returns (error: Option<Failure>)
    modifies context
    ensures var r := FoldRun(SelectStep(columns, onlyTrue, source, prefix), old(context.columns), Entries(select));
      context.Plan() == old(context.Plan()).(columns := r.state) && error == r.error
  {
    var step := SelectStep(columns, onlyTrue, source, prefix);
    ghost var init := context.columns;
    var fields := Entries(select);
    for i := 0 to |fields|
      invariant FoldRun(step, init, fields[..i]) == Run(context.columns, None)
      invariant context.Plan() == old(context.Plan()).(columns := context.columns)
    {
      FoldRunNext(step, init, fields, i);
      var (field, value) := fields[i];
      if Keeps(value, onlyTrue) {
        var column := FindColumn(columns, field);
        if column.None? {
          FoldRunStop(step, init, fields, i + 1);
          return Some(UndefinedRead);
        }
        context.columns := context.columns + [FieldRef(source, prefix, column.value)];
      }
    }
    assert fields[..|fields|] == fields;
    return None;
  }

  /** The `buildOrderBy` loop: one order per key, in key order, after `init`. */
  method CollectOrderBy(orderBy: Value, entity: Entity, init: seq<Order>) returns (orders: seq<Order>, error: Option<Failure>)
    ensures Run(orders, error) == FoldRun(OrderStep(entity.columns), init, Entries(orderBy))
  {
    var step := OrderStep(entity.columns);
    var fields := Entries(orderBy);
    orders := init;
    for i := 0 to |fields|
      invariant FoldRun(step, init, fields[..i]) == Run(orders, None)
    {
      FoldRunNext(step, init, fields, i);
      var (field, value) := fields[i];
      var column := FindColumn(entity.columns, field);
      if column.None? {
        FoldRunStop(step, init, fields, i + 1);
        return orders, Some(UndefinedRead);
      }
      orders := orders + [Order("root", column.value.columnName, if StrictEq(value, Str("desc")) then Desc else Asc)];
    }
    assert fields[..|fields|] == fields;
    error := None;
  }

  /** `buildOrderBy` */
  method BuildOrderBy(orderBy: Value, entity: Entity, context: FindContextQueryBuilder) returns (error: Option<Failure>)
    modifies context
    ensures var r := FoldRun(OrderStep(entity.columns), old(context.orderBy), Entries(orderBy));
      context.Plan() == old(context.Plan()).(orderBy := r.state) && error == r.error
  {
    var orders;
    orders, error := CollectOrderBy(orderBy, entity, context.orderBy);
    context.orderBy := orders;
  }

  /** `buildManyToOne` */
  method BuildManyToOne(relation: Relation, context: FindContextQueryBuilder, value: Value) returns (error: Option<Failure>)
    requires relation.ManyToOne?
    modifies context
    ensures var r := ManyToOneRun(relation, value, old(context.Plan()));
      context.Plan() == r.state && error == r.error
  {
    var name := relation.info.name;
    context.joins := context.joins + [ManyToOneJoin(relation)];
    if StrictEq(value, Bool(true)) {
      var columns := relation.joinEntity.columns;
      ghost var before := context.columns;
      for i := 0 to |columns|
        invariant context.columns == before + AllRefs(name, name + ".", columns[..i])
        invariant context.Plan() == old(context.Plan()).(joins := context.joins, columns := context.columns)
        invariant context.joins == old(context.joins) + [ManyToOneJoin(relation)]
      {
        context.columns := context.columns + [FieldRef(name, name + ".", columns[i])];
      }
      assert columns[..|columns|] == columns;
      error := None;
    } else {
      error := SelectColumns(value, relation.joinEntity.columns, false, name, name + ".", context);
    }
  }

  /** The tail shared by both to-many builders: fill the child's columns from
      `value.select`, then push the child. */
  method PushChild(context: FindContextQueryBuilder, child: FindContextQueryBuilder, columns: seq<Column>, value: Value)
    returns (error: Option<Failure>)
    requires child != context
    requires child.columns == []
    modifies context, child
    ensures var r := ChildRun(old(context.Plan()), old(child.Plan()), columns, value);
      context.Plan() == r.state && error == r.error
  {
    var select := Get(value, "select");
    if select.Err? {
      return Some(select.error);
    }
    error := SelectColumns(select.value, columns, true, "root", "", child);
    if error.None? {
      context.children := context.children + [child.Plan()];
    }
  }

  /** `buildManyToMany` */
  method BuildManyToMany(relation: Relation, context: FindContextQueryBuilder, value: Value) returns (error: Option<Failure>)
    requires relation.ManyToMany?
    modifies context
    ensures var r := ManyToManyRun(relation, value, old(context.Plan()));
      context.Plan() == r.state && error == r.error
  {
    context.into := Some(Main);
    context.temporalColumns := context.temporalColumns + [TemporalRef(relation.joinColumn)];
    var many := relation.manyEntity;
    var target := relation.joinEntity;
    var child := new FindContextQueryBuilder();
    child.from := Some(BuildTableAccessor(many.tableName, "many", many.schema, many.database));
    child.joins := child.joins + [TableJoin(InnerJoin, TableAccess(None, None, Main, Some("parent")),
                                            [ParentCondition(relation.joinColumn, "many", relation.manyJoinColumn)])];
    child.joins := child.joins + [TableJoin(InnerJoin, BuildTableAccessor(target.tableName, "root", target.schema, target.database),
                                            [Cond(ColumnSide(Some("root"), relation.inverseColumn), "=",
                                                  Single(ColumnSide(Some("many"), relation.manyInverseColumn)))])];
    assert child.Plan() == ManyToManyChild(relation);
    error := PushChild(context, child, target.columns, value);
  }

  /** `buildOneToMany` */
  method BuildOneToMany(relation: Relation, context: FindContextQueryBuilder, value: Value) returns (error: Option<Failure>)
    requires relation.OneToMany?
    modifies context
    ensures var r := OneToManyRun(relation, value, old(context.Plan()));
      context.Plan() == r.state && error == r.error
  {
    context.into := Some(Main);
    context.temporalColumns := context.temporalColumns + [TemporalRef(relation.joinColumn)];
    var target := relation.joinEntity;
    var child := new FindContextQueryBuilder();
    child.from := Some(BuildTableAccessor(target.tableName, "root", target.schema, target.database));
    child.joins := child.joins + [TableJoin(InnerJoin, ObjectAccess(Main, Some("parent")),
                                            [ParentCondition(relation.joinColumn, "root", relation.inverseColumn)])];
    assert child.Plan() == OneToManyChild(relation);
    var has := Has(value, "select");
    if has.Err? {
      return Some(has.error);
    }
    if !has.value {
      return Some(Raised(ExpectedSelect));
    }
    error := PushChild(context, child, target.columns, value);
  }

  /** The `switch` on the relation kind in `buildInclude`. */
  method BuildRelation(relation: Relation, context: FindContextQueryBuilder, value: Value) returns (error: Option<Failure>)
    modifies context
    ensures var r := RelationRun(relation, value, old(context.Plan()));
      context.Plan() == r.state && error == r.error
  {
    match relation
    case ManyToMany(_, _, _, _, _, _, _, _, _, _) =>
      error := BuildManyToMany(relation, context, value);
    case ManyToOne(_, _, _, _) =>
      error := BuildManyToOne(relation, context, value);
    case OneToMany(_, _, _, _) =>
      error := BuildOneToMany(relation, context, value);
  }

  /** `buildInclude` */
  method BuildInclude(included: Value, entity: Entity, context: FindContextQueryBuilder) returns (error: Option<Failure>)
    modifies context
    ensures var r := FoldRun(IncludeStep(entity), old(context.Plan()), Entries(included));
      context.Plan() == r.state && error == r.error
  {
    var step := IncludeStep(entity);
    ghost var init := context.Plan();
    var fields := Entries(included);
    for i := 0 to |fields|
      invariant FoldRun(step, init, fields[..i]) == Run(context.Plan(), None)
    {
      FoldRunNext(step, init, fields, i);
      var (field, value) := fields[i];
      if StrictEq(value, Bool(false)) {
        continue;
      }
      var relation := FindRelation(entity.relations, field);
      if relation.None? {
        FoldRunStop(step, init, fields, i + 1);
        return Some(UndefinedRead);
      }
      error := BuildRelation(relation.value, context, value);
      if error.Some? {
        FoldRunStop(step, init, fields, i + 1);
        return;
      }
    }
    assert fields[..|fields|] == fields;
    return None;
  }

  /** `build`: a fresh context holding the compiled plan, or the error it throws. */
  method Build(entity: Entity, args: Value) returns (r: Result<FindContextQueryBuilder>)
    ensures r.Ok? <==> BuildPlan(entity, args).Ok?
    ensures r.Ok? ==> fresh(r.value) && r.value.Plan() == BuildPlan(entity, args).value
    ensures r.Err? ==> r.error == BuildPlan(entity, args).error
  {
    var context := new FindContextQueryBuilder();
    context.from := Some(BuildTableAccessor(entity.tableName, "root", entity.schema, entity.database));
    var skip :- Get(args, "skip");
    context.skip := skip;
    var take := Prop(args, "take");
    context.take := take;
    var select := Prop(args, "select");
    var error := SelectColumns(select, entity.columns, false, "root", "", context);
    if error.Some? {
      return Err(error.value);
    }
    var where := Prop(args, "where");
    if Truthy(where) {
      error := BuildWhere(where, entity, context, Some("root"));
      if error.Some? {
        return Err(error.value);
      }
    }
    var orderBy := Prop(args, "orderBy");
    if Truthy(orderBy) {
      error := BuildOrderBy(orderBy, entity, context);
      if error.Some? {
        return Err(error.value);
      }
    }
    var included := Prop(args, "include");
    if Truthy(included) {
      error := BuildInclude(included, entity, context);
      if error.Some? {
        return Err(error.value);
      }
    }
    return Ok(context);
  }
}
