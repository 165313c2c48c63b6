/** `FindQueryBuilder` of `find.query-builder.ts`: turns the select, where and include
    of a find request into a context of `context.query-builder.ts`. The
    root table is read as `root`; to-many includes stage the parent rows in `#main` and
    add a child context; a many-to-one include adds a join. The select loop is the same
    as in the builder of `find.builder.ts`, whose step and column references are reused. */
module FindQuery {
  import opened Js
  import opened Schema
  import FC = FindContext
  import FB = FindBuilder
  import opened ContextQuery

  const SubtreeAndOr := "Not implemented subtree conditions _AND and _OR"

  /** The message thrown for a where key that names neither a column nor a relation. */
  function UnknownField(field: string): string
  {
    "Unknown field name " + field
  }

  /** `buildTableAccessor`: a table read under an alias; the database and schema are
      kept only when they are non-empty strings. */
  function BuildTableAccessor(table: string, alias: string, schema: Option<string>, database: Option<string>)
    : (r: TableAccessor)
    ensures r.table == table && r.alias == Some(alias)
    ensures r.database.Some? <==> Present(database)
    ensures r.schema.Some? <==> Present(schema)
    ensures r.database.Some? ==> r.database == database
    ensures r.schema.Some? ==> r.schema == schema
  {
    TableAccessor(if Present(database) then database else None,
                  if Present(schema) then schema else None,
                  table, Some(alias))
  }

  /** A column side read from `source`. */
  function ColumnAt(source: string, column: string): FC.Side
  {
    FC.ColumnSide(Some(source), column)
  }

  /** The parameter a where key binds: `root_<field>`. */
  function ParamName(field: string): string
  {
    "root_" + field
  }

  /** The condition a where key on a column adds: `[root].[<column>] = @root_<field>`. */
  function WhereCond(column: Column, field: string): Condition
  {
    Leaf(Cond(ColumnAt("root", column.columnName), "=", FC.VarSide(ParamName(field))))
  }

  /** A where key: `_AND` and `_OR` throw; a column binds its parameter and adds its
      condition; a relation is skipped; anything else throws. */
  function WhereKeyRun(entity: Entity, p: QueryPlan, e: (string, Value)): Run<QueryPlan>
  {
    if e.0 == "_AND" || e.0 == "_OR" then Run(p, Some(Raised(SubtreeAndOr)))
    else match FindColumn(entity.columns, e.0)
      case Some(column) =>
        Run(p.(params := Put(p.params, ParamName(e.0), e.1), where := p.where + [WhereCond(column, e.0)]), None)
      case None =>
        if FindRelation(entity.relations, e.0).Some? then Run(p, None)
        else Run(p, Some(Raised(UnknownField(e.0))))
  }

  /** The where loop's step. */
  function WhereStep(entity: Entity): (QueryPlan, (string, Value)) -> Run<QueryPlan>
  {
    (p: QueryPlan, e: (string, Value)) => WhereKeyRun(entity, p, e)
  }

  // ---------------------------------------------------------------- relations

  /** The staging table every to-many child joins as `parent`. */
  const ParentAccessor := TableAccessor(None, None, FB.Main, Some("parent"))

  /** The first join of a to-many child: the staged parent rows, matched on `__<joinColumn>`. */
  function ParentJoin(joinColumn: string, childSource: string, childColumn: string): TableJoin
  {
    TableJoin(FC.InnerJoin, ParentAccessor, [Cond(ColumnAt("parent", "__" + joinColumn), "=", ColumnAt(childSource, childColumn))])
  }

  /** What every to-many include does first: stage into `#main`, with the join column. */
  function Staged(p: QueryPlan, joinColumn: string): QueryPlan
  {
    p.(into := Some(FB.Main), temporalColumns := p.temporalColumns + [FB.TemporalRef(joinColumn)])
  }

  /** A to-many child gets the columns of `value.select` that are not `false`; it is
      pushed only once they are all found. */
  function ChildRun(p1: QueryPlan, child: QueryPlan, columns: seq<Column>, value: Value): Run<QueryPlan>
  {
    match Get(value, "select")
    case Err(e) => Run(p1, Some(e))
    case Ok(select) =>
      var r := FoldRun(FB.SelectStep(columns, false, "root", ""), [], Entries(select));
      if r.error.Some? then Run(p1, r.error)
      else Run(p1.(children := p1.children + [child.(columns := r.state)]), None)
  }

  /** The child of a many-to-many include: the link table `manyTableName` read as `many`
      (without database or schema), joined to `#main` through the column the parent's
      join column references, then the target entity as `root` through the column its
      inverse column references. */
  function ManyToManyChild(relation: Relation): QueryPlan
    requires relation.ManyToMany?
  {
    var target := relation.joinEntity;
    EmptyPlan.(
      from := Some(TableAccessor(None, None, relation.manyTableName, Some("many"))),
      joins := [
        ParentJoin(relation.joinColumn, "many", relation.joinColumnReferencedColumnName),
        TableJoin(FC.InnerJoin, BuildTableAccessor(target.tableName, "root", target.schema, target.database),
                  [Cond(ColumnAt("root", relation.inverseColumn), "=",
                        ColumnAt("many", relation.inverseColumnReferencedColumnName))])])
  }

  function ManyToManyRun(relation: Relation, value: Value, p: QueryPlan): Run<QueryPlan>
    requires relation.ManyToMany?
  {
    ChildRun(Staged(p, relation.joinColumn), ManyToManyChild(relation), relation.joinEntity.columns, value)
  }

  /** The child of a one-to-many include: the target entity read as `root`, joined to
      `#main` on its inverse column. */
  function OneToManyChild(relation: Relation): QueryPlan
    requires relation.OneToMany?
  {
    var target := relation.joinEntity;
    EmptyPlan.(
      from := Some(BuildTableAccessor(target.tableName, "root", target.schema, target.database)),
      joins := [ParentJoin(relation.joinColumn, "root", relation.inverseColumn)])
  }

  /** `buildOneToMany`: an include value without a `select` key throws once the parent
      is already staged. */
  function OneToManyRun(relation: Relation, value: Value, p: QueryPlan): Run<QueryPlan>
    requires relation.OneToMany?
  {
    var p1 := Staged(p, relation.joinColumn);
    match Has(value, "select")
    case Err(e) => Run(p1, Some(e))
    case Ok(has) =>
      if !has then Run(p1, Some(Raised(FB.ExpectedSelect)))
      else ChildRun(p1, OneToManyChild(relation), relation.joinEntity.columns, value)
  }

  /** The join of a many-to-one include: INNER for a non-null relation, LEFT otherwise,
      aliased by the relation name and matched on `[<relation>].[<inverse>] = [root].[<join>]`. */
  function ManyToOneJoin(relation: Relation): TableJoin
  {
    var name := relation.info.name;
    TableJoin(if relation.info.nonNull then FC.InnerJoin else FC.LeftJoin,
              BuildTableAccessor(relation.joinEntity.tableName, name, relation.joinEntity.schema, relation.joinEntity.database),
              [Cond(ColumnAt(name, relation.inverseColumn), "=", ColumnAt("root", relation.joinColumn))])
  }

  /** `buildManyToOne`: the join, then the join entity's columns aliased
      `<relation>.<field>`: all of them for `true`, else the keys that are not `false`. */
  function ManyToOneRun(relation: Relation, value: Value, p: QueryPlan): Run<QueryPlan>
    requires relation.ManyToOne?
  {
    var name := relation.info.name;
    var p1 := p.(joins := p.joins + [ManyToOneJoin(relation)]);
    if StrictEq(value, Bool(true)) then
      Run(p1.(columns := p1.columns + FB.AllRefs(name, name + ".", relation.joinEntity.columns)), None)
    else
      var r := FoldRun(FB.SelectStep(relation.joinEntity.columns, false, name, name + "."), p1.columns, Entries(value));
      Run(p1.(columns := r.state), r.error)
  }

  /** The builder an include dispatches to, by relation kind. */
  function RelationRun(relation: Relation, value: Value, p: QueryPlan): Run<QueryPlan>
  {
    match relation
    case ManyToMany(_, _, _, _, _, _, _, _, _, _) => ManyToManyRun(relation, value, p)
    case ManyToOne(_, _, _, _) => ManyToOneRun(relation, value, p)
    case OneToMany(_, _, _, _) => OneToManyRun(relation, value, p)
  }

  /** One include entry: `false` is skipped; a key that names no relation crashes on
      reading the relation's type. */
  function IncludeRun(entity: Entity, p: QueryPlan, e: (string, Value)): Run<QueryPlan>
  {
    if StrictEq(e.1, Bool(false)) then Run(p, None)
    else match FindRelation(entity.relations, e.0)
      case None => Run(p, Some(FB.UndefinedRead))
      case Some(relation) => RelationRun(relation, e.1, p)
  }

  /** The include loop's step. */
  function IncludeStep(entity: Entity): (QueryPlan, (string, Value)) -> Run<QueryPlan>
  {
    (p: QueryPlan, e: (string, Value)) => IncludeRun(entity, p, e)
  }

  /** The root accessor and the select loop of `build`. */
  function RootPlan(entity: Entity, select: Value): Run<QueryPlan>
  {
    var s := FoldRun(FB.SelectStep(entity.columns, false, "root", ""), [], Entries(select));
    Run(EmptyPlan.(from := Some(BuildTableAccessor(entity.tableName, "root", entity.schema, entity.database)),
                   columns := s.state), s.error)
  }

  /** The context `build` returns: the root accessor, then select, where and include. */
  function BuildPlan(entity: Entity, args: Value): Result<QueryPlan>
  {
    var select :- Get(args, "select");
    var s := RootPlan(entity, select);
    if s.error.Some? then Err(s.error.value) else
    var w := FoldRun(WhereStep(entity), s.state, Entries(Prop(args, "where")));
    if w.error.Some? then Err(w.error.value) else
    var i := FoldRun(IncludeStep(entity), w.state, Entries(Prop(args, "include")));
    if i.error.Some? then Err(i.error.value) else Ok(i.state)
  }

  // ---------------------------------------------------------------- the builder

  /** The select loop of `buildSelect`, of both to-many child selects and of a
      many-to-one select: one column per key whose value is not `false`. */
  method SelectColumns(select: Value, columns: seq<Column>, source: string, prefix: string, init: seq<FC.ColumnRef>)
    returns (refs: seq<FC.ColumnRef>, error: Option<Failure>)
    ensures Run(refs, error) == FoldRun(FB.SelectStep(columns, false, source, prefix), init, Entries(select))
  {
    var step := FB.SelectStep(columns, false, source, prefix);
    var fields := Entries(select);
    refs := init;
    for i := 0 to |fields|
      invariant FoldRun(step, init, fields[..i]) == Run(refs, None)
    {
      FoldRunNext(step, init, fields, i);
      var (field, value) := fields[i];
      if !StrictEq(value, Bool(false)) {
        var column := FindColumn(columns, field);
        if column.None? {
          FoldRunStop(step, init, fields, i + 1);
          return refs, Some(FB.UndefinedRead);
        }
        refs := refs + [FB.FieldRef(source, prefix, column.value)];
      }
    }
    assert fields[..|fields|] == fields;
    error := None;
  }

  /** `buildSelect` */
  method BuildSelect(select: Value, entity: Entity, context: FindContextQueryBuilder) returns (error: Option<Failure>)
    modifies context
    ensures var r := FoldRun(FB.SelectStep(entity.columns, false, "root", ""), old(context.columns), Entries(select));
      context.Plan() == old(context.Plan()).(columns := r.state) && error == r.error
  {
    var refs;
    refs, error := SelectColumns(select, entity.columns, "root", "", context.columns);
    context.columns := refs;
  }

  /** `buildWhere` */
  method BuildWhere(where: Value, entity: Entity, context: FindContextQueryBuilder) returns (error: Option<Failure>)
    modifies context
    ensures var r := FoldRun(WhereStep(entity), old(context.Plan()), Entries(where));
      context.Plan() == r.state && error == r.error
  {
    var step := WhereStep(entity);
    ghost var init := context.Plan();
    var fields := Entries(where);
    for i := 0 to |fields|
      invariant FoldRun(step, init, fields[..i]) == Run(context.Plan(), None)
    {
      FoldRunNext(step, init, fields, i);
      var (field, value) := fields[i];
      if field == "_AND" || field == "_OR" {
        FoldRunStop(step, init, fields, i + 1);
        return Some(Raised(SubtreeAndOr));
      }
      var column := FindColumn(entity.columns, field);
      if column.Some? {
        context.params := Put(context.params, ParamName(field), value);
        context.where := context.where + [WhereCond(column.value, field)];
      } else if FindRelation(entity.relations, field).None? {
        FoldRunStop(step, init, fields, i + 1);
        return Some(Raised(UnknownField(field)));
      }
    }
    assert fields[..|fields|] == fields;
    return None;
  }

  /** `buildManyToOne` */
  method BuildManyToOne(relation: Relation, context: FindContextQueryBuilder, value: Value) returns (error: Option<Failure>)
    requires relation.ManyToOne?
    modifies context
    ensures var r := ManyToOneRun(relation, value, old(context.Plan()));
      context.Plan() == r.state && error == r.error
  {
    var name := relation.info.name;
    context.joins := context.joins + [ManyToOneJoin(relation)];
    var columns := relation.joinEntity.columns;
    if StrictEq(value, Bool(true)) {
      ghost var before := context.columns;
      for i := 0 to |columns|
        invariant context.columns == before + FB.AllRefs(name, name + ".", columns[..i])
        invariant context.Plan() == old(context.Plan()).(joins := context.joins, columns := context.columns)
        invariant context.joins == old(context.joins) + [ManyToOneJoin(relation)]
      {
        context.columns := context.columns + [FB.FieldRef(name, name + ".", columns[i])];
      }
      assert columns[..|columns|] == columns;
      error := None;
    } else {
      var refs;
      refs, error := SelectColumns(value, columns, name, name + ".", context.columns);
      context.columns := refs;
    }
  }

  /** The tail shared by both to-many builders: fill the child's columns from
      `value.select`, then push the child. */
  method PushChild(context: FindContextQueryBuilder, child: FindContextQueryBuilder, columns: seq<Column>, value: Value)
    returns (error: Option<Failure>)
    requires child != context
    requires child.columns == []
    modifies context, child
    ensures var r := ChildRun(old(context.Plan()), old(child.Plan()), columns, value);
      context.Plan() == r.state && error == r.error
  {
    var select := Get(value, "select");
    if select.Err? {
      return Some(select.error);
    }
    ghost var before := child.Plan();
    var refs;
    refs, error := SelectColumns(select.value, columns, "root", "", child.columns);
    child.columns := refs;
    assert child.Plan() == before.(columns := refs);
    if error.None? {
      context.children := context.children + [child.Plan()];
    }
  }

  /** `buildManyToMany` */
  method BuildManyToMany(relation: Relation, context: FindContextQueryBuilder, value: Value) returns (error: Option<Failure>)
    requires relation.ManyToMany?
    modifies context
    ensures var r := ManyToManyRun(relation, value, old(context.Plan()));
      context.Plan() == r.state && error == r.error
  {
    context.into := Some(FB.Main);
    context.temporalColumns := context.temporalColumns + [FB.TemporalRef(relation.joinColumn)];
    var target := relation.joinEntity;
    var child := new FindContextQueryBuilder();
    child.from := Some(TableAccessor(None, None, relation.manyTableName, Some("many")));
    child.joins := child.joins + [ParentJoin(relation.joinColumn, "many", relation.joinColumnReferencedColumnName)];
    child.joins := child.joins + [TableJoin(FC.InnerJoin, BuildTableAccessor(target.tableName, "root", target.schema, target.database),
                                            [Cond(ColumnAt("root", relation.inverseColumn), "=",
                                                  ColumnAt("many", relation.inverseColumnReferencedColumnName))])];
    assert child.Plan() == ManyToManyChild(relation);
    error := PushChild(context, child, target.columns, value);
  }

  /** `buildOneToMany` */
  method BuildOneToMany(relation: Relation, context: FindContextQueryBuilder, value: Value) returns (error: Option<Failure>)
    requires relation.OneToMany?
    modifies context
    ensures var r := OneToManyRun(relation, value, old(context.Plan()));
      context.Plan() == r.state && error == r.error
  {
    context.into := Some(FB.Main);
    context.temporalColumns := context.temporalColumns + [FB.TemporalRef(relation.joinColumn)];
    var target := relation.joinEntity;
    var child := new FindContextQueryBuilder();
    child.from := Some(BuildTableAccessor(target.tableName, "root", target.schema, target.database));
    child.joins := child.joins + [ParentJoin(relation.joinColumn, "root", relation.inverseColumn)];
    assert child.Plan() == OneToManyChild(relation);
    var has := Has(value, "select");
    if has.Err? {
      return Some(has.error);
    }
    if !has.value {
      return Some(Raised(FB.ExpectedSelect));
    }
    error := PushChild(context, child, target.columns, value);
  }

  /** The `switch` on the relation kind in `buildInclude`. */
  method BuildRelation(relation: Relation, context: FindContextQueryBuilder, value: Value) returns (error: Option<Failure>)
    modifies context
    ensures var r := RelationRun(relation, value, old(context.Plan()));
      context.Plan() == r.state && error == r.error
  {
    match relation
    case ManyToMany(_, _, _, _, _, _, _, _, _, _) =>
      error := BuildManyToMany(relation, context, value);
    case ManyToOne(_, _, _, _) =>
      error := BuildManyToOne(relation, context, value);
    case OneToMany(_, _, _, _) =>
      error := BuildOneToMany(relation, context, value);
  }

  /** `buildInclude` */
  method BuildInclude(included: Value, entity: Entity, context: FindContextQueryBuilder) returns (error: Option<Failure>)
    modifies context
    ensures var r := FoldRun(IncludeStep(entity), old(context.Plan()), Entries(included));
      context.Plan() == r.state && error == r.error
  {
    var step := IncludeStep(entity);
    ghost var init := context.Plan();
    var fields := Entries(included);
    for i := 0 to |fields|
      invariant FoldRun(step, init, fields[..i]) == Run(context.Plan(), None)
    {
      FoldRunNext(step, init, fields, i);
      var (field, value) := fields[i];
      if StrictEq(value, Bool(false)) {
        continue;
      }
      var relation := FindRelation(entity.relations, field);
      if relation.None? {
        FoldRunStop(step, init, fields, i + 1);
        return Some(FB.UndefinedRead);
      }
      error := BuildRelation(relation.value, context, value);
      if error.Some? {
        FoldRunStop(step, init, fields, i + 1);
        return;
      }
    }
    assert fields[..|fields|] == fields;
    return None;
  }

  /** `build`: a fresh context holding the compiled plan, or the error it throws. */
  method Build(entity: Entity, args: Value) returns (r: Result<FindContextQueryBuilder>)
    ensures r.Ok? <==> BuildPlan(entity, args).Ok?
    ensures r.Ok? ==> fresh(r.value) && r.value.Plan() == BuildPlan(entity, args).value
    ensures r.Err? ==> r.error == BuildPlan(entity, args).error
  {
    var context := new FindContextQueryBuilder();
    context.from := Some(BuildTableAccessor(entity.tableName, "root", entity.schema, entity.database));
    var select :- Get(args, "select");
    var error := BuildSelect(select, entity, context);
    if error.Some? {
      return Err(error.value);
    }
    error := BuildWhere(Prop(args, "where"), entity, context);
    if error.Some? {
      return Err(error.value);
    }
    error := BuildInclude(Prop(args, "include"), entity, context);
    if error.Some? {
      return Err(error.value);
    }
    return Ok(context);
  }
}
