/** What the find builder of `find.query-builder.ts` promises: the root accessor, the
    parameters and conditions `buildWhere` adds and the errors it throws, the child
    contexts of to-many includes, the join of a many-to-one include, and what the
    include loop leaves alone. */
module FindQueryProps {
  import opened Js
  import opened Schema
  import FC = FindContext
  import FB = FindBuilder
  import FBP = FindBuilderProps
  import opened ContextQuery
  import CQP = ContextQueryProps
  import opened FindQuery

  // ---------------------------------------------------------------- where

  /** A where key `buildWhere` accepts: not `_AND` or `_OR`, and naming a column or a
      relation of the entity. */
  predicate WhereKey(entity: Entity, key: string)
  {
    key != "_AND" && key != "_OR"
    && (FindColumn(entity.columns, key).Some? || FindRelation(entity.relations, key).Some?)
  }

  /** The error `buildWhere` throws for a key it does not accept. */
  function WhereError(key: string): Failure
  {
    if key == "_AND" || key == "_OR" then Raised(SubtreeAndOr) else Raised(UnknownField(key))
  }

  /** The condition a where key adds: one for a column, none for a relation. */
  function KeyConds(entity: Entity, key: string): seq<Condition>
  {
    match FindColumn(entity.columns, key)
    case Some(column) => [WhereCond(column, key)]
    case None => []
  }

  /** The condition list of one where entry. */
  function EntryConds(entity: Entity): ((string, Value)) -> seq<Condition>
  {
    (e: (string, Value)) => KeyConds(entity, e.0)
  }

  /** The conditions of the column keys, in key order. */
  function ColumnConds(entity: Entity, entries: Fields): seq<Condition>
  {
    Concat(EntryConds(entity), entries)
  }

  /** One where key: accepted keys add their condition (and, for a column, its
      parameter); any other key throws its error and changes nothing. */
  lemma WhereStepCases(entity: Entity, q: QueryPlan, e: (string, Value))
    ensures var r := WhereKeyRun(entity, q, e);
      (r.error.None? <==> WhereKey(entity, e.0))
      && (r.error.Some? ==> r == Run(q, Some(WhereError(e.0))))
      && (r.error.None? ==> r.state == q.(params := r.state.params, where := q.where + KeyConds(entity, e.0)))
      && (r.error.None? ==> r.state.params == if FindColumn(entity.columns, e.0).Some? then Put(q.params, ParamName(e.0), e.1) else q.params)
  {
  }

  /** Only the parameters and the conditions change, whatever the keys. */
  lemma WhereFrame(entity: Entity, p: QueryPlan, entries: Fields)
    ensures var r := FoldRun(WhereStep(entity), p, entries);
      r.state == p.(params := r.state.params, where := r.state.where)
  {
    var inv := (q: QueryPlan) => q == p.(params := q.params, where := q.where);
    forall q: QueryPlan, e: (string, Value) | inv(q)
      ensures inv(WhereStep(entity)(q, e).state)
    {
      WhereStepCases(entity, q, e);
    }
    FoldRunKeeps(WhereStep(entity), p, entries, inv);
  }

  /** The where loop succeeds exactly when every key is accepted. */
  lemma WhereFoldOk(entity: Entity, p: QueryPlan, entries: Fields)
    ensures FoldRun(WhereStep(entity), p, entries).error.None?
        <==> forall j :: 0 <= j < |entries| ==> WhereKey(entity, entries[j].0)
  {
    var ok := (e: (string, Value)) => WhereKey(entity, e.0);
    forall q: QueryPlan, e: (string, Value)
      ensures WhereStep(entity)(q, e).error.None? <==> ok(e)
    {
      WhereStepCases(entity, q, e);
    }
    FoldRunOkIff(WhereStep(entity), p, entries, ok);
  }

  /** When the where loop throws, it throws the error of the first key it does not
      accept. */
  lemma WhereFoldError(entity: Entity, p: QueryPlan, entries: Fields)
    ensures var r := FoldRun(WhereStep(entity), p, entries);
      r.error.Some? ==>
        exists j :: 0 <= j < |entries| && !WhereKey(entity, entries[j].0)
          && r.error == Some(WhereError(entries[j].0))
          && forall i :: 0 <= i < j ==> WhereKey(entity, entries[i].0)
  {
    var ok := (e: (string, Value)) => WhereKey(entity, e.0);
    var err := (e: (string, Value)) => WhereError(e.0);
    forall q: QueryPlan, e: (string, Value)
      ensures (WhereStep(entity)(q, e).error.None? <==> ok(e))
           && (WhereStep(entity)(q, e).error.Some? ==> WhereStep(entity)(q, e).error == Some(err(e)))
    {
      WhereStepCases(entity, q, e);
    }
    FoldRunFirstError(WhereStep(entity), p, entries, ok, err);
  }

  /** A where loop that succeeds appends the condition of every column key, in key
      order; relation keys leave no trace. */
  lemma WhereFold(entity: Entity, p: QueryPlan, entries: Fields)
    ensures var r := FoldRun(WhereStep(entity), p, entries);
      r.error.None? ==> r.state.where == p.where + ColumnConds(entity, entries)
  {
    var f := (q: QueryPlan) => q.where;
    forall q: QueryPlan, e: (string, Value) | WhereStep(entity)(q, e).error.None?
      ensures f(WhereStep(entity)(q, e).state) == f(q) + EntryConds(entity)(e)
    {
      WhereStepCases(entity, q, e);
    }
    FoldRunAppends(WhereStep(entity), p, entries, f, EntryConds(entity));
  }

  /** `root_` names are distinct for distinct fields. */
  lemma ParamNameInjective(a: string, b: string)
    ensures ParamName(a) == ParamName(b) <==> a == b
  {
    if ParamName(a) == ParamName(b) {
      assert ParamName(a)[5..] == a;
      assert ParamName(b)[5..] == b;
    }
  }

  /** The parameter a where entry binds: `root_<field>` for a column, none otherwise. */
  function BindParam(entity: Entity): (Fields, (string, Value)) -> Fields
  {
    (params: Fields, e: (string, Value)) =>
      if FindColumn(entity.columns, e.0).Some? then Put(params, ParamName(e.0), e.1) else params
  }

  /** After binding the parameters of distinct where keys, `root_<field>` holds the
      filter value of each column key, and every other parameter keeps its value. */
  lemma {:induction false} BoundParams(entity: Entity, params: Fields, entries: Fields)
    requires DistinctKeys(entries)
    ensures var r := FoldLeft(BindParam(entity), params, entries);
      (forall j :: 0 <= j < |entries| && FindColumn(entity.columns, entries[j].0).Some? ==>
         Lookup(r, ParamName(entries[j].0)) == entries[j].1)
      && (forall key :: (forall j :: 0 <= j < |entries| && FindColumn(entity.columns, entries[j].0).Some? ==>
                           key != ParamName(entries[j].0)) ==>
            Lookup(r, key) == Lookup(params, key))
  {
    if entries != [] {
      var n := |entries| - 1;
      var prefix := entries[..n];
      var last := entries[n];
      var prev := FoldLeft(BindParam(entity), params, prefix);
      assert forall j :: 0 <= j < n ==> prefix[j] == entries[j];
      BoundParams(entity, params, prefix);
      var r := FoldLeft(BindParam(entity), params, entries);
      assert r == BindParam(entity)(prev, last);
      var isColumn := FindColumn(entity.columns, last.0).Some?;
      forall j | 0 <= j < |entries| && FindColumn(entity.columns, entries[j].0).Some?
        ensures Lookup(r, ParamName(entries[j].0)) == entries[j].1
      {
        if isColumn {
          LookupPut(prev, ParamName(last.0), last.1, ParamName(entries[j].0));
          if j < n {
            ParamNameInjective(entries[j].0, last.0);
          }
        }
      }
      forall key | (forall j :: 0 <= j < |entries| && FindColumn(entity.columns, entries[j].0).Some? ==>
                                key != ParamName(entries[j].0))
        ensures Lookup(r, key) == Lookup(params, key)
      {
        assert forall j :: 0 <= j < n && FindColumn(entity.columns, prefix[j].0).Some? ==>
                             key != ParamName(prefix[j].0);
        if isColumn {
          LookupPut(prev, ParamName(last.0), last.1, key);
        }
      }
    }
  }

  /** The parameters after a where loop that succeeds on distinct keys: `root_<field>`
      holds the filter value of each column key, and every other parameter keeps its
      value. */
  lemma WhereParams(entity: Entity, p: QueryPlan, entries: Fields)
    requires DistinctKeys(entries)
    ensures var r := FoldRun(WhereStep(entity), p, entries);
      r.error.None? ==>
        (forall j :: 0 <= j < |entries| && FindColumn(entity.columns, entries[j].0).Some? ==>
           Lookup(r.state.params, ParamName(entries[j].0)) == entries[j].1)
        && (forall key :: (forall j :: 0 <= j < |entries| && FindColumn(entity.columns, entries[j].0).Some? ==>
                             key != ParamName(entries[j].0)) ==>
              Lookup(r.state.params, key) == Lookup(p.params, key))
  {
    var f := (q: QueryPlan) => q.params;
    forall q: QueryPlan, e: (string, Value) | WhereStep(entity)(q, e).error.None?
      ensures f(WhereStep(entity)(q, e).state) == BindParam(entity)(f(q), e)
    {
      WhereStepCases(entity, q, e);
    }
    FoldRunTracks(WhereStep(entity), p, entries, f, BindParam(entity));
    BoundParams(entity, p.params, entries);
  }

  // ---------------------------------------------------------------- to-many includes

  /** Staging and the child push of a to-many include: `into` is `#main`, one temporal
      column `__<joinColumn>` is appended, and one child is appended when the child
      select succeeds; its columns are the select keys that are not `false`. The parent's
      columns, joins, parameters and conditions do not change. */
  predicate StagedAndPushed(p: QueryPlan, r: Run<QueryPlan>, joinColumn: string, columns: seq<Column>, select: Value)
    requires r.error.None? ==> FBP.AllColumns(columns, FBP.Kept(Entries(select), false))
  {
    r.state.into == Some(FB.Main)
    && r.state.temporalColumns == p.temporalColumns + [FC.ColumnRef(Some("root"), joinColumn, Some("__" + joinColumn))]
    && r.state.columns == p.columns && r.state.joins == p.joins && r.state.from == p.from
    && r.state.where == p.where && r.state.params == p.params
    && (r.error.Some? ==> r.state.children == p.children)
    && (r.error.None? ==>
          |r.state.children| == |p.children| + 1 && r.state.children[..|p.children|] == p.children
          && r.state.children[|p.children|].columns == FBP.Projected(columns, "root", "", FBP.Kept(Entries(select), false)))
  }

  lemma ChildRunShape(p: QueryPlan, child: QueryPlan, joinColumn: string, columns: seq<Column>, value: Value)
    requires Get(value, "select").Ok?
    ensures var r := ChildRun(Staged(p, joinColumn), child, columns, value);
      (r.error.None? <==> FBP.AllColumns(columns, FBP.Kept(Entries(Get(value, "select").value), false)))
      && StagedAndPushed(p, r, joinColumn, columns, Get(value, "select").value)
      && (r.error.None? ==> r.state.children[|p.children|] == child.(columns := r.state.children[|p.children|].columns))
  {
    FBP.SelectFold(columns, false, "root", "", [], Entries(Get(value, "select").value));
  }

  /** A many-to-many include: staging and one child as above. The child reads the link
      table `manyTableName` as `many` with no database or schema, joins `#main` as
      `parent` on `__<joinColumn> = many.<joinColumnReferencedColumnName>`, then the
      target entity as `root` on `root.<inverseColumn> = many.<inverseColumnReferencedColumnName>`.
      Reading `select` of `null` or `undefined` throws. */
  lemma ManyToManyShape(relation: Relation, value: Value, p: QueryPlan)
    requires relation.ManyToMany?
    ensures var r := ManyToManyRun(relation, value, p);
      (Nullish(value) ==> r.error.Some? && r.error.value.TypeError? && r.state == Staged(p, relation.joinColumn))
      && (!Nullish(value) ==>
            var select := Prop(value, "select");
            (r.error.None? <==> FBP.AllColumns(relation.joinEntity.columns, FBP.Kept(Entries(select), false)))
            && StagedAndPushed(p, r, relation.joinColumn, relation.joinEntity.columns, select)
            && (r.error.None? ==>
                  var child := r.state.children[|p.children|];
                  var target := relation.joinEntity;
                  child.from == Some(TableAccessor(None, None, relation.manyTableName, Some("many")))
                  && child.joins == [
                       TableJoin(FC.InnerJoin, TableAccessor(None, None, "#main", Some("parent")),
                                 [Cond(FC.ColumnSide(Some("parent"), "__" + relation.joinColumn), "=",
                                       FC.ColumnSide(Some("many"), relation.joinColumnReferencedColumnName))]),
                       TableJoin(FC.InnerJoin, BuildTableAccessor(target.tableName, "root", target.schema, target.database),
                                 [Cond(FC.ColumnSide(Some("root"), relation.inverseColumn), "=",
                                       FC.ColumnSide(Some("many"), relation.inverseColumnReferencedColumnName))])]
                  && child.into == None && child.temporalColumns == [] && child.children == []))
  {
    if !Nullish(value) {
      ChildRunShape(p, ManyToManyChild(relation), relation.joinColumn, relation.joinEntity.columns, value);
    }
  }

  /** A many-to-many include of `true` has no `select`: its child projects nothing, so
      rendering the child throws. */
  lemma ManyToManyTrueUnrenderable(relation: Relation, p: QueryPlan)
    requires relation.ManyToMany?
    ensures var r := ManyToManyRun(relation, Bool(true), p);
      r.error.None? && QuerySql(r.state.children[|p.children|]) == Err(Raised(NoProjection))
  {
    ManyToManyShape(relation, Bool(true), p);
    FBP.SelectFold(relation.joinEntity.columns, false, "root", "", [], []);
  }

  /** A one-to-many include: staging and one child as above, the child reading the
      target entity as `root` and joining `#main` on `__<joinColumn> = root.<inverseColumn>`.
      Without a `select` key the include throws `Expected select object` with `#main`
      and the temporal column already in place; on a primitive value the `in` test
      itself throws. */
  lemma OneToManyShape(relation: Relation, value: Value, p: QueryPlan)
    requires relation.OneToMany?
    ensures var r := OneToManyRun(relation, value, p);
      var target := relation.joinEntity;
      (value.Obj? && "select" !in Keys(value.fields) ==>
         r == Run(Staged(p, relation.joinColumn), Some(Raised(FB.ExpectedSelect))))
      && (value.Bool? || value.Num? || value.Str? || Nullish(value) ==>
            r.error.Some? && r.error.value.TypeError? && r.state == Staged(p, relation.joinColumn))
      && (value.Obj? && "select" in Keys(value.fields) ==>
            var select := Prop(value, "select");
            (r.error.None? <==> FBP.AllColumns(target.columns, FBP.Kept(Entries(select), false)))
            && StagedAndPushed(p, r, relation.joinColumn, target.columns, select)
            && (r.error.None? ==>
                  var child := r.state.children[|p.children|];
                  child.from == Some(BuildTableAccessor(target.tableName, "root", target.schema, target.database))
                  && child.joins == [TableJoin(FC.InnerJoin, TableAccessor(None, None, "#main", Some("parent")),
                                               [Cond(FC.ColumnSide(Some("parent"), "__" + relation.joinColumn), "=",
                                                     FC.ColumnSide(Some("root"), relation.inverseColumn))])]))
  {
    if value.Obj? && "select" in Keys(value.fields) {
      ChildRunShape(p, OneToManyChild(relation), relation.joinColumn, relation.joinEntity.columns, value);
    }
  }

  // ---------------------------------------------------------------- many-to-one

  /** A many-to-one include appends one join, INNER exactly for a non-null relation,
      reading the join entity under the relation's name, and the join entity's columns
      aliased `<relation>.<field>` (every column for `true`, else the keys that are not
      `false`); no child, temporal column or staging table is added. */
  lemma ManyToOneShape(relation: Relation, value: Value, p: QueryPlan)
    requires relation.ManyToOne?
    ensures var r, name, columns := ManyToOneRun(relation, value, p), relation.info.name, relation.joinEntity.columns;
      var j := r.state.joins[|p.joins|];
      |r.state.joins| == |p.joins| + 1 && r.state.joins[..|p.joins|] == p.joins
      && (j.joinType == FC.InnerJoin <==> relation.info.nonNull)
      && j.from == BuildTableAccessor(relation.joinEntity.tableName, name, relation.joinEntity.schema, relation.joinEntity.database)
      && j.conditions == [Cond(FC.ColumnSide(Some(name), relation.inverseColumn), "=",
                               FC.ColumnSide(Some("root"), relation.joinColumn))]
      && r.state.into == p.into && r.state.children == p.children && r.state.temporalColumns == p.temporalColumns
      && r.state.where == p.where && r.state.params == p.params && r.state.from == p.from
      && (StrictEq(value, Bool(true)) ==>
            r.error.None?
            && |r.state.columns| == |p.columns| + |columns| && r.state.columns[..|p.columns|] == p.columns
            && forall k :: 0 <= k < |columns| ==>
                 r.state.columns[|p.columns| + k] == FC.ColumnRef(Some(name), columns[k].columnName, Some(name + "." + columns[k].info.name)))
      && (!StrictEq(value, Bool(true)) ==>
            (r.error.None? <==> FBP.AllColumns(columns, FBP.Kept(Entries(value), false)))
            && (r.error.None? ==> r.state.columns == p.columns + FBP.Projected(columns, name, name + ".", FBP.Kept(Entries(value), false))))
  {
    var name := relation.info.name;
    if !StrictEq(value, Bool(true)) {
      FBP.SelectFold(relation.joinEntity.columns, false, name, name + ".", p.columns, Entries(value));
    }
  }

  // ---------------------------------------------------------------- include and build

  /** What an include never touches (parameters, conditions, `from`) and what it only
      appends to (columns, joins, temporal columns, children); `into` can only become
      `#main`. */
  predicate Extends(p: QueryPlan, q: QueryPlan)
  {
    q.params == p.params && q.where == p.where && q.from == p.from
    && p.columns <= q.columns && p.joins <= q.joins
    && p.temporalColumns <= q.temporalColumns && p.children <= q.children
    && (q.into == p.into || q.into == Some(FB.Main))
  }

  lemma RelationExtends(relation: Relation, value: Value, p: QueryPlan)
    ensures Extends(p, RelationRun(relation, value, p).state)
  {
    match relation
    case ManyToMany(_, _, _, _, _, _, _, _, _, _) =>
      ManyToManyShape(relation, value, p);
    case ManyToOne(_, _, _, _) =>
      ManyToOneShape(relation, value, p);
      if !StrictEq(value, Bool(true)) {
        FBP.PrefixKept(relation.joinEntity.columns, false, relation.info.name, relation.info.name + ".", p.columns, Entries(value));
      }
    case OneToMany(_, _, _, _) =>
      OneToManyShape(relation, value, p);
  }

  /** Whatever includes a request lists, and whether or not one throws, the include
      loop leaves the parameters, the conditions and `from` alone and only appends to
      columns, joins, temporal columns and children. */
  lemma IncludeExtends(entity: Entity, p: QueryPlan, entries: Fields)
    ensures Extends(p, FoldRun(IncludeStep(entity), p, entries).state)
  {
    var inv := (q: QueryPlan) => Extends(p, q);
    forall q: QueryPlan, e: (string, Value) | inv(q)
      ensures inv(IncludeRun(entity, q, e).state)
    {
      if !StrictEq(e.1, Bool(false)) && FindRelation(entity.relations, e.0).Some? {
        RelationExtends(FindRelation(entity.relations, e.0).value, e.1, q);
      }
    }
    FoldRunKeeps(IncludeStep(entity), p, entries, inv);
  }

  /** The root plan reads the root table as `root` and projects the select keys that
      are not `false`, in key order; nothing else is set. */
  lemma RootShape(entity: Entity, select: Value)
    ensures var r, kept := RootPlan(entity, select), FBP.Kept(Entries(select), false);
      (r.error.None? <==> FBP.AllColumns(entity.columns, kept))
      && (r.error.None? ==>
            r.state == EmptyPlan.(from := Some(BuildTableAccessor(entity.tableName, "root", entity.schema, entity.database)),
                                  columns := FBP.Projected(entity.columns, "root", "", kept)))
  {
    FBP.SelectFold(entity.columns, false, "root", "", [], Entries(select));
  }

  /** `build` on `null` or `undefined` arguments throws reading `select`. */
  lemma BuildNullish(entity: Entity, args: Value)
    requires Nullish(args)
    ensures BuildPlan(entity, args).Err? && BuildPlan(entity, args).error.TypeError?
  {
  }

  /** `build`: the root table is read as `root`; the select keys that are not `false`
      come first among the columns; the conditions are those of the where keys that name
      columns; without where or include entries nothing else is added. */
  lemma BuildShape(entity: Entity, args: Value)
    requires BuildPlan(entity, args).Ok?
    ensures var p := BuildPlan(entity, args).value;
      var kept := FBP.Kept(Entries(Prop(args, "select")), false);
      var where := Entries(Prop(args, "where"));
      p.from == Some(BuildTableAccessor(entity.tableName, "root", entity.schema, entity.database))
      && FBP.AllColumns(entity.columns, kept)
      && FBP.Projected(entity.columns, "root", "", kept) <= p.columns
      && (forall j :: 0 <= j < |where| ==> WhereKey(entity, where[j].0))
      && p.where == ColumnConds(entity, where)
      && (where == [] ==> p.params == [])
      && (Entries(Prop(args, "include")) == [] ==>
            p.joins == [] && p.temporalColumns == [] && p.children == [] && p.into == None
            && p.columns == FBP.Projected(entity.columns, "root", "", kept))
  {
    var select := Prop(args, "select");
    var s := RootPlan(entity, select);
    RootShape(entity, select);
    var where := Entries(Prop(args, "where"));
    var w := FoldRun(WhereStep(entity), s.state, where);
    WhereFoldOk(entity, s.state, where);
    WhereFold(entity, s.state, where);
    WhereFrame(entity, s.state, where);
    var includes := Entries(Prop(args, "include"));
    var i := FoldRun(IncludeStep(entity), w.state, includes);
    IncludeExtends(entity, w.state, includes);
    assert BuildPlan(entity, args).value == i.state;
  }

  /** The rendered statement of a built context reads the root table with its alias and
      lock hint: `FROM [<database>].[<schema>].[<table>] AS [root] WITH(NOLOCK)`, right
      after the column list or the INTO line. */
  lemma BuildRendersRoot(entity: Entity, args: Value)
    requires BuildPlan(entity, args).Ok?
    requires QueryLines(BuildPlan(entity, args).value).Ok?
    ensures var p := BuildPlan(entity, args).value;
      var from := "FROM " + AccessorSql(BuildTableAccessor(entity.tableName, "root", entity.schema, entity.database));
      (if Present(p.into) then CQP.Lines(p)[3] == from else CQP.Lines(p)[2] == from)
      && EndsWith(from, RootSuffix)
  {
    BuildFrom(entity, args);
    RootLine(BuildPlan(entity, args).value);
  }

  /** The end of an accessor aliased `root`: ` AS [root] WITH(NOLOCK)`. */
  const RootSuffix := " AS " + FC.Bracket("root") + " WITH(NOLOCK)"

  /** The FROM line of a plan whose accessor is aliased `root`. */
  lemma RootLine(p: QueryPlan)
    requires QueryLines(p).Ok? && p.from.Some? && p.from.value.alias == Some("root")
    ensures var from := "FROM " + AccessorSql(p.from.value);
      (if Present(p.into) then CQP.Lines(p)[3] == from else CQP.Lines(p)[2] == from)
      && EndsWith(from, RootSuffix)
  {
    var t := p.from.value;
    CQP.HeadClauses(p);
    CQP.AccessorEnding(t);
    EndsWithConcat("FROM ", AccessorSql(t), RootSuffix);
  }

  /** Whatever the request, a built context reads the root table as `root`. */
  lemma BuildFrom(entity: Entity, args: Value)
    requires BuildPlan(entity, args).Ok?
    ensures BuildPlan(entity, args).value.from
         == Some(BuildTableAccessor(entity.tableName, "root", entity.schema, entity.database))
  {
    var select := Prop(args, "select");
    var s := RootPlan(entity, select);
    var where := Entries(Prop(args, "where"));
    var w := FoldRun(WhereStep(entity), s.state, where);
    WhereFrame(entity, s.state, where);
    IncludeExtends(entity, w.state, Entries(Prop(args, "include")));
  }

  lemma EndsWithConcat(a: string, b: string, suffix: string)
    requires EndsWith(b, suffix)
    ensures EndsWith(a + b, suffix)
  {
    assert (a + b)[|a + b| - |suffix|..] == b[|b| - |suffix|..];
  }
}
